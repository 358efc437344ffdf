/** `SpecialistAgent.parseResponse`: free text from a specialist turned into
    an assessment, a confidence in [0, 100], at most five key findings and at
    most four recommendations. Every field has a fallback, so the parser is
    total. Each regular expression of the source is one matcher below, tried
    at every position by `Scan.FirstCapture`. */
module ResponseParser {
  import opened Wrappers
  import opened Text
  import opened Scan

  datatype Parsed = Parsed(
    assessment: string,
    confidence: int,
    keyFindings: seq<string>,
    recommendations: seq<string>)

  const DefaultConfidence: int := 75
  const MaxFindings: nat := 5
  const MaxRecommendations: nat := 4

  /** The labels at which an assessment block stops. */
  const AssessmentStops: seq<string> := ["Confidence", "Key Findings", "Recommendations"]

  /* ------------------------------------------------------------ matchers */

  /** `/Assessment[:\s]+([^\n]+(?:\n(?!Confidence|Key Findings|Recommendations)[^\n]+)*)/i`
      tried at position `p`. */
  function AssessmentAt(s: string, p: nat): Option<string> {
    LabelledBlockAt(s, p, "Assessment", AssessmentStops)
  }

  /** `/Confidence[:\s]+(\d+)%?/i` tried at position `p`, read with
      `parseInt`. Only the whole separator run can be followed by a digit, so
      there is no backtracking to consider. */
  function ConfidenceAt(s: string, p: nat): Option<nat> {
    if LabelAt(s, p, "Confidence") then
      var b := RunEnd(s, p + 10, SepClass);
      if p + 10 < b < |s| && IsDigit(s[b]) then
        var e := DigitRunEnd(s, b);
        assert AllDigits(s[b..e]);
        Some(DigitsValue(s[b..e]))
      else None
    else None
  }

  /** `/<tag>s?[:\s]+((?:[-•\d.]\s*[^\n]+\n?)+)/i` tried at position `p`, for
      `tag` one of "Key Finding" and "Recommendation". If an `s` follows the
      tag, the variant without it would need a separator where the `s` is, so
      the optional letter is taken whenever it is there. */
  function ListAt(s: string, p: nat, tag: string): Option<string> {
    if LabelAt(s, p, tag) then
      var t := p + |tag|;
      var a := if t < |s| && LowerAscii(s[t]) == 's' then t + 1 else t;
      var b := RunEnd(s, a, SepClass);
      if a < b then
        match ItemEnd(s, b)
        case Some(y) => Some(s[b..ItemsEnd(s, y)])
        case None => None
      else None
    else None
  }

  /* ------------------------------------------------- list post-processing */

  /** `.filter(line => line.trim())` */
  function KeepNonBlank(lines: seq<string>): (r: seq<string>)
    ensures |r| <= |lines|
    ensures forall i :: 0 <= i < |r| ==> Trim(r[i]) != [] && r[i] in lines
  {
    if |lines| == 0 then []
    else (if Trim(lines[0]) != [] then [lines[0]] else []) + KeepNonBlank(lines[1..])
  }

  /** `line.replace` of the pattern `^[-•\d.]\s*` by nothing: one leading
      marker character and the white space after it are removed. */
  function StripMarker(line: string): (r: string)
    ensures |line| > 0 && IsMarker(line[0]) ==> |r| < |line| && r == line[|line| - |r|..]
    ensures |line| > 0 && IsMarker(line[0]) ==> forall k :: 1 <= k < |line| - |r| ==> IsSpace(line[k])
    ensures |r| > 0 && |line| > 0 && IsMarker(line[0]) ==> !IsSpace(r[0])
    ensures !(|line| > 0 && IsMarker(line[0])) ==> r == line
  {
    if |line| > 0 && IsMarker(line[0]) then line[RunEnd(line, 1, SpaceClass)..] else line
  }

  /** `.map(line => <marker stripped>.trim())` */
  function StripMarkers(lines: seq<string>): (r: seq<string>)
    ensures |r| == |lines|
    ensures forall i :: 0 <= i < |r| ==> r[i] == Trim(StripMarker(lines[i]))
  {
    seq(|lines|, i requires 0 <= i < |lines| => Trim(StripMarker(lines[i])))
  }

  /** `.filter(line => line.length > 0)` */
  function KeepNonEmpty(lines: seq<string>): (r: seq<string>)
    ensures |r| <= |lines|
    ensures forall i :: 0 <= i < |r| ==> |r[i]| > 0 && r[i] in lines
  {
    if |lines| == 0 then []
    else (if |lines[0]| > 0 then [lines[0]] else []) + KeepNonEmpty(lines[1..])
  }

  /** Every entry is non-empty, has no white space at either end and lies on
      one line. */
  predicate CleanEntry(e: string) {
    |e| > 0 && IsTrimmed(e) && '\n' !in e
  }

  /** The entries a captured list section yields, before the cap: all of
      them clean. */
  function ListEntries(section: string): (r: seq<string>)
    ensures forall i :: 0 <= i < |r| ==> CleanEntry(r[i])
  {
    var lines := Split(section, '\n');
    KeepNonBlankOneLine(lines);
    StripMarkersOneLine(KeepNonBlank(lines));
    KeepNonEmptyClean(StripMarkers(KeepNonBlank(lines)));
    KeepNonEmpty(StripMarkers(KeepNonBlank(lines)))
  }

  lemma {:induction false} KeepNonBlankOneLine(lines: seq<string>)
    requires forall i :: 0 <= i < |lines| ==> '\n' !in lines[i]
    ensures forall i :: 0 <= i < |KeepNonBlank(lines)| ==> '\n' !in KeepNonBlank(lines)[i]
  {
    if |lines| > 0 { KeepNonBlankOneLine(lines[1..]); }
  }

  lemma {:induction false} StripMarkersOneLine(lines: seq<string>)
    requires forall i :: 0 <= i < |lines| ==> '\n' !in lines[i]
    ensures forall i :: 0 <= i < |lines| ==>
              '\n' !in StripMarkers(lines)[i] && IsTrimmed(StripMarkers(lines)[i])
  {
    forall i | 0 <= i < |lines|
      ensures '\n' !in StripMarkers(lines)[i]
    {
      var m := StripMarker(lines[i]);
      assert '\n' !in m by {
        if |lines[i]| > 0 && IsMarker(lines[i][0]) {
          assert m == lines[i][|lines[i]| - |m|..];
        }
      }
      TrimInside(m);
    }
  }

  lemma {:induction false} KeepNonEmptyClean(lines: seq<string>)
    requires forall i :: 0 <= i < |lines| ==> '\n' !in lines[i] && IsTrimmed(lines[i])
    ensures forall i :: 0 <= i < |KeepNonEmpty(lines)| ==> CleanEntry(KeepNonEmpty(lines)[i])
  {
    if |lines| > 0 { KeepNonEmptyClean(lines[1..]); }
  }

  /** Trimming only removes characters. */
  lemma {:induction false} TrimInside(s: string)
    requires '\n' !in s
    ensures '\n' !in Trim(s)
  {
    var i := LeadingSpaces(s);
    if i < |s| {
      var j := |s| - TrailingSpaces(s);
      assert Trim(s) == s[i..j];
    }
  }

  /** `entries.slice(0, cap)` */
  function Capped(entries: seq<string>, cap: nat): (r: seq<string>)
    ensures |r| <= cap && |r| <= |entries| && r == entries[..|r|]
    ensures |entries| <= cap ==> r == entries
  {
    if |entries| <= cap then entries else entries[..cap]
  }

  /** The first `<tag>` list in `s`, cleaned, at most `cap` entries long. */
  function ParseList(s: string, tag: string, cap: nat): (r: seq<string>)
    ensures |r| <= cap
    ensures forall i :: 0 <= i < |r| ==> CleanEntry(r[i])
  {
    match FirstCapture((p: nat) => ListAt(s, p, tag), |s|)
    case None => []
    case Some(section) => Capped(ListEntries(section), cap)
  }

  /** No entries when the pattern matches nowhere. */
  lemma ParseListAbsent(s: string, tag: string, cap: nat)
    requires forall p: nat :: p < |s| ==> ListAt(s, p, tag).None?
    ensures ParseList(s, tag, cap) == []
  {
    var m := (p: nat) => ListAt(s, p, tag);
    assert forall p: nat :: m(p) == ListAt(s, p, tag);
    assert FirstCapture(m, |s|).None?;
  }

  /** Otherwise the entries of the leftmost match, capped. */
  lemma ParseListLeftmost(s: string, tag: string, cap: nat, p: nat)
    requires p < |s| && ListAt(s, p, tag).Some?
    requires forall q: nat :: q < p ==> ListAt(s, q, tag).None?
    ensures ParseList(s, tag, cap) == Capped(ListEntries(ListAt(s, p, tag).value), cap)
  {
    var m := (p: nat) => ListAt(s, p, tag);
    assert forall p: nat :: m(p) == ListAt(s, p, tag);
    assert FirstCapture(m, |s|) == ListAt(s, p, tag);
  }

  /** `Math.min(Math.max(confidence, 0), 100)` */
  function Clamp(v: int): (r: int)
    ensures 0 <= r <= 100
    ensures 0 <= v <= 100 ==> r == v
  {
    if v < 0 then 0 else if v > 100 then 100 else v
  }

  /* ---------------------------------------------------------- the parser */

  /** The assessment: the trimmed capture of the leftmost `Assessment`
      match, or, when the label matches nowhere, the trimmed text before the
      first blank line. */
  function ReadAssessment(content: string): (r: string)
    ensures IsTrimmed(r)
    ensures (forall p: nat :: p < |content| ==> AssessmentAt(content, p).None?) ==>
              r == Trim(FirstParagraph(content))
    ensures forall p: nat ::
              (p < |content| && AssessmentAt(content, p).Some? &&
               forall q: nat :: q < p ==> AssessmentAt(content, q).None?) ==>
              r == Trim(AssessmentAt(content, p).value)
  {
    var m := (p: nat) => AssessmentAt(content, p);
    assert forall p: nat :: m(p) == AssessmentAt(content, p);
    match FirstCapture(m, |content|)
    case Some(a) => Trim(a)
    case None => Trim(FirstParagraph(content))
  }

  /** The digits of the leftmost `Confidence` match, if there is one. The
      specialist and coordinator parsers share this search and differ only in
      what they do with its result. */
  function FirstConfidence(content: string): (r: Option<nat>)
    ensures r.None? <==> forall p: nat :: p < |content| ==> ConfidenceAt(content, p).None?
    ensures forall p: nat ::
              (p < |content| && ConfidenceAt(content, p).Some? &&
               forall q: nat :: q < p ==> ConfidenceAt(content, q).None?) ==>
              r == ConfidenceAt(content, p)
  {
    var m := (p: nat) => ConfidenceAt(content, p);
    assert forall p: nat :: m(p) == ConfidenceAt(content, p);
    FirstCapture(m, |content|)
  }

  /** The confidence: the digits of the leftmost `Confidence` match, clamped
      into [0, 100], or 75 when the label is nowhere followed by digits. */
  function ReadConfidence(content: string): (r: int)
    ensures 0 <= r <= 100
    ensures (forall p: nat :: p < |content| ==> ConfidenceAt(content, p).None?) ==>
              r == DefaultConfidence
    ensures forall p: nat ::
              (p < |content| && ConfidenceAt(content, p).Some? &&
               forall q: nat :: q < p ==> ConfidenceAt(content, q).None?) ==>
              r == Clamp(ConfidenceAt(content, p).value)
  {
    match FirstConfidence(content)
    case Some(v) => Clamp(v)
    case None => Clamp(DefaultConfidence)
  }

  /** `parseResponse`. It is total: whatever the text, it yields a full
      record whose confidence lies in [0, 100], whose lists respect their
      caps of five and four and hold only clean entries, and whose assessment
      is trimmed. */
  function ParseResponse(content: string): (r: Parsed)
    ensures 0 <= r.confidence <= 100
    ensures |r.keyFindings| <= MaxFindings && |r.recommendations| <= MaxRecommendations
    ensures forall i :: 0 <= i < |r.keyFindings| ==> CleanEntry(r.keyFindings[i])
    ensures forall i :: 0 <= i < |r.recommendations| ==> CleanEntry(r.recommendations[i])
    ensures IsTrimmed(r.assessment)
  {
    Parsed(
      ReadAssessment(content),
      ReadConfidence(content),
      ParseList(content, "Key Finding", MaxFindings),
      ParseList(content, "Recommendation", MaxRecommendations))
  }

  /* ------------------------------------------------- reading text back */

  /** A confidence label at `p`, then a separator run of length `n`, then a
      digit run of length `len` that is not followed by another digit: the
      match at `p` reads that digit run. */
  lemma {:induction false} ConfidenceAtDigits(s: string, p: nat, n: nat, len: nat)
    requires LabelAt(s, p, "Confidence") && n > 0 && len > 0
    requires p + 10 + n + len <= |s|
    requires forall q :: p + 10 <= q < p + 10 + n ==> InClass(SepClass, s[q])
    requires forall q :: p + 10 + n <= q < p + 10 + n + len ==> IsDigit(s[q])
    requires p + 10 + n + len == |s| || !IsDigit(s[p + 10 + n + len])
    ensures AllDigits(s[p + 10 + n..p + 10 + n + len])
    ensures ConfidenceAt(s, p) == Some(DigitsValue(s[p + 10 + n..p + 10 + n + len]))
  {
    RunEndOver(s, p + 10, SepClass, n);
    DigitRunEndOver(s, p + 10 + n, len);
    assert IsDigit(s[p + 10 + n]);
  }

  /** The same, with the digits given as a string. */
  lemma {:induction false} ConfidenceAtRun(s: string, p: nat, n: nat, ds: string)
    requires LabelAt(s, p, "Confidence")
    requires |ds| > 0 && AllDigits(ds)
    requires p + 10 + n + |ds| <= |s|
    requires n > 0 && forall q :: p + 10 <= q < p + 10 + n ==> InClass(SepClass, s[q])
    requires s[p + 10 + n..p + 10 + n + |ds|] == ds
    requires p + 10 + n + |ds| == |s| || !IsDigit(s[p + 10 + n + |ds|])
    ensures ConfidenceAt(s, p) == Some(DigitsValue(ds))
  {
    var b := p + 10 + n;
    SliceDigits(s, b, ds);
    ConfidenceAtDigits(s, p, n, |ds|);
    DigitsValueOfEqual(s[b..b + |ds|], ds);
  }

  /** What a text assembled from a label, a separator and digits holds, in
      the terms the scanner lemmas take. */
  lemma {:induction false} ConfidencePieces(pre: string, tag: string, sep: string, ds: string, rest: string)
    requires |tag| == 10 && LabelAt(tag, 0, "Confidence")
    requires |sep| > 0 && forall k :: 0 <= k < |sep| ==> InClass(SepClass, sep[k])
    requires |ds| > 0 && AllDigits(ds)
    requires rest == [] || !IsDigit(rest[0])
    ensures var s := pre + tag + sep + ds + rest;
            var b := |pre| + 10 + |sep|;
            LabelAt(s, |pre|, "Confidence") &&
            (forall q :: |pre| + 10 <= q < b ==> InClass(SepClass, s[q])) &&
            b + |ds| <= |s| && s[b..b + |ds|] == ds &&
            (b + |ds| == |s| || !IsDigit(s[b + |ds|]))
  {
    var s := pre + tag + sep + ds + rest;
    var p := |pre|;
    var e := p + 10 + |sep| + |ds|;
    assert s[p..p + 10] == tag;
    assert s[p + 10..p + 10 + |sep|] == sep;
    assert s[p + 10 + |sep|..e] == ds;
    assert s[e..] == rest;
    assert e < |s| ==> s[e] == s[e..][0];
    LabelSlice(s, p, tag, "Confidence");
    SliceInClass(s, p + 10, SepClass, sep);
  }

  /** The first confidence label, followed by a separator run and digits, is
      read as those digits, clamped. */
  lemma {:induction false} ConfidenceReadBack(pre: string, tag: string, sep: string, ds: string, rest: string)
    requires |tag| == 10 && LabelAt(tag, 0, "Confidence")
    requires |sep| > 0 && forall k :: 0 <= k < |sep| ==> InClass(SepClass, sep[k])
    requires |ds| > 0 && AllDigits(ds)
    requires rest == [] || !IsDigit(rest[0])
    requires forall q :: 0 <= q < |pre| ==> !LabelAt(pre + tag + sep + ds + rest, q, "Confidence")
    ensures ReadConfidence(pre + tag + sep + ds + rest) == Clamp(DigitsValue(ds))
  {
    var s := pre + tag + sep + ds + rest;
    ConfidencePieces(pre, tag, sep, ds, rest);
    ConfidenceAtRun(s, |pre|, |sep|, ds);
    NoEarlierConfidence(s, |pre|);
  }

  /** Where a label does not occur, none of the matchers keyed on it match. */
  lemma {:induction false} NoEarlierConfidence(s: string, p: nat)
    requires forall q :: 0 <= q < p ==> !LabelAt(s, q, "Confidence")
    ensures forall q: nat :: q < p ==> ConfidenceAt(s, q).None?
  {
  }

  lemma {:induction false} NoEarlierAssessment(s: string, p: nat)
    requires forall q :: 0 <= q < p ==> !LabelAt(s, q, "Assessment")
    ensures forall q: nat :: q < p ==> AssessmentAt(s, q).None?
  {
  }

  lemma {:induction false} NoEarlierList(s: string, p: nat, tag: string)
    requires forall q :: 0 <= q < p ==> !LabelAt(s, q, tag)
    ensures forall q: nat :: q < p ==> ListAt(s, q, tag).None?
  {
  }

  /** A list item of the form the prompts ask for: a dash, a space, the entry
      and a line feed. */
  function Bullet(item: string): string {
    "- " + item + "\n"
  }

  function Bullets(items: seq<string>): string {
    if |items| == 0 then [] else Bullet(items[0]) + Bullets(items[1..])
  }

  /** `- <item>\n` at `x` is exactly one list item. */
  lemma {:induction false} ItemEndBullet(s: string, x: nat, item: string)
    requires CleanEntry(item)
    requires x + |item| + 3 <= |s| && s[x..x + |item| + 3] == Bullet(item)
    ensures ItemEnd(s, x) == Some(x + |item| + 3)
  {
    var line := Bullet(item);
    assert s[x] == line[0] == '-';
    assert s[x + 1] == line[1] == ' ';
    assert s[x + 2] == line[2] == item[0];
    RunEndOver(s, x + 1, SpaceClass, 1);
    var e := x + 2 + |item|;
    forall q | x + 2 <= q < e ensures s[q] != '\n' {
      assert s[q] == line[q - x] == item[q - x - 2];
    }
    assert s[e] == line[|item| + 2] == '\n';
    LineEndOver(s, x + 2, |item|);
  }

  /** The first bullet of a run is one list item, and the others follow it. */
  lemma {:induction false} FirstBullet(s: string, x: nat, items: seq<string>, z: nat)
    requires |items| > 0 && forall i :: 0 <= i < |items| ==> CleanEntry(items[i])
    requires x + |Bullets(items)| <= |s| && s[x..x + |Bullets(items)|] == Bullets(items)
    requires z == x + |Bullet(items[0])|
    ensures ItemEnd(s, x) == Some(z)
    ensures z + |Bullets(items[1..])| == x + |Bullets(items)|
    ensures s[z..z + |Bullets(items[1..])|] == Bullets(items[1..])
  {
    var first := Bullet(items[0]);
    var others := Bullets(items[1..]);
    SliceSplit(s, x, first, others);
    ItemEndBullet(s, x, items[0]);
  }

  /** The greedy item repetition takes every bullet and stops after the last
      one, when no marker follows. */
  lemma {:induction false} ItemsEndBullets(s: string, x: nat, items: seq<string>)
    requires forall i :: 0 <= i < |items| ==> CleanEntry(items[i])
    requires x + |Bullets(items)| <= |s| && s[x..x + |Bullets(items)|] == Bullets(items)
    requires x + |Bullets(items)| == |s| || !IsMarker(s[x + |Bullets(items)|])
    ensures ItemsEnd(s, x) == x + |Bullets(items)|
    decreases |items|
  {
    if |items| == 0 {
      ItemsEndStop(s, x);
    } else {
      var z := x + |Bullet(items[0])|;
      var rest := items[1..];
      FirstBullet(s, x, items, z);
      assert forall i :: 0 <= i < |rest| ==> CleanEntry(rest[i]) by {
        forall i | 0 <= i < |rest| ensures CleanEntry(rest[i]) { assert rest[i] == items[i + 1]; }
      }
      ItemsEndBullets(s, z, rest);
      ItemsEndStep(s, x, z);
    }
  }

  lemma {:induction false} KeepNonBlankDropLast(lines: seq<string>)
    requires forall i :: 0 <= i < |lines| ==> Trim(lines[i]) != []
    ensures KeepNonBlank(lines + [""]) == lines
  {
    if |lines| == 0 {
      assert Trim("") == [];
    } else {
      assert (lines + [""])[1..] == lines[1..] + [""];
      KeepNonBlankDropLast(lines[1..]);
    }
  }

  lemma {:induction false} KeepNonEmptyAll(lines: seq<string>)
    requires forall i :: 0 <= i < |lines| ==> |lines[i]| > 0
    ensures KeepNonEmpty(lines) == lines
  {
    if |lines| > 0 { KeepNonEmptyAll(lines[1..]); }
  }

  function DashLines(items: seq<string>): (r: seq<string>)
    ensures |r| == |items|
    ensures forall i :: 0 <= i < |items| ==> r[i] == "- " + items[i]
  {
    seq(|items|, i requires 0 <= i < |items| => "- " + items[i])
  }

  lemma {:induction false} BulletsAsJoin(items: seq<string>)
    ensures Bullets(items) == Join(DashLines(items) + [""], "\n")
    decreases |items|
  {
    if |items| > 0 {
      BulletsAsJoin(items[1..]);
      assert (DashLines(items) + [""])[1..] == DashLines(items[1..]) + [""];
    }
  }

  /** Splitting bullets at line feeds gives the dashed lines and one empty
      piece after the last line feed. */
  lemma {:induction false} SplitBullets(items: seq<string>)
    requires forall i :: 0 <= i < |items| ==> CleanEntry(items[i])
    ensures Split(Bullets(items), '\n') == DashLines(items) + [""]
  {
    var lines := DashLines(items) + [""];
    BulletsAsJoin(items);
    forall i | 0 <= i < |lines| ensures '\n' !in lines[i] {
      if i < |items| {
        assert lines[i] == "- " + items[i];
      }
    }
    SplitJoin(lines, '\n');
  }

  lemma {:induction false} StripDashes(items: seq<string>)
    requires forall i :: 0 <= i < |items| ==> CleanEntry(items[i])
    ensures StripMarkers(DashLines(items)) == items
  {
    var dashed := DashLines(items);
    forall i | 0 <= i < |items| ensures Trim(StripMarker(dashed[i])) == items[i] {
      StripDash(items[i]);
    }
  }

  lemma {:induction false} StripDash(item: string)
    requires CleanEntry(item)
    ensures Trim(StripMarker("- " + item)) == item
  {
    var line := "- " + item;
    assert line[1] == ' ' && line[2] == item[0];
    RunEndOver(line, 1, SpaceClass, 1);
    assert line[2..] == item;
  }

  /** A numbered line `<digit>. <entry>` loses only its digit: the marker
      class takes one character, and the `.` after it is no white space. */
  lemma NumberedMarker(c: char, item: string)
    requires IsDigit(c)
    ensures StripMarker([c] + ". " + item) == ". " + item
  {
    var line := [c] + ". " + item;
    assert line[1..] == ". " + item;
    assert !IsSpace(line[1]);
  }

  /** Such a line, on its own, is read as one entry that keeps the `.`. */
  lemma NumberedLineKeepsDot(c: char, item: string)
    requires IsDigit(c) && CleanEntry(item)
    ensures ListEntries([c] + ". " + item) == [". " + item]
  {
    var line := [c] + ". " + item;
    var entry := ". " + item;
    NumberedMarker(c, item);
    assert '\n' !in line by {
      assert line == [c] + ['.', ' '] + item;
    }
    OneLineEntries(line, entry);
  }

  /** One line with no space at its start whose trimmed, stripped form is
      the non-empty `entry` is read as exactly that entry. */
  lemma OneLineEntries(line: string, entry: string)
    requires '\n' !in line && |line| > 0 && !IsSpace(line[0])
    requires StripMarker(line) == entry && |entry| > 0 && IsTrimmed(entry)
    ensures ListEntries(line) == [entry]
  {
    assert Split(line, '\n') == [line];
    assert KeepNonBlank([line]) == [line];
    assert StripMarkers([line]) == [entry];
    assert KeepNonEmpty([entry]) == [entry];
  }

  /** A run of bullets yields its entries back. */
  lemma {:induction false} ListEntriesOfBullets(items: seq<string>)
    requires forall i :: 0 <= i < |items| ==> CleanEntry(items[i])
    ensures ListEntries(Bullets(items)) == items
  {
    var dashed := DashLines(items);
    SplitBullets(items);
    forall i | 0 <= i < |dashed| ensures Trim(dashed[i]) != [] {
      assert !IsSpace(dashed[i][0]);
    }
    KeepNonBlankDropLast(dashed);
    StripDashes(items);
    KeepNonEmptyAll(items);
  }

  /** What a text assembled from a list heading and bullets holds, in the
      terms the scanner lemmas take. */
  lemma {:induction false} ListPieces(pre: string, tag: string, items: seq<string>, rest: string)
    requires |items| > 0
    requires rest == [] || !IsMarker(rest[0])
    ensures var s := pre + tag + "s:\n" + Bullets(items) + rest;
            var t := |pre| + |tag|;
            var e := t + 3 + |Bullets(items)|;
            LabelAt(s, |pre|, tag) && e <= |s| &&
            s[t] == 's' && s[t + 1] == ':' && s[t + 2] == '\n' && s[t + 3] == '-' &&
            s[t + 3..e] == Bullets(items) && (e == |s| || !IsMarker(s[e]))
  {
    var s := pre + tag + "s:\n" + Bullets(items) + rest;
    var p := |pre|;
    var t := p + |tag|;
    var body := Bullets(items);
    var e := t + 3 + |body|;
    assert s[p..t] == tag;
    LabelSlice(s, p, tag, tag) by {
      forall i | 0 <= i < |tag| ensures LowerAscii(tag[i]) == LowerAscii(tag[i]) {}
    }
    assert s[t..t + 3] == "s:\n";
    assert s[t + 3..e] == body;
    assert body[0] == '-';
    assert s[t + 3] == s[t + 3..e][0];
    assert s[e..] == rest;
    assert e < |s| ==> s[e] == s[e..][0];
  }

  /** How the list matcher at `p` proceeds once the pieces are known: the
      plural `s`, the separator run up to `b`, the first item up to `y` and
      the repetition up to `e`. */
  lemma {:induction false} ListAtSection(s: string, p: nat, tag: string, b: nat, y: nat, e: nat)
    requires LabelAt(s, p, tag) && p + |tag| < |s| && s[p + |tag|] == 's'
    requires p + |tag| + 1 < b && RunEnd(s, p + |tag| + 1, SepClass) == b
    requires ItemEnd(s, b) == Some(y) && y <= |s| && ItemsEnd(s, y) == e && b <= e
    ensures ListAt(s, p, tag) == Some(s[b..e])
  {
  }

  /** A run of bullets at `b`: its first item ends at `y`, and the item
      repetition from there ends with the run. */
  lemma {:induction false} BulletsSpan(s: string, b: nat, items: seq<string>, body: string, y: nat, e: nat)
    requires |items| > 0 && forall i :: 0 <= i < |items| ==> CleanEntry(items[i])
    requires body == Bullets(items) && y == b + |Bullet(items[0])| && e == b + |body|
    requires e <= |s| && s[b..e] == body
    requires e == |s| || !IsMarker(s[e])
    ensures ItemEnd(s, b) == Some(y) && y <= |s| && ItemsEnd(s, y) == e
  {
    FirstBullet(s, b, items, y);
    ItemsEndBullets(s, b, items);
    ItemsEndStep(s, b, y);
  }

  /** The first `<tag>s:` heading followed by a run of bullets is read back
      as those bullets, capped, whatever comes after the run (so long as it
      does not start with a marker). */
  lemma {:induction false} ListReadBack(pre: string, tag: string, items: seq<string>, rest: string, cap: nat)
    requires |items| > 0 && forall i :: 0 <= i < |items| ==> CleanEntry(items[i])
    requires rest == [] || !IsMarker(rest[0])
    requires forall q :: 0 <= q < |pre| ==> !LabelAt(pre + tag + "s:\n" + Bullets(items) + rest, q, tag)
    ensures ParseList(pre + tag + "s:\n" + Bullets(items) + rest, tag, cap) == Capped(items, cap)
  {
    ListPieces(pre, tag, items, rest);
    ListReadBackAt(pre + tag + "s:\n" + Bullets(items) + rest, |pre|, tag, items, cap);
  }

  /** The same, in terms of positions: a heading at `p`, the first one, and
      the bullets right after its `s:` and newline. */
  lemma {:induction false} ListReadBackAt(s: string, p: nat, tag: string, items: seq<string>, cap: nat)
    requires |items| > 0 && forall i :: 0 <= i < |items| ==> CleanEntry(items[i])
    requires LabelAt(s, p, tag) && forall q :: 0 <= q < p ==> !LabelAt(s, q, tag)
    requires p + |tag| + 3 + |Bullets(items)| <= |s|
    requires s[p + |tag|] == 's' && s[p + |tag| + 1] == ':' && s[p + |tag| + 2] == '\n' && s[p + |tag| + 3] == '-'
    requires s[p + |tag| + 3..p + |tag| + 3 + |Bullets(items)|] == Bullets(items)
    requires p + |tag| + 3 + |Bullets(items)| == |s| || !IsMarker(s[p + |tag| + 3 + |Bullets(items)|])
    ensures ParseList(s, tag, cap) == Capped(items, cap)
  {
    var b := p + |tag| + 3;
    var body := Bullets(items);
    var y := b + |Bullet(items[0])|;
    var e := b + |body|;
    RunEndOver(s, p + |tag| + 1, SepClass, 2);
    BulletsSpan(s, b, items, body, y, e);
    ListAtSection(s, p, tag, b, y, e);
    NoEarlierList(s, p, tag);
    ParseListLeftmost(s, tag, cap, p);
    ListEntriesOfBullets(items);
    ListEntriesOfEqual(s[b..e], body);
  }

  lemma {:induction false} ListEntriesOfEqual(x: string, y: string)
    requires x == y
    ensures ListEntries(x) == ListEntries(y)
  {
  }

  /** What a text assembled from an assessment label, a separator, a line and
      what follows holds, in the terms the scanner lemmas take. */
  /** The first assessment label, followed by a separator run and one line,
      is read back as that line when the block cannot go on after it: the
      text ends, or a blank line or a stop label comes next. */
  lemma {:induction false} AssessmentReadBack(pre: string, tag: string, sep: string, a: string, tail: string)
    requires |tag| == 10 && LabelAt(tag, 0, "Assessment")
    requires |sep| > 0 && forall k :: 0 <= k < |sep| ==> InClass(SepClass, sep[k])
    requires CleanEntry(a) && a[0] != ':'
    requires tail == [] ||
             (tail[0] == '\n' && (|tail| == 1 || tail[1] == '\n' || AnyLabelAt(tail, 1, AssessmentStops)))
    requires forall q :: 0 <= q < |pre| ==> !LabelAt(pre + tag + sep + a + tail, q, "Assessment")
    ensures ReadAssessment(pre + tag + sep + a + tail) == a
  {
    var s := pre + tag + sep + a + tail;
    assert !InClass(SepClass, a[0]);
    LabelledLinePieces(pre, tag, "Assessment", sep, a, tail);
    if tail != [] { BlockStopsAt(pre + tag + sep + a, tail, AssessmentStops); }
    AssessmentAtLine(s, |pre|, |sep|, a);
  }

  /** The same, in terms of positions: the first label at `p`, a separator
      run of length `n`, and the line `a` that the block cannot extend. */
  lemma {:induction false} AssessmentAtLine(s: string, p: nat, n: nat, a: string)
    requires LabelAt(s, p, "Assessment") && forall q :: 0 <= q < p ==> !LabelAt(s, q, "Assessment")
    requires CleanEntry(a) && n > 0 && p + 10 + n + |a| <= |s|
    requires forall q :: p + 10 <= q < p + 10 + n ==> InClass(SepClass, s[q])
    requires !InClass(SepClass, s[p + 10 + n])
    requires forall q :: p + 10 + n <= q < p + 10 + n + |a| ==> s[q] != '\n'
    requires s[p + 10 + n..p + 10 + n + |a|] == a
    requires p + 10 + n + |a| == |s| || s[p + 10 + n + |a|] == '\n'
    requires !Continues(s, p + 10 + n + |a|, AssessmentStops)
    ensures ReadAssessment(s) == a
  {
    var c := p + 10 + n;
    LabelledBlockAtLine(s, p, "Assessment", n, |a|, AssessmentStops);
    assert AssessmentAt(s, p) == Some(a);
    FirstAssessment(s, p, a);
  }

  /** A trimmed capture at the first label is the assessment. */
  lemma {:induction false} FirstAssessment(s: string, p: nat, a: string)
    requires p < |s| && AssessmentAt(s, p) == Some(a) && IsTrimmed(a)
    requires forall q :: 0 <= q < p ==> !LabelAt(s, q, "Assessment")
    ensures ReadAssessment(s) == a
  {
    NoEarlierAssessment(s, p);
  }

  lemma {:induction false} TrimOfEqual(x: string, y: string)
    requires x == y && IsTrimmed(y)
    ensures Trim(x) == y
  {
  }
}
