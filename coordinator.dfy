/** The parsing step of `coordinateConsensus`: the coordinator's free text
    turned into a consensus diagnosis, a confidence, a summary and an urgency
    level. Every field falls back to a fixed value when its pattern matches
    nowhere. Unlike the specialist parser, the confidence here is not
    clamped. */
module CoordinatorParser {
  import opened Wrappers
  import opened Text
  import opened Scan
  import opened Types
  import ResponseParser

  const SummaryStops: seq<string> := ["Urgency"]

  /* ------------------------------------------------------------ matchers */

  /** `Diagnosis[:\s]+([^\n]+)` tried at position `q`. */
  function DiagnosisTail(s: string, q: nat): Option<string> {
    LabelledLineAt(s, q, "Diagnosis")
  }

  /** `/(?:Consensus )?Diagnosis[:\s]+([^\n]+)/i` tried at position `p`: the
      optional group is tried first, and only when the rest fails after it is
      the pattern tried without it. */
  function DiagnosisAt(s: string, p: nat): Option<string> {
    if LabelAt(s, p, "Consensus ") && DiagnosisTail(s, p + 10).Some? then DiagnosisTail(s, p + 10)
    else DiagnosisTail(s, p)
  }

  /** `/Summary[:\s]+([^\n]+(?:\n(?!Urgency)[^\n]+)*)/i` tried at `p`. */
  function SummaryAt(s: string, p: nat): Option<string> {
    LabelledBlockAt(s, p, "Summary", SummaryStops)
  }

  /** `/Urgency[:\s]+(low|medium|high|immediate)/i` tried at `p`. The words
      start with letters, which the separator run cannot hold, so only the
      whole run can be followed by one; the alternatives are tried in their
      order, and the lowered match is the level. */
  function UrgencyAt(s: string, p: nat): Option<Urgency> {
    if LabelAt(s, p, "Urgency") then
      var b := RunEnd(s, p + 7, SepClass);
      if b == p + 7 then None
      else if LabelAt(s, b, UrgencyName(Low)) then Some(Low)
      else if LabelAt(s, b, UrgencyName(Medium)) then Some(Medium)
      else if LabelAt(s, b, UrgencyName(High)) then Some(High)
      else if LabelAt(s, b, UrgencyName(Immediate)) then Some(Immediate)
      else None
    else None
  }

  /* -------------------------------------------------------------- fields */

  /** The diagnosis: the trimmed capture of the leftmost match, or the
      upstream diagnosis when the pattern matches nowhere. */
  function ReadDiagnosis(content: string, fallback: string): (r: string)
    ensures (forall p: nat :: p < |content| ==> DiagnosisAt(content, p).None?) ==> r == fallback
    ensures forall p: nat ::
              (p < |content| && DiagnosisAt(content, p).Some? &&
               forall q: nat :: q < p ==> DiagnosisAt(content, q).None?) ==>
              r == Trim(DiagnosisAt(content, p).value)
  {
    var m := (p: nat) => DiagnosisAt(content, p);
    assert forall p: nat :: m(p) == DiagnosisAt(content, p);
    match FirstCapture(m, |content|)
    case Some(d) => Trim(d)
    case None => fallback
  }

  /** The confidence: the digits of the leftmost `Confidence` match, as they
      are, or the upstream confidence. */
  function ReadConfidence(content: string, fallback: int): (r: int)
    ensures (forall p: nat :: p < |content| ==> ResponseParser.ConfidenceAt(content, p).None?) ==>
              r == fallback
    ensures forall p: nat ::
              (p < |content| && ResponseParser.ConfidenceAt(content, p).Some? &&
               forall q: nat :: q < p ==> ResponseParser.ConfidenceAt(content, q).None?) ==>
              r == ResponseParser.ConfidenceAt(content, p).value
  {
    match ResponseParser.FirstConfidence(content)
    case Some(v) => v
    case None => fallback
  }

  /** The sentence used when the coordinator gives no summary. */
  function DefaultSummary(diagnosis: string): (r: string)
    ensures Contains(r, diagnosis)
  {
    var lead := "Multiple specialists have reviewed the case and reached consensus on ";
    OccursInMiddle(lead, diagnosis, ".");
    lead + diagnosis + "."
  }

  /** The capture of the leftmost summary match, if there is one. */
  function FirstSummary(content: string): (r: Option<string>)
    ensures r.None? <==> forall p: nat :: p < |content| ==> SummaryAt(content, p).None?
    ensures forall p: nat ::
              (p < |content| && SummaryAt(content, p).Some? &&
               forall q: nat :: q < p ==> SummaryAt(content, q).None?) ==>
              r == SummaryAt(content, p)
  {
    var m := (p: nat) => SummaryAt(content, p);
    assert forall p: nat :: m(p) == SummaryAt(content, p);
    FirstCapture(m, |content|)
  }

  /** The summary: the trimmed capture of the leftmost match, or the default
      sentence naming the chosen diagnosis. */
  function ReadSummary(content: string, diagnosis: string): (r: string)
    ensures (forall p: nat :: p < |content| ==> SummaryAt(content, p).None?) ==>
              r == DefaultSummary(diagnosis)
    ensures forall p: nat ::
              (p < |content| && SummaryAt(content, p).Some? &&
               forall q: nat :: q < p ==> SummaryAt(content, q).None?) ==>
              r == Trim(SummaryAt(content, p).value)
  {
    match FirstSummary(content)
    case Some(t) => Trim(t)
    case None => DefaultSummary(diagnosis)
  }

  /** The urgency: the level named by the leftmost match, or medium. */
  function ReadUrgency(content: string): (r: Urgency)
    ensures (forall p: nat :: p < |content| ==> UrgencyAt(content, p).None?) ==> r == Medium
    ensures forall p: nat ::
              (p < |content| && UrgencyAt(content, p).Some? &&
               forall q: nat :: q < p ==> UrgencyAt(content, q).None?) ==>
              r == UrgencyAt(content, p).value
  {
    var m := (p: nat) => UrgencyAt(content, p);
    assert forall p: nat :: m(p) == UrgencyAt(content, p);
    match FirstCapture(m, |content|)
    case Some(u) => u
    case None => Medium
  }

  /** The consensus record. Its urgency is one of the four levels by
      construction, and when the coordinator gives no summary the default
      summary names the diagnosis that was chosen. */
  function ParseConsensus(content: string, dr: DiagnosisResult): (r: Consensus)
    ensures r.summary == ReadSummary(content, r.diagnosis)
    ensures (forall p: nat :: p < |content| ==> SummaryAt(content, p).None?) ==>
              Contains(r.summary, r.diagnosis)
    ensures (forall p: nat :: p < |content| ==> DiagnosisAt(content, p).None?) ==>
              r.diagnosis == dr.diagnosis
    ensures (forall p: nat :: p < |content| ==> ResponseParser.ConfidenceAt(content, p).None?) ==>
              r.confidence == dr.confidence
    ensures (forall p: nat :: p < |content| ==> UrgencyAt(content, p).None?) ==> r.urgency == Medium
  {
    var diagnosis := ReadDiagnosis(content, dr.diagnosis);
    Consensus(
      diagnosis,
      ReadConfidence(content, dr.confidence),
      ReadSummary(content, diagnosis),
      ReadUrgency(content))
  }

  /* ------------------------------------------------------ properties */

  /** The optional `Consensus ` group changes where a match starts but not
      what it captures: after it, the match is the plain `Diagnosis` one. */
  lemma ConsensusPrefixTransparent(s: string, p: nat)
    requires LabelAt(s, p, "Consensus ")
    ensures DiagnosisAt(s, p) == DiagnosisTail(s, p + 10)
  {
    assert LowerAscii(s[p + 0]) == LowerAscii("Consensus "[0]) == 'c';
    assert LowerAscii("Diagnosis"[0]) == 'd';
  }

  /** What a text assembled from an urgency label, a separator and a level
      word (in any ASCII case) holds, in the terms the scanner lemmas take. */
  lemma {:induction false} UrgencyPieces(pre: string, tag: string, sep: string, w: string, rest: string, u: Urgency)
    requires |tag| == 7 && LabelAt(tag, 0, "Urgency")
    requires |sep| > 0 && forall k :: 0 <= k < |sep| ==> InClass(SepClass, sep[k])
    requires |w| == |UrgencyName(u)| && LabelAt(w, 0, UrgencyName(u))
    ensures var s := pre + tag + sep + w + rest;
            var b := |pre| + 7 + |sep|;
            LabelAt(s, |pre|, "Urgency") && b + |w| <= |s| &&
            (forall q :: |pre| + 7 <= q < b ==> InClass(SepClass, s[q])) &&
            LabelAt(s, b, UrgencyName(u))
  {
    var s := pre + tag + sep + w + rest;
    var p := |pre|;
    var b := p + 7 + |sep|;
    forall i | 0 <= i < 7 ensures LowerAscii(s[p + i]) == LowerAscii("Urgency"[i]) {
      assert s[p + i] == tag[i];
    }
    forall q | p + 7 <= q < b ensures InClass(SepClass, s[q]) {
      assert s[q] == sep[q - p - 7];
    }
    forall i | 0 <= i < |w| ensures LowerAscii(s[b + i]) == LowerAscii(UrgencyName(u)[i]) {
      assert s[b + i] == w[i];
    }
  }

  /** A level word right after the separator run names that level: the
      four words start with different letters, so no earlier alternative
      can match instead. */
  lemma {:induction false} UrgencyAtWord(s: string, p: nat, n: nat, u: Urgency)
    requires LabelAt(s, p, "Urgency") && n > 0 && p + 7 + n <= |s|
    requires forall q :: p + 7 <= q < p + 7 + n ==> InClass(SepClass, s[q])
    requires LabelAt(s, p + 7 + n, UrgencyName(u))
    ensures UrgencyAt(s, p) == Some(u)
  {
    var b := p + 7 + n;
    assert LowerAscii(s[b + 0]) == LowerAscii(UrgencyName(u)[0]);
    assert "low"[0] == 'l' && "medium"[0] == 'm' && "high"[0] == 'h' && "immediate"[0] == 'i';
    assert LowerAscii(s[b]) in {'l', 'm', 'h', 'i'};
    assert !InClass(SepClass, s[b]);
    RunEndOver(s, p + 7, SepClass, n);
  }

  /** The first urgency label, followed by a separator run and a level word
      in any ASCII case, is read back as that level. */
  lemma {:induction false} UrgencyReadBack(pre: string, tag: string, sep: string, w: string, rest: string, u: Urgency)
    requires |tag| == 7 && LabelAt(tag, 0, "Urgency")
    requires |sep| > 0 && forall k :: 0 <= k < |sep| ==> InClass(SepClass, sep[k])
    requires |w| == |UrgencyName(u)| && LabelAt(w, 0, UrgencyName(u))
    requires forall q :: 0 <= q < |pre| ==> !LabelAt(pre + tag + sep + w + rest, q, "Urgency")
    ensures ReadUrgency(pre + tag + sep + w + rest) == u
  {
    var s := pre + tag + sep + w + rest;
    UrgencyPieces(pre, tag, sep, w, rest, u);
    UrgencyAtWord(s, |pre|, |sep|, u);
    NoEarlierUrgency(s, |pre|);
  }

  lemma {:induction false} NoEarlierUrgency(s: string, p: nat)
    requires forall q :: 0 <= q < p ==> !LabelAt(s, q, "Urgency")
    ensures forall q: nat :: q < p ==> UrgencyAt(s, q).None?
  {
  }

  /** The first confidence label, followed by a separator run and digits, is
      read as those digits whatever their value: nothing clamps them. */
  lemma {:induction false} ConfidenceReadBack(pre: string, tag: string, sep: string, ds: string, rest: string, fallback: int)
    requires |tag| == 10 && LabelAt(tag, 0, "Confidence")
    requires |sep| > 0 && forall k :: 0 <= k < |sep| ==> InClass(SepClass, sep[k])
    requires |ds| > 0 && AllDigits(ds)
    requires rest == [] || !IsDigit(rest[0])
    requires forall q :: 0 <= q < |pre| ==> !LabelAt(pre + tag + sep + ds + rest, q, "Confidence")
    ensures ReadConfidence(pre + tag + sep + ds + rest, fallback) == DigitsValue(ds)
  {
    var s := pre + tag + sep + ds + rest;
    ResponseParser.ConfidencePieces(pre, tag, sep, ds, rest);
    ResponseParser.ConfidenceAtRun(s, |pre|, |sep|, ds);
    ResponseParser.NoEarlierConfidence(s, |pre|);
  }

  /** So a coordinator that answers "Confidence: 150" yields a consensus
      confidence of 150, outside [0, 100], where a specialist's would be
      clamped to 100. */
  lemma UnclampedConfidence(fallback: int)
    ensures ReadConfidence("Confidence: 150", fallback) == 150
    ensures ResponseParser.ReadConfidence("Confidence: 150") == 100
  {
    assert "Confidence: 150" == [] + "Confidence" + ": " + "150" + [];
    assert LabelAt("Confidence", 0, "Confidence");
    assert DigitsValue("150") == 150 by {
      assert "150"[..2] == "15" && "15"[..1] == "1" && "1"[..0] == [];
    }
    ConfidenceReadBack([], "Confidence", ": ", "150", [], fallback);
    ResponseParser.ConfidenceReadBack([], "Confidence", ": ", "150", []);
  }

  /** The first diagnosis label, optionally preceded by `Consensus `,
      followed by a separator run and one line, is read back as that line. */
  lemma {:induction false} DiagnosisReadBack(pre: string, prefix: string, tag: string, sep: string, d: string, tail: string, fallback: string)
    requires prefix == [] || (|prefix| == 10 && LabelAt(prefix, 0, "Consensus "))
    requires |tag| == 9 && LabelAt(tag, 0, "Diagnosis")
    requires |sep| > 0 && forall k :: 0 <= k < |sep| ==> InClass(SepClass, sep[k])
    requires |d| > 0 && IsTrimmed(d) && d[0] != ':' && '\n' !in d
    requires tail == [] || tail[0] == '\n'
    requires forall q :: 0 <= q < |pre| ==>
               !LabelAt(pre + prefix + tag + sep + d + tail, q, "Diagnosis") &&
               !LabelAt(pre + prefix + tag + sep + d + tail, q, "Consensus ")
    ensures ReadDiagnosis(pre + prefix + tag + sep + d + tail, fallback) == d
  {
    var s := pre + prefix + tag + sep + d + tail;
    DiagnosisPieces(pre, prefix, tag, sep, d, tail);
    DiagnosisTaggedReadBack(s, |pre|, |prefix|, d, fallback);
  }

  /** The pieces put the optional prefix at `|pre|` and the captured line
      right after it. */
  lemma {:induction false} DiagnosisPieces(pre: string, prefix: string, tag: string, sep: string, d: string, tail: string)
    requires prefix == [] || (|prefix| == 10 && LabelAt(prefix, 0, "Consensus "))
    requires |tag| == 9 && LabelAt(tag, 0, "Diagnosis")
    requires |sep| > 0 && forall k :: 0 <= k < |sep| ==> InClass(SepClass, sep[k])
    requires |d| > 0 && IsTrimmed(d) && d[0] != ':' && '\n' !in d
    requires tail == [] || tail[0] == '\n'
    ensures var s := pre + prefix + tag + sep + d + tail;
            var n := |prefix|;
            (n == 0 || n == 10) &&
            DiagnosisTail(s, |pre| + n) == Some(d) &&
            (n == 10 ==> LabelAt(s, |pre|, "Consensus ")) &&
            (n == 0 ==> |pre| < |s| && LowerAscii(s[|pre|]) == 'd')
  {
    DiagnosisLine(pre, prefix, tag, sep, d, tail);
    PrefixAt(pre, prefix, tag, sep, d, tail);
  }

  /** The line captured after the label at `p`, that label being the first,
      is the diagnosis. */
  lemma {:induction false} DiagnosisTaggedReadBack(s: string, p: nat, n: nat, d: string, fallback: string)
    requires n == 0 || n == 10
    requires DiagnosisTail(s, p + n) == Some(d) && IsTrimmed(d)
    requires n == 10 ==> LabelAt(s, p, "Consensus ")
    requires n == 0 ==> p < |s| && LowerAscii(s[p]) == 'd'
    requires forall q :: 0 <= q < p ==> !LabelAt(s, q, "Diagnosis") && !LabelAt(s, q, "Consensus ")
    ensures ReadDiagnosis(s, fallback) == d
  {
    DiagnosisAtTagged(s, p, n, d);
    FirstDiagnosis(s, p, d, fallback);
  }

  /** A trimmed capture at the first label is the diagnosis. */
  lemma {:induction false} FirstDiagnosis(s: string, p: nat, d: string, fallback: string)
    requires p < |s| && DiagnosisAt(s, p) == Some(d) && IsTrimmed(d)
    requires forall q :: 0 <= q < p ==> !LabelAt(s, q, "Diagnosis") && !LabelAt(s, q, "Consensus ")
    ensures ReadDiagnosis(s, fallback) == d
  {
    NoEarlierDiagnosis(s, p);
  }

  /** The plain `Diagnosis` match right after the optional prefix captures
      the line. */
  lemma {:induction false} DiagnosisLine(pre: string, prefix: string, tag: string, sep: string, d: string, tail: string)
    requires |tag| == 9 && LabelAt(tag, 0, "Diagnosis")
    requires |sep| > 0 && forall k :: 0 <= k < |sep| ==> InClass(SepClass, sep[k])
    requires |d| > 0 && IsTrimmed(d) && d[0] != ':' && '\n' !in d
    requires tail == [] || tail[0] == '\n'
    ensures DiagnosisTail(pre + prefix + tag + sep + d + tail, |pre| + |prefix|) == Some(d)
  {
    var x := pre + prefix;
    var s := x + tag + sep + d + tail;
    var p := |x|;
    assert !InClass(SepClass, d[0]);
    LabelledLinePieces(x, tag, "Diagnosis", sep, d, tail);
    LabelledLineAtLine(s, p, "Diagnosis", |sep|, |d|);
    var c := p + 9 + |sep|;
    assert DiagnosisTail(s, p) == Some(s[c..c + |d|]);
  }

  /** What the optional prefix contributes: a `Consensus ` label, or when it
      is empty, the diagnosis label's own first letter. */
  lemma PrefixAt(pre: string, prefix: string, tag: string, sep: string, d: string, tail: string)
    requires prefix == [] || (|prefix| == 10 && LabelAt(prefix, 0, "Consensus "))
    requires |tag| == 9 && LabelAt(tag, 0, "Diagnosis")
    ensures prefix != [] ==> LabelAt(pre + prefix + tag + sep + d + tail, |pre|, "Consensus ")
    ensures prefix == [] ==> LowerAscii((pre + prefix + tag + sep + d + tail)[|pre|]) == 'd'
  {
    var s := pre + prefix + tag + sep + d + tail;
    if prefix != [] {
      forall i | 0 <= i < 10 ensures LowerAscii(s[|pre| + i]) == LowerAscii("Consensus "[i]) {
        assert s[|pre| + i] == prefix[i];
      }
    } else {
      assert s[|pre|] == tag[0];
      assert LowerAscii(tag[0 + 0]) == LowerAscii("Diagnosis"[0]);
    }
  }

  lemma DiagnosisAtTagged(s: string, p: nat, n: nat, d: string)
    requires n == 0 || n == 10
    requires DiagnosisTail(s, p + n) == Some(d)
    requires n == 10 ==> LabelAt(s, p, "Consensus ")
    requires n == 0 ==> p < |s| && LowerAscii(s[p]) == 'd'
    ensures DiagnosisAt(s, p) == Some(d)
  {
    if n == 0 {
      assert LowerAscii(s[p + 0]) == 'd';
      assert LowerAscii("Consensus "[0]) == 'c';
    }
  }

  lemma {:induction false} NoEarlierDiagnosis(s: string, p: nat)
    requires forall q :: 0 <= q < p ==> !LabelAt(s, q, "Diagnosis") && !LabelAt(s, q, "Consensus ")
    ensures forall q: nat :: q < p ==> DiagnosisAt(s, q).None?
  {
  }

  /** The first summary label, followed by a separator run and one line, is
      read back as that line when the block cannot go on after it: the text
      ends, or a blank line or an urgency label comes next. */
  lemma {:induction false} SummaryReadBack(pre: string, tag: string, sep: string, a: string, tail: string, diagnosis: string)
    requires |tag| == 7 && LabelAt(tag, 0, "Summary")
    requires |sep| > 0 && forall k :: 0 <= k < |sep| ==> InClass(SepClass, sep[k])
    requires |a| > 0 && IsTrimmed(a) && a[0] != ':' && '\n' !in a
    requires tail == [] ||
             (tail[0] == '\n' && (|tail| == 1 || tail[1] == '\n' || AnyLabelAt(tail, 1, SummaryStops)))
    requires forall q :: 0 <= q < |pre| ==> !LabelAt(pre + tag + sep + a + tail, q, "Summary")
    ensures ReadSummary(pre + tag + sep + a + tail, diagnosis) == a
  {
    var s := pre + tag + sep + a + tail;
    var c := |pre| + 7 + |sep|;
    assert !InClass(SepClass, a[0]);
    LabelledLinePieces(pre, tag, "Summary", sep, a, tail);
    if tail != [] { BlockStopsAt(pre + tag + sep + a, tail, SummaryStops); }
    LabelledBlockAtLine(s, |pre|, "Summary", |sep|, |a|, SummaryStops);
    assert SummaryAt(s, |pre|) == Some(s[c..c + |a|]);
    NoEarlierSummary(s, |pre|);
    ResponseParser.TrimOfEqual(s[c..c + |a|], a);
  }

  lemma {:induction false} NoEarlierSummary(s: string, p: nat)
    requires forall q :: 0 <= q < p ==> !LabelAt(s, q, "Summary")
    ensures forall q: nat :: q < p ==> SummaryAt(s, q).None?
  {
  }
}
