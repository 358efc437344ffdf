/** Hand-written scanners for the building blocks of the regular expressions
    the response parsers use. Each function computes what the backtracking
    matcher of ECMAScript settles on for its piece of a pattern, and its
    contract says why: greedy runs are maximal, and a run only gives back
    characters when what follows could not match otherwise. */
module Scan {
  import opened Wrappers
  import opened Text

  /** The leftmost position in `[from, to)` at which matcher `m` succeeds,
      with its capture: how `String.prototype.match` without the `g` flag
      chooses among the places a pattern could match. */
  function FirstMatch<T>(m: nat -> Option<T>, from: nat, to: nat): (r: Option<(nat, T)>)
    ensures r.Some? ==> from <= r.value.0 < to && m(r.value.0) == Some(r.value.1)
    ensures r.Some? ==> forall q: nat :: from <= q < r.value.0 ==> m(q).None?
    ensures r.None? ==> forall q: nat :: from <= q < to ==> m(q).None?
    decreases if from <= to then to - from else 0
  {
    if from >= to then None
    else
      match m(from)
      case Some(v) => Some((from, v))
      case None => FirstMatch(m, from + 1, to)
  }

  /** The capture of the leftmost match of `m` in a string of length `n`:
      absent exactly when nothing matches, and otherwise the capture at the
      first position that matches. */
  function FirstCapture<T>(m: nat -> Option<T>, n: nat): (r: Option<T>)
    ensures r.None? <==> forall q: nat :: q < n ==> m(q).None?
    ensures forall p: nat :: p < n && m(p).Some? && (forall q: nat :: q < p ==> m(q).None?) ==> r == m(p)
  {
    match FirstMatch(m, 0, n)
    case Some((_, v)) => Some(v)
    case None => None
  }

  /** `[:\s]` and `\s` */
  datatype CharClass = SepClass | SpaceClass

  predicate InClass(k: CharClass, c: char) {
    match k
    case SepClass => c == ':' || IsSpace(c)
    case SpaceClass => IsSpace(c)
  }

  /** End of the maximal run of class-`k` characters starting at `a`. */
  function RunEnd(s: string, a: nat, k: CharClass): (b: nat)
    requires a <= |s|
    ensures a <= b <= |s|
    ensures forall q :: a <= q < b ==> InClass(k, s[q])
    ensures b < |s| ==> !InClass(k, s[b])
    decreases |s| - a
  {
    if a < |s| && InClass(k, s[a]) then RunEnd(s, a + 1, k) else a
  }

  /** The last position in `[lo, hi)` that does not hold a line feed. */
  function LastNonNewline(s: string, lo: nat, hi: nat): (r: Option<nat>)
    requires lo <= hi <= |s|
    ensures r.Some? ==> lo <= r.value < hi && s[r.value] != '\n'
    ensures r.Some? ==> forall q :: r.value < q < hi ==> s[q] == '\n'
    ensures r.None? ==> forall q :: lo <= q < hi ==> s[q] == '\n'
    decreases hi - lo
  {
    if lo == hi then None
    else if s[hi - 1] != '\n' then Some(hi - 1)
    else LastNonNewline(s, lo, hi - 1)
  }

  /** Where `[^\n]` starts after the greedy run `[k]{min,}` that begins at
      `a`. The run gives characters back, one at a time from its end, until a
      character other than a line feed follows it: so the result is the
      largest position that is at least `min` past `a`, still inside the
      run (or just after it) and does not hold a line feed. */
  function LineStartAfterRun(s: string, a: nat, k: CharClass, min: nat): (r: Option<nat>)
    requires a <= |s|
    ensures r.Some? ==> a + min <= r.value <= RunEnd(s, a, k) && r.value < |s| && s[r.value] != '\n'
    ensures r.Some? ==> forall q :: r.value < q <= RunEnd(s, a, k) && q < |s| ==> s[q] == '\n'
    ensures r.None? ==> forall q :: a + min <= q <= RunEnd(s, a, k) && q < |s| ==> s[q] == '\n'
  {
    var b := RunEnd(s, a, k);
    if b < a + min then None
    else if b < |s| then Some(b)
    else LastNonNewline(s, a + min, |s|)
  }

  /** End of the greedy `[^\n]*` that starts at `c`: the next line feed. */
  function LineEnd(s: string, c: nat): (e: nat)
    requires c <= |s|
    ensures c <= e <= |s|
    ensures forall q :: c <= q < e ==> s[q] != '\n'
    ensures e < |s| ==> s[e] == '\n'
    decreases |s| - c
  {
    if c < |s| && s[c] != '\n' then LineEnd(s, c + 1) else c
  }

  /** One of the labels in `tags` starts at `p`, ignoring ASCII case. */
  predicate AnyLabelAt(s: string, p: nat, tags: seq<string>) {
    exists i :: 0 <= i < |tags| && LabelAt(s, p, tags[i])
  }

  /** A line that ends at `e` may be followed by one more line of a block
      `[^\n]+(?:\n(?!stop…)[^\n]+)*`: a line feed, then a non-empty line that
      does not start with a stop label. */
  predicate Continues(s: string, e: nat, stops: seq<string>) {
    e + 1 < |s| && s[e] == '\n' && s[e + 1] != '\n' && !AnyLabelAt(s, e + 1, stops)
  }

  /** End of `[^\n]+(?:\n(?!stop…)[^\n]+)*` from `c`: the block takes line
      after line, and every line feed inside it is one at which the block
      could continue, while at its end it cannot. */
  function BlockEnd(s: string, c: nat, stops: seq<string>): (e: nat)
    requires c <= |s|
    ensures LineEnd(s, c) <= e <= |s|
    ensures e < |s| ==> s[e] == '\n'
    ensures !Continues(s, e, stops)
    ensures forall q :: c <= q < e && s[q] == '\n' ==> Continues(s, q, stops) && q + 1 < e
    decreases |s| - c
  {
    var e := LineEnd(s, c);
    if Continues(s, e, stops) then BlockEnd(s, e + 1, stops) else e
  }

  /** `[-•\d.]`, the list-item markers. */
  predicate IsMarker(c: char) {
    c == '-' || c == '\U{2022}' || IsDigit(c) || c == '.'
  }

  /** One list item `[-•\d.]\s*[^\n]+\n?` at `x`, if there is one: where it
      ends. The item runs to the end of its line (the `\s*` may cross line
      feeds first) and takes the line feed after it. */
  function ItemEnd(s: string, x: nat): (r: Option<nat>)
    ensures r.Some? ==> x < |s| && IsMarker(s[x]) && x + 1 < r.value <= |s|
    ensures r.Some? ==> r.value == |s| || s[r.value - 1] == '\n'
  {
    if x < |s| && IsMarker(s[x]) then
      match LineStartAfterRun(s, x + 1, SpaceClass, 0)
      case None => None
      case Some(c) =>
        var e := LineEnd(s, c);
        Some(if e < |s| then e + 1 else e)
    else None
  }

  /** The greedy repetition `(?:item)+` after its items so far ended at `y`:
      it stops exactly where no further item starts. */
  function ItemsEnd(s: string, y: nat): (e: nat)
    requires y <= |s|
    ensures y <= e <= |s|
    decreases |s| - y
  {
    match ItemEnd(s, y)
    case Some(z) => ItemsEnd(s, z)
    case None => y
  }

  /** The repetition is greedy: no further item starts where it stops. */
  lemma {:induction false} ItemsEndMaximal(s: string, y: nat)
    requires y <= |s|
    ensures ItemEnd(s, ItemsEnd(s, y)).None?
    decreases |s| - y
  {
    match ItemEnd(s, y)
    case Some(z) => ItemsEndMaximal(s, z);
    case None =>
  }

  lemma ItemsEndStep(s: string, x: nat, z: nat)
    requires x <= |s| && ItemEnd(s, x) == Some(z)
    ensures ItemsEnd(s, x) == ItemsEnd(s, z)
  {
  }

  lemma ItemsEndStop(s: string, x: nat)
    requires x <= |s| && (x == |s| || !IsMarker(s[x]))
    ensures ItemsEnd(s, x) == x
  {
  }

  /* ------------------------------------------- runs over known contents */

  lemma {:induction false} RunEndOver(s: string, a: nat, k: CharClass, len: nat)
    requires a + len <= |s|
    requires forall q :: a <= q < a + len ==> InClass(k, s[q])
    requires a + len == |s| || !InClass(k, s[a + len])
    ensures RunEnd(s, a, k) == a + len
    decreases len
  {
    if len > 0 { RunEndOver(s, a + 1, k, len - 1); }
  }

  lemma {:induction false} LineEndOver(s: string, c: nat, len: nat)
    requires c + len <= |s|
    requires forall q :: c <= q < c + len ==> s[q] != '\n'
    requires c + len == |s| || s[c + len] == '\n'
    ensures LineEnd(s, c) == c + len
    decreases len
  {
    if len > 0 { LineEndOver(s, c + 1, len - 1); }
  }

  lemma LabelShift(t: string, x: string, p: nat, tag: string)
    requires LabelAt(t, p, tag)
    ensures LabelAt(x + t, |x| + p, tag)
  {
    forall i | 0 <= i < |tag| ensures LowerAscii((x + t)[|x| + p + i]) == LowerAscii(tag[i]) {
      assert (x + t)[|x| + p + i] == t[p + i];
    }
  }

  /** A slice made of class-`k` characters and not followed by one is the
      whole run. */
  lemma SliceInClass(s: string, a: nat, k: CharClass, t: string)
    requires a + |t| <= |s| && s[a..a + |t|] == t
    requires forall i :: 0 <= i < |t| ==> InClass(k, t[i])
    ensures forall q :: a <= q < a + |t| ==> InClass(k, s[q])
  {
    forall q | a <= q < a + |t| ensures InClass(k, s[q]) {
      assert s[q] == t[q - a];
    }
  }

  lemma RunOverSlice(s: string, a: nat, k: CharClass, t: string)
    requires a + |t| <= |s| && s[a..a + |t|] == t
    requires forall i :: 0 <= i < |t| ==> InClass(k, t[i])
    requires a + |t| == |s| || !InClass(k, s[a + |t|])
    ensures RunEnd(s, a, k) == a + |t|
  {
    forall q | a <= q < a + |t| ensures InClass(k, s[q]) {
      assert s[q] == t[q - a];
    }
    RunEndOver(s, a, k, |t|);
  }

  /* ------------------------------------------------ labelled fields */

  /** `key[:\s]+([^\n]+(?:\n(?!stop…)[^\n]+)*)` tried at `p`: a key, a
      separator run that gives line feeds back as needed, and a block. */
  function LabelledBlockAt(s: string, p: nat, key: string, stops: seq<string>): Option<string> {
    if LabelAt(s, p, key) then
      match LineStartAfterRun(s, p + |key|, SepClass, 1)
      case Some(c) => Some(s[c..BlockEnd(s, c, stops)])
      case None => None
    else None
  }

  /** `key[:\s]+([^\n]+)` tried at `p`: a label, a separator run that gives
      line feeds back as needed, and the rest of that line. */
  function LabelledLineAt(s: string, p: nat, key: string): (r: Option<string>)
    ensures r.Some? ==> |r.value| > 0 && '\n' !in r.value
  {
    if LabelAt(s, p, key) then
      match LineStartAfterRun(s, p + |key|, SepClass, 1)
      case Some(c) =>
        var e := LineEnd(s, c);
        assert forall k :: 0 <= k < e - c ==> s[c..e][k] == s[c + k];
        Some(s[c..e])
      case None => None
    else None
  }

  /** What a text assembled from a key, a separator, one line and a tail
      that starts a new line (or is empty) holds, in the terms the matchers
      take. */
  lemma {:induction false} LabelledLinePieces(pre: string, tag: string, key: string, sep: string, a: string, tail: string)
    requires |tag| == |key| && LabelAt(tag, 0, key)
    requires |sep| > 0 && forall k :: 0 <= k < |sep| ==> InClass(SepClass, sep[k])
    requires |a| > 0 && !InClass(SepClass, a[0]) && '\n' !in a
    requires tail == [] || tail[0] == '\n'
    ensures var s := pre + tag + sep + a + tail;
            var c := |pre| + |key| + |sep|;
            var e := c + |a|;
            LabelAt(s, |pre|, key) && e <= |s| &&
            (forall q :: |pre| + |key| <= q < c ==> InClass(SepClass, s[q])) &&
            !InClass(SepClass, s[c]) &&
            (forall q :: c <= q < e ==> s[q] != '\n') &&
            s[c..e] == a &&
            (e == |s| || s[e] == '\n')
  {
    var x := pre + tag + sep + a;
    var s := x + tail;
    var p := |pre|;
    var c := p + |key| + |sep|;
    var e := c + |a|;
    assert s[..|x|] == x;
    forall i | 0 <= i < |key| ensures LowerAscii(s[p + i]) == LowerAscii(key[i]) {
      assert s[p + i] == tag[i];
    }
    forall q | p + |key| <= q < c ensures InClass(SepClass, s[q]) {
      assert s[q] == sep[q - p - |key|];
    }
    assert s[c..e] == x[c..e] == a;
    assert s[c] == a[0];
    forall q | c <= q < e ensures s[q] != '\n' {
      assert s[q] == a[q - c];
    }
    assert e < |s| ==> s[e] == tail[0];
  }

  /** After a line that ends at `|x|`, a tail made of a line feed and then
      the end of the text, a blank line or a stop key ends the block. */
  lemma {:induction false} BlockStopsAt(x: string, tail: string, stops: seq<string>)
    requires |tail| > 0 && tail[0] == '\n' && (|tail| == 1 || tail[1] == '\n' || AnyLabelAt(tail, 1, stops))
    ensures !Continues(x + tail, |x|, stops)
  {
    var s := x + tail;
    assert |x| + 1 < |s| ==> s[|x| + 1] == tail[1];
    if |tail| > 1 && tail[1] != '\n' {
      var i :| 0 <= i < |stops| && LabelAt(tail, 1, stops[i]);
      LabelShift(tail, x, 1, stops[i]);
    }
  }

  /** A key, a separator run and a line that the block cannot extend: the
      match at `p` captures that line. */
  lemma {:induction false} LabelledBlockAtLine(s: string, p: nat, key: string, n: nat, len: nat, stops: seq<string>)
    requires LabelAt(s, p, key) && n > 0 && len > 0
    requires p + |key| + n + len <= |s|
    requires forall q :: p + |key| <= q < p + |key| + n ==> InClass(SepClass, s[q])
    requires !InClass(SepClass, s[p + |key| + n])
    requires forall q :: p + |key| + n <= q < p + |key| + n + len ==> s[q] != '\n'
    requires p + |key| + n + len == |s| || s[p + |key| + n + len] == '\n'
    requires !Continues(s, p + |key| + n + len, stops)
    ensures LabelledBlockAt(s, p, key, stops) == Some(s[p + |key| + n..p + |key| + n + len])
  {
    RunEndOver(s, p + |key|, SepClass, n);
    LineEndOver(s, p + |key| + n, len);
  }

  /** A label, a separator run and a line: the single-line match at `p`
      captures that line. */
  lemma {:induction false} LabelledLineAtLine(s: string, p: nat, key: string, n: nat, len: nat)
    requires LabelAt(s, p, key) && n > 0 && len > 0
    requires p + |key| + n + len <= |s|
    requires forall q :: p + |key| <= q < p + |key| + n ==> InClass(SepClass, s[q])
    requires !InClass(SepClass, s[p + |key| + n])
    requires forall q :: p + |key| + n <= q < p + |key| + n + len ==> s[q] != '\n'
    requires p + |key| + n + len == |s| || s[p + |key| + n + len] == '\n'
    ensures LabelledLineAt(s, p, key) == Some(s[p + |key| + n..p + |key| + n + len])
  {
    RunEndOver(s, p + |key|, SepClass, n);
    LineEndOver(s, p + |key| + n, len);
  }
}
