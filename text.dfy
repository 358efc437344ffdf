/** The JavaScript string primitives the server code relies on, over
    `seq<char>`: the regular-expression class `\s` (which is also the set
    `String.prototype.trim` removes), `\d`, `\w`, ASCII case folding as the
    `i` flag performs it for ASCII patterns, `trim`, `split`, `join`,
    `parseInt` of a digit run and the decimal rendering of an integer. */
module Text {

  /** `\s`: the WhiteSpace and LineTerminator code points of ECMAScript. */
  predicate IsSpace(c: char) {
    c == '\t' || c == '\n' || c == '\U{000B}' || c == '\U{000C}' || c == '\r' || c == ' '
    || c == '\U{00A0}' || c == '\U{1680}' || ('\U{2000}' <= c <= '\U{200A}')
    || c == '\U{2028}' || c == '\U{2029}' || c == '\U{202F}' || c == '\U{205F}'
    || c == '\U{3000}' || c == '\U{FEFF}'
  }

  /** `\d` */
  predicate IsDigit(c: char) { '0' <= c <= '9' }

  /** `\w` without the `u` flag */
  predicate IsWordChar(c: char) { 'a' <= c <= 'z' || 'A' <= c <= 'Z' || IsDigit(c) || c == '_' }

  predicate AllDigits(s: string) { forall k :: 0 <= k < |s| ==> IsDigit(s[k]) }

  predicate AllSpace(s: string) { forall k :: 0 <= k < |s| ==> IsSpace(s[k]) }

  /** ASCII-only lower-casing. For a pattern made of ASCII characters this is
      exactly the comparison the `i` flag makes: ECMAScript never lets a
      non-ASCII character fold onto an ASCII one. */
  function LowerAscii(c: char): char {
    if 'A' <= c <= 'Z' then (c as int + 32) as char else c
  }

  /** `tag` occurs at position `p` of `s`, ignoring ASCII case. */
  predicate LabelAt(s: string, p: nat, tag: string) {
    p + |tag| <= |s| && forall i :: 0 <= i < |tag| ==> LowerAscii(s[p + i]) == LowerAscii(tag[i])
  }

  lemma LabelAtExact(s: string, p: nat, tag: string)
    requires p + |tag| <= |s| && s[p..p + |tag|] == tag
    ensures LabelAt(s, p, tag)
  {
    forall i | 0 <= i < |tag| ensures s[p + i] == tag[i] {
      assert s[p..p + |tag|][i] == s[p + i];
    }
  }

  /** A slice that matches a label makes the label occur there. */
  lemma LabelSlice(s: string, p: nat, t: string, tag: string)
    requires LabelAt(t, 0, tag) && |t| == |tag|
    requires p + |t| <= |s| && s[p..p + |t|] == t
    ensures LabelAt(s, p, tag)
  {
    forall i | 0 <= i < |tag| ensures LowerAscii(s[p + i]) == LowerAscii(tag[i]) {
      assert s[p + i] == t[i];
    }
  }

  /** A slice equal to `a + b` splits into a slice equal to `a` followed by
      one equal to `b`. */
  lemma SliceSplit(s: string, x: nat, a: string, b: string)
    requires x + |a| + |b| <= |s| && s[x..x + |a| + |b|] == a + b
    ensures s[x..x + |a|] == a && s[x + |a|..x + |a| + |b|] == b
  {
    assert s[x..x + |a|] == s[x..x + |a| + |b|][..|a|];
    assert s[x + |a|..x + |a| + |b|] == s[x..x + |a| + |b|][|a|..];
  }

  /* ---------------------------------------------------------------- trim */

  function LeadingSpaces(s: string): (n: nat)
    ensures n <= |s|
    ensures forall k :: 0 <= k < n ==> IsSpace(s[k])
    ensures n < |s| ==> !IsSpace(s[n])
  {
    if |s| > 0 && IsSpace(s[0]) then 1 + LeadingSpaces(s[1..]) else 0
  }

  function TrailingSpaces(s: string): (n: nat)
    ensures n <= |s|
    ensures forall k :: |s| - n <= k < |s| ==> IsSpace(s[k])
    ensures n < |s| ==> !IsSpace(s[|s| - n - 1])
  {
    if |s| > 0 && IsSpace(s[|s| - 1]) then 1 + TrailingSpaces(s[..|s| - 1]) else 0
  }

  predicate IsTrimmed(s: string) {
    |s| == 0 || (!IsSpace(s[0]) && !IsSpace(s[|s| - 1]))
  }

  /** `String.prototype.trim`: the result has no white space at either end,
      is empty exactly when the input is all white space, and leaves an
      already trimmed string alone. */
  function Trim(s: string): (r: string)
    ensures IsTrimmed(r)
    ensures |r| <= |s|
    ensures r == [] <==> AllSpace(s)
    ensures IsTrimmed(s) ==> r == s
  {
    var i := LeadingSpaces(s);
    if i == |s| then []
    else
      var j := |s| - TrailingSpaces(s);
      assert i < j;
      s[i..j]
  }

  /* ------------------------------------------------------- split / join */

  function IndexOf(s: string, d: char): (k: nat)
    requires d in s
    ensures k < |s| && s[k] == d && d !in s[..k]
  {
    if s[0] == d then 0
    else
      assert d in s[1..];
      var k := IndexOf(s[1..], d);
      assert s[..k + 1] == [s[0]] + s[1..][..k];
      k + 1
  }

  /** `String.prototype.split` with a one-character separator. */
  function Split(s: string, d: char): (parts: seq<string>)
    ensures |parts| >= 1
    ensures forall i :: 0 <= i < |parts| ==> d !in parts[i]
    decreases |s|
  {
    if d in s then
      var k := IndexOf(s, d);
      [s[..k]] + Split(s[k + 1..], d)
    else [s]
  }

  /** `Array.prototype.join` */
  function Join(parts: seq<string>, sep: string): string {
    if |parts| == 0 then []
    else if |parts| == 1 then parts[0]
    else parts[0] + sep + Join(parts[1..], sep)
  }

  /** Joining the pieces of a split with the separator gives back the string. */
  lemma {:induction false} JoinSplit(s: string, d: char)
    ensures Join(Split(s, d), [d]) == s
    decreases |s|
  {
    if d in s {
      var k := IndexOf(s, d);
      var rest := s[k + 1..];
      var tail := Split(rest, d);
      JoinSplit(rest, d);
      assert Split(s, d) == [s[..k]] + tail;
      assert ([s[..k]] + tail)[1..] == tail;
      assert Join([s[..k]] + tail, [d]) == s[..k] + [d] + Join(tail, [d]);
      assert s == s[..k] + [d] + rest;
    }
  }

  /** Splitting a join of separator-free pieces gives back the pieces. */
  lemma {:induction false} SplitJoin(parts: seq<string>, d: char)
    requires |parts| >= 1
    requires forall i :: 0 <= i < |parts| ==> d !in parts[i]
    ensures Split(Join(parts, [d]), d) == parts
  {
    if |parts| == 1 {
    } else {
      var s := Join(parts, [d]);
      var tail := Join(parts[1..], [d]);
      assert s == parts[0] + [d] + tail;
      assert d in s by { assert s[|parts[0]|] == d; }
      var k := IndexOf(s, d);
      assert k == |parts[0]|;
      assert s[..k] == parts[0];
      assert s[k + 1..] == tail;
      SplitJoin(parts[1..], d);
    }
  }

  /** `s.split('\n\n')[0]`: the text before the first blank-line separator. */
  function FirstParagraph(s: string): (r: string)
    ensures |r| <= |s| && r == s[..|r|]
    ensures forall k :: 0 <= k < |r| ==> !(s[k] == '\n' && k + 1 < |s| && s[k + 1] == '\n')
    ensures |r| < |s| ==> |r| + 1 < |s| && s[|r|] == '\n' && s[|r| + 1] == '\n'
  {
    if |s| < 2 then s
    else if s[0] == '\n' && s[1] == '\n' then []
    else
      var t := FirstParagraph(s[1..]);
      assert s == [s[0]] + s[1..];
      [s[0]] + t
  }

  /** `s1 + s2 + ...` */
  function Concat(blocks: seq<string>): string {
    if |blocks| == 0 then [] else blocks[0] + Concat(blocks[1..])
  }

  lemma {:induction false} ConcatAppend(blocks: seq<string>, b: string)
    ensures Concat(blocks + [b]) == Concat(blocks) + b
  {
    if |blocks| == 0 {
      assert blocks + [b] == [b];
    } else {
      assert (blocks + [b])[1..] == blocks[1..] + [b];
      ConcatAppend(blocks[1..], b);
    }
  }

  /** Block `i` of a concatenation sits right after the blocks before it, so
      the blocks appear in order. */
  lemma {:induction false} ConcatAt(blocks: seq<string>, i: nat)
    requires i < |blocks|
    ensures Concat(blocks) == Concat(blocks[..i]) + blocks[i] + Concat(blocks[i + 1..])
  {
    if i == 0 {
      assert blocks[..0] == [];
    } else {
      ConcatAt(blocks[1..], i - 1);
      assert blocks[1..][..i - 1] == blocks[1..i];
      assert blocks[1..][i - 1 + 1..] == blocks[i + 1..];
      assert blocks[..i] == [blocks[0]] + blocks[1..i];
      assert Concat(blocks[..i]) == blocks[0] + Concat(blocks[1..i]);
    }
  }

  /** Block `i` occurs in the concatenation, after the blocks before it
      and before those after it. */
  lemma {:induction false} ConcatPlaced(blocks: seq<string>, i: nat)
    requires i < |blocks|
    ensures OccursAt(Concat(blocks), |Concat(blocks[..i])|, blocks[i])
    ensures forall j :: i < j <= |blocks| ==> |Concat(blocks[..i])| + |blocks[i]| <= |Concat(blocks[..j])|
  {
    ConcatAt(blocks, i);
    OccursInMiddle(Concat(blocks[..i]), blocks[i], Concat(blocks[i + 1..]));
    forall j | i < j <= |blocks|
      ensures |Concat(blocks[..i])| + |blocks[i]| <= |Concat(blocks[..j])|
    {
      var pre := blocks[..j];
      ConcatAt(pre, i);
      assert pre[..i] == blocks[..i];
    }
  }

  /* ------------------------------------------------------------ search */

  predicate OccursAt(s: string, k: nat, sub: string) {
    k + |sub| <= |s| && s[k..k + |sub|] == sub
  }

  /** `String.prototype.includes` */
  predicate Contains(s: string, sub: string) {
    exists k :: 0 <= k <= |s| && OccursAt(s, k, sub)
  }

  lemma OccursInMiddle(a: string, b: string, c: string)
    ensures OccursAt(a + b + c, |a|, b) && Contains(a + b + c, b)
  {
    var s := a + b + c;
    assert s[|a|..|a| + |b|] == b;
    assert |a| <= |s| && OccursAt(s, |a|, b);
  }

  lemma OccursPrefix(a: string, b: string)
    ensures OccursAt(a + b, 0, a)
  {
    assert (a + b)[..|a|] == a;
  }

  /** An occurrence survives appending text after it ... */
  lemma OccursRight(s: string, k: nat, sub: string, y: string)
    requires OccursAt(s, k, sub)
    ensures OccursAt(s + y, k, sub) && Contains(s + y, sub)
  {
    assert (s + y)[k..k + |sub|] == s[k..k + |sub|];
    assert k <= |s + y| && OccursAt(s + y, k, sub);
  }

  /** ... and moves along by the length of text put before it. */
  lemma OccursShift(s: string, k: nat, sub: string, x: string)
    requires OccursAt(s, k, sub)
    ensures OccursAt(x + s, |x| + k, sub) && Contains(x + s, sub)
  {
    assert (x + s)[|x| + k..|x| + k + |sub|] == s[k..k + |sub|];
    assert |x| + k <= |x + s| && OccursAt(x + s, |x| + k, sub);
  }

  /** Every part occurs in a join of the parts. */
  lemma {:induction false} JoinContains(parts: seq<string>, sep: string, i: nat)
    requires i < |parts|
    ensures Contains(Join(parts, sep), parts[i])
    decreases i
  {
    if |parts| == 1 {
      OccursPrefix(parts[0], []);
      assert parts[0] + [] == parts[0];
    } else if i == 0 {
      var rest := sep + Join(parts[1..], sep);
      OccursPrefix(parts[0], rest);
      assert Join(parts, sep) == parts[0] + rest;
    } else {
      var tail := Join(parts[1..], sep);
      JoinContains(parts[1..], sep, i - 1);
      var k :| 0 <= k <= |tail| && OccursAt(tail, k, parts[i]);
      OccursShift(tail, k, parts[i], parts[0] + sep);
    }
  }

  /* ------------------------------------------------- numbers and digits */

  /** End of the maximal run of digits that starts at `b`. */
  function DigitRunEnd(s: string, b: nat): (e: nat)
    requires b <= |s|
    ensures b <= e <= |s|
    ensures forall k :: b <= k < e ==> IsDigit(s[k])
    ensures e < |s| ==> !IsDigit(s[e])
    decreases |s| - b
  {
    if b < |s| && IsDigit(s[b]) then DigitRunEnd(s, b + 1) else b
  }

  function DigitValue(c: char): nat
    requires IsDigit(c)
  {
    c as int - '0' as int
  }

  function DigitChar(n: nat): char
    requires n < 10
  {
    ('0' as int + n) as char
  }

  /** `parseInt` of a run of decimal digits. */
  function DigitsValue(ds: string): nat
    requires AllDigits(ds)
  {
    if |ds| == 0 then 0 else DigitsValue(ds[..|ds| - 1]) * 10 + DigitValue(ds[|ds| - 1])
  }

  /** Decimal rendering of a natural number, as template literals print it. */
  function NatToString(n: nat): (r: string)
    ensures |r| >= 1 && AllDigits(r)
  {
    if n < 10 then [DigitChar(n)] else NatToString(n / 10) + [DigitChar(n % 10)]
  }

  /** `${i}` for an integer-valued number. */
  function IntToString(i: int): string {
    if i < 0 then "-" + NatToString(-i) else NatToString(i)
  }

  /** Reading back a rendered number gives the number. */
  lemma {:induction false} ParseRendered(n: nat)
    ensures DigitsValue(NatToString(n)) == n
  {
    if n >= 10 {
      ParseRendered(n / 10);
      var r := NatToString(n);
      assert r[..|r| - 1] == NatToString(n / 10);
    }
  }

  /** Equal digit strings have equal values (stated apart so that callers
      need not reason about sequence equality in a large context). */
  lemma DigitsValueOfEqual(x: string, y: string)
    requires AllDigits(x) && x == y
    ensures AllDigits(y) && DigitsValue(x) == DigitsValue(y)
  {
  }

  lemma SliceDigits(s: string, b: nat, ds: string)
    requires b + |ds| <= |s| && s[b..b + |ds|] == ds && AllDigits(ds)
    ensures forall q :: b <= q < b + |ds| ==> IsDigit(s[q])
  {
    forall q | b <= q < b + |ds| ensures IsDigit(s[q]) {
      assert s[q] == ds[q - b];
    }
  }

  lemma {:induction false} DigitRunEndOver(s: string, b: nat, len: nat)
    requires b + len <= |s|
    requires forall q :: b <= q < b + len ==> IsDigit(s[q])
    requires b + len == |s| || !IsDigit(s[b + len])
    ensures DigitRunEnd(s, b) == b + len
    decreases len
  {
    if len > 0 { DigitRunEndOver(s, b + 1, len - 1); }
  }
}
