/** The agreement score of a consultation: how close the five specialists'
    confidences are to each other, from the population variance of the
    confidences. The variance is exact (reals); the square root and the
    rounding are not computed but replaced by a search over whole numbers,
    and a lemma ties that search to round(max(0, 100 - sqrt(variance))). */
module Agreement {

  function AsReal(x: int): real {
    x as real
  }

  /** `xs.reduce((sum, x) => sum + f(x), 0)` */
  function SumBy(xs: seq<int>, f: int -> real): real {
    if |xs| == 0 then 0.0 else f(xs[0]) + SumBy(xs[1..], f)
  }

  function Sum(xs: seq<int>): real {
    SumBy(xs, AsReal)
  }

  function Mean(xs: seq<int>): real
    requires |xs| > 0
  {
    Sum(xs) / |xs| as real
  }

  /** `Math.pow(c - m, 2)` */
  function SquaredDeviation(m: real): int -> real {
    x => (x as real - m) * (x as real - m)
  }

  /** The mean of the squared deviations from the mean. */
  function Variance(xs: seq<int>): (v: real)
    requires |xs| > 0
    ensures v >= 0.0
  {
    SumByNonNegative(xs, Mean(xs));
    SumBy(xs, SquaredDeviation(Mean(xs))) / |xs| as real
  }

  /** `d + 1/2`, the bound below which a root rounds to distance `d`. */
  function Half(d: nat): real {
    d as real + 0.5
  }

  /** `(d + 1/2)` squared, built up without a product: each step adds
      `2 d`. `BoundIsSquare` ties it to the square. */
  function Bound(d: nat): real {
    if d == 0 then 0.25 else Bound(d - 1) + 2.0 * d as real
  }

  /** The least `d` from `from` on, at most 100, whose `d + 1/2` squared
      reaches `v`: the distance of round(100 - sqrt(v)) from 100. */
  function SpreadFrom(v: real, from: nat): (d: nat)
    requires from <= 100
    ensures from <= d <= 100
    ensures d < 100 ==> v <= Bound(d)
    ensures forall k: nat :: from <= k < d ==> v > Bound(k)
    decreases 100 - from
  {
    if from == 100 || v <= Bound(from) then from else SpreadFrom(v, from + 1)
  }

  function Spread(v: real): (d: nat)
    ensures d <= 100
  {
    SpreadFrom(v, 0)
  }

  /** `Math.round(Math.max(0, 100 - Math.sqrt(variance)))` for the
      specialists' confidences, always a whole percentage. */
  function AgreementScore(confidences: seq<int>): (r: int)
    requires |confidences| > 0
    ensures 0 <= r <= 100
  {
    100 - Spread(Variance(confidences))
  }

  /* ----------------------------------------------------------------- lemmas */

  lemma {:induction false} SumByNonNegative(xs: seq<int>, m: real)
    ensures SumBy(xs, SquaredDeviation(m)) >= 0.0
    decreases |xs|
  {
    if |xs| > 0 {
      var y := xs[0] as real - m;
      assert SquaredDeviation(m)(xs[0]) == y * y;
      SumByNonNegative(xs[1..], m);
    }
  }

  lemma ProductPositive(x: real, y: real)
    requires x > 0.0 && y > 0.0
    ensures x * y > 0.0
  {
  }

  /** For non-negative numbers, squares are ordered as the numbers are. */
  lemma SquareOrder(a: real, b: real)
    requires a >= 0.0 && b >= 0.0
    ensures a * a <= b * b <==> a <= b
  {
    if a > b {
      ProductPositive(a - b, a + b);
      assert a * a - b * b == (a - b) * (a + b);
    } else if a < b {
      ProductPositive(b - a, b + a);
      assert b * b - a * a == (b - a) * (b + a);
    }
  }

  lemma {:induction false} BoundIsSquare(d: nat)
    ensures Bound(d) == Half(d) * Half(d)
  {
    if d > 0 {
      BoundIsSquare(d - 1);
      assert Half(d) == Half(d - 1) + 1.0;
      assert Half(d) * Half(d) == Half(d - 1) * Half(d - 1) + 2.0 * Half(d - 1) + 1.0;
    }
  }

  lemma RootAtMost(root: real, h: real)
    requires root >= 0.0 && h >= 0.0 && root * root <= h * h
    ensures root <= h
  {
    SquareOrder(root, h);
  }

  lemma RootAbove(root: real, h: real)
    requires root >= 0.0 && h >= 0.0 && root * root > h * h
    ensures root > h
  {
    SquareOrder(root, h);
  }

  /** Below the spread, `k + 1/2` squared stays under `v`. */
  lemma SpreadExceeds(v: real, k: nat)
    requires k < Spread(v)
    ensures v > Bound(k)
  {
  }

  /** The root lies within half a unit of the spread. */
  lemma RootNearSpread(v: real, root: real)
    requires root >= 0.0 && root * root == v
    ensures Spread(v) < 100 ==> root <= Half(Spread(v))
    ensures Spread(v) > 0 ==> root > Half(Spread(v) - 1)
  {
    SpreadBounds(v);
    RootNear(v, root, Spread(v));
  }

  /** The spread is the first distance whose bound reaches `v`. */
  lemma SpreadBounds(v: real)
    ensures Spread(v) < 100 ==> v <= Bound(Spread(v))
    ensures Spread(v) > 0 ==> v > Bound(Spread(v) - 1)
  {
    var d := Spread(v);
    assert d == SpreadFrom(v, 0);
    if d > 0 {
      SpreadExceeds(v, d - 1);
    }
  }

  lemma RootNear(v: real, root: real, d: nat)
    requires root >= 0.0 && root * root == v
    requires d < 100 ==> v <= Bound(d)
    requires d > 0 ==> v > Bound(d - 1)
    ensures d < 100 ==> root <= Half(d)
    ensures d > 0 ==> root > Half(d - 1)
  {
    if d < 100 {
      BoundIsSquare(d);
      RootAtMost(root, Half(d));
    }
    if d > 0 {
      BoundIsSquare(d - 1);
      RootAbove(root, Half(d - 1));
    }
  }

  /** Rounding half up of max(0, 100 - root) lands at 100 minus the spread. */
  lemma {:induction false} RoundedDistance(v: real, root: real)
    requires root >= 0.0 && root * root == v
    ensures 100 - Spread(v) == (Max(0.0, 100.0 - root) + 0.5).Floor
  {
    var d := Spread(v);
    RootNearSpread(v, root);
    if d < 100 {
      assert Max(0.0, 100.0 - root) == 100.0 - root;
      FloorOf(100.0 - root + 0.5, 100 - d);
    } else {
      FloorOf(Max(0.0, 100.0 - root) + 0.5, 0);
    }
  }

  /** The score is what the source computes: for the square root `root` of
      the variance, round half up of max(0, 100 - root). */
  lemma {:induction false} AgreementScoreOfRoot(confidences: seq<int>, root: real)
    requires |confidences| > 0
    requires root >= 0.0 && root * root == Variance(confidences)
    ensures AgreementScore(confidences) == (Max(0.0, 100.0 - root) + 0.5).Floor
  {
    RoundedDistance(Variance(confidences), root);
  }

  function Max(a: real, b: real): (r: real)
    ensures r >= a && r >= b && (r == a || r == b)
  {
    if a >= b then a else b
  }

  lemma FloorOf(x: real, k: int)
    requires k as real <= x < k as real + 1.0
    ensures x.Floor == k
  {
  }

  /** A full score means the variance rounds to no spread at all: it is at
      most one quarter. */
  lemma FullAgreement(confidences: seq<int>)
    requires |confidences| > 0
    ensures AgreementScore(confidences) == 100 <==> Variance(confidences) <= 0.25
  {
  }

  /** Equal confidences give a score of 100. */
  lemma {:induction false} EqualConfidences(confidences: seq<int>, c: int)
    requires |confidences| > 0
    requires forall i :: 0 <= i < |confidences| ==> confidences[i] == c
    ensures AgreementScore(confidences) == 100
  {
    SumOfEqual(confidences, c);
    var m := Mean(confidences);
    assert m == c as real;
    DeviationsOfEqual(confidences, c);
    assert Variance(confidences) == 0.0;
  }

  lemma {:induction false} SumOfEqual(xs: seq<int>, c: int)
    requires forall i :: 0 <= i < |xs| ==> xs[i] == c
    ensures Sum(xs) == |xs| as real * c as real
    decreases |xs|
  {
    if |xs| > 0 {
      SumOfEqual(xs[1..], c);
    }
  }

  lemma {:induction false} DeviationsOfEqual(xs: seq<int>, c: int)
    requires forall i :: 0 <= i < |xs| ==> xs[i] == c
    ensures SumBy(xs, SquaredDeviation(c as real)) == 0.0
    decreases |xs|
  {
    if |xs| > 0 {
      assert SquaredDeviation(c as real)(xs[0]) == 0.0;
      DeviationsOfEqual(xs[1..], c);
    }
  }

  /** Taking one element out of the sum. */
  lemma {:induction false} SumByRemove(xs: seq<int>, j: nat, f: int -> real)
    requires j < |xs|
    ensures SumBy(xs, f) == f(xs[j]) + SumBy(xs[..j] + xs[j + 1..], f)
    decreases j
  {
    if j > 0 {
      var rest := xs[1..];
      SumByRemove(rest, j - 1, f);
      assert rest[..j - 1] + rest[j..] == (xs[..j] + xs[j + 1..])[1..];
      assert (xs[..j] + xs[j + 1..])[0] == xs[0];
    } else {
      assert xs[..0] + xs[1..] == xs[1..];
    }
  }

  /** A sum does not depend on the order of its terms. */
  lemma {:induction false} SumByPermutation(xs: seq<int>, ys: seq<int>, f: int -> real)
    requires multiset(xs) == multiset(ys)
    ensures SumBy(xs, f) == SumBy(ys, f)
    decreases |xs|
  {
    if |xs| > 0 {
      assert xs[0] in multiset(ys);
      var j :| 0 <= j < |ys| && ys[j] == xs[0];
      RemoveMatching(xs, ys, j);
      SumByPermutation(xs[1..], ys[..j] + ys[j + 1..], f);
      SumByRemove(ys, j, f);
    } else {
      assert |ys| == |multiset(ys)| == 0;
    }
  }

  /** Taking the first element out of one side and an equal element out of
      the other keeps the multisets equal. */
  lemma RemoveMatching(xs: seq<int>, ys: seq<int>, j: nat)
    requires multiset(xs) == multiset(ys) && |xs| > 0 && j < |ys| && ys[j] == xs[0]
    ensures multiset(xs[1..]) == multiset(ys[..j] + ys[j + 1..])
  {
    assert ys == ys[..j] + [ys[j]] + ys[j + 1..];
    assert xs == [xs[0]] + xs[1..];
    assert multiset(ys) == multiset(ys[..j]) + multiset{ys[j]} + multiset(ys[j + 1..]);
    assert multiset(ys[..j] + ys[j + 1..]) == multiset(ys) - multiset{xs[0]};
    assert multiset(xs[1..]) == multiset(xs) - multiset{xs[0]};
  }

  /** Reordering the specialists does not change the score. */
  lemma {:induction false} AgreementScorePermutation(xs: seq<int>, ys: seq<int>)
    requires |xs| > 0
    requires multiset(xs) == multiset(ys)
    ensures |ys| == |xs| && AgreementScore(xs) == AgreementScore(ys)
  {
    assert |xs| == |multiset(xs)| == |multiset(ys)| == |ys|;
    SumByPermutation(xs, ys, AsReal);
    assert Mean(xs) == Mean(ys);
    SumByPermutation(xs, ys, SquaredDeviation(Mean(xs)));
  }
}
