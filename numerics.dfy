/** Real-valued arithmetic shared by every calculator: Python's `round`,
    `int` truncation, `abs`, and `sum`/`max`/`min`/mean over a list.
    Quantities are exact reals; `round(x, n)` is rounding half-up onto the
    grid of 10^-n, which agrees with Python except on exact ties. */
module Numerics {

  function Abs(x: real): (r: real)
    ensures r >= 0.0
    ensures r == x || r == -x
  {
    if x < 0.0 then -x else x
  }

  /** The grid point nearest to `x` on the grid 1/scale, ties upward. */
  function RoundTo(x: real, scale: real): (r: real)
    requires scale > 0.0
    ensures x >= 0.0 ==> r >= 0.0
  {
    (x * scale + 0.5).Floor as real / scale
  }

  /** Python `round(x)` (no digits): the nearest integer. */
  function Round0(x: real): (n: int)
    ensures x - 0.5 < n as real <= x + 0.5
  {
    (x + 0.5).Floor
  }

  /** Python `round(x, 1)`. */
  function Round1(x: real): (r: real)
    ensures x - 0.05 < r <= x + 0.05
    ensures x >= 0.0 ==> r >= 0.0
  {
    RoundTo(x, 10.0)
  }

  /** Python `round(x, 2)`. */
  function Round2(x: real): (r: real)
    ensures x - 0.005 < r <= x + 0.005
    ensures x >= 0.0 ==> r >= 0.0
  {
    RoundTo(x, 100.0)
  }

  /** Python `round(x, 3)`. */
  function Round3(x: real): (r: real)
    ensures x - 0.0005 < r <= x + 0.0005
    ensures x >= 0.0 ==> r >= 0.0
  {
    RoundTo(x, 1000.0)
  }

  /** A value already on the cent grid is left alone by `round(_, 2)`. */
  lemma Round2OnGrid(n: int)
    ensures Round2(n as real / 100.0) == n as real / 100.0
  {
    assert (n as real / 100.0) * 100.0 + 0.5 == n as real + 0.5;
    assert (n as real + 0.5).Floor == n;
  }

  /** Multiplying a cent-rounded amount by a whole number stays on the cent
      grid, so rounding the product again changes nothing. */
  lemma {:induction false} Round2OfWholeMultiple(x: real, k: int)
    ensures Round2(k as real * Round2(x)) == k as real * Round2(x)
  {
    var f := (x * 100.0 + 0.5).Floor;
    assert Round2(x) == f as real / 100.0;
    assert k as real * Round2(x) == (k * f) as real / 100.0;
    Round2OnGrid(k * f);
  }

  /** Python `int(x)`: truncation toward zero. */
  function Trunc(x: real): (n: int)
    ensures x >= 0.0 ==> n as real <= x < n as real + 1.0
    ensures x < 0.0 ==> n as real - 1.0 < x <= n as real
  {
    if x >= 0.0 then x.Floor else -((-x).Floor)
  }

  /** For a non-negative share, `int(x * 100) < k` exactly when `x * 100 < k`. */
  lemma TruncBelow(x: real, k: int)
    requires x >= 0.0
    ensures Trunc(x) < k <==> x < k as real
  {
  }

  /** Python `sum` over a list, folded left to right. */
  function Sum(s: seq<real>): real
  {
    if |s| == 0 then 0.0 else Sum(s[..|s| - 1]) + s[|s| - 1]
  }

  function Mean(s: seq<real>): real
    requires |s| > 0
  {
    Sum(s) / |s| as real
  }

  /** Python `max` over a non-empty list. */
  function MaxOf(s: seq<real>): (m: real)
    requires |s| > 0
    ensures exists i :: 0 <= i < |s| && s[i] == m
    ensures forall i :: 0 <= i < |s| ==> s[i] <= m
  {
    if |s| == 1 then s[0]
    else
      var rest := MaxOf(s[..|s| - 1]);
      if s[|s| - 1] > rest then s[|s| - 1] else rest
  }

  /** Python `min` over a non-empty list. */
  function MinOf(s: seq<real>): (m: real)
    requires |s| > 0
    ensures exists i :: 0 <= i < |s| && s[i] == m
    ensures forall i :: 0 <= i < |s| ==> m <= s[i]
  {
    if |s| == 1 then s[0]
    else
      var rest := MinOf(s[..|s| - 1]);
      if s[|s| - 1] < rest then s[|s| - 1] else rest
  }

  function Min(a: int, b: int): int {
    if a < b then a else b
  }

  /** `sum` of a list extended by one element. */
  lemma SumAppend(s: seq<real>, x: real)
    ensures Sum(s + [x]) == Sum(s) + x
  {
    assert (s + [x])[..|s|] == s;
  }

  /** `sum` over a list extended by at most one element. */
  lemma SumAppendTail(s: seq<real>, t: seq<real>)
    requires |t| <= 1
    ensures Sum(s + t) == Sum(s) + (if |t| == 1 then t[0] else 0.0)
  {
    if |t| == 1 {
      SumAppend(s, t[0]);
      assert s + t == s + [t[0]];
    } else {
      assert s + t == s;
    }
  }

  lemma {:induction false} SumAtLeast(s: seq<real>, lo: real)
    requires forall i :: 0 <= i < |s| ==> lo <= s[i]
    ensures |s| as real * lo <= Sum(s)
  {
    if |s| > 0 {
      SumAtLeast(s[..|s| - 1], lo);
    }
  }

  lemma {:induction false} SumAtMost(s: seq<real>, hi: real)
    requires forall i :: 0 <= i < |s| ==> s[i] <= hi
    ensures Sum(s) <= |s| as real * hi
  {
    if |s| > 0 {
      SumAtMost(s[..|s| - 1], hi);
    }
  }

  /** A mean lies between any lower and upper bound of its terms. */
  lemma MeanBetween(s: seq<real>, lo: real, hi: real)
    requires |s| > 0
    requires forall i :: 0 <= i < |s| ==> lo <= s[i] <= hi
    ensures lo <= Mean(s) <= hi
  {
    SumAtLeast(s, lo);
    SumAtMost(s, hi);
    var n := |s| as real;
    assert n * lo <= Sum(s) <= n * hi;
    assert Mean(s) * n == Sum(s);
  }

  /** min <= mean <= max. */
  lemma MeanWithinExtremes(s: seq<real>)
    requires |s| > 0
    ensures MinOf(s) <= Mean(s) <= MaxOf(s)
  {
    MeanBetween(s, MinOf(s), MaxOf(s));
  }

  /** `sum` is linear: summing `a + b * x` term by term gives `n * a + b * sum(x)`. */
  lemma {:induction false} SumAffine(s: seq<real>, t: seq<real>, a: real, b: real)
    requires |t| == |s|
    requires forall i :: 0 <= i < |s| ==> t[i] == a + b * s[i]
    ensures Sum(t) == |s| as real * a + b * Sum(s)
  {
    if |s| > 0 {
      var n := |s| - 1;
      SumAffine(s[..n], t[..n], a, b);
      assert Sum(t) == Sum(t[..n]) + t[n];
      assert Sum(s) == Sum(s[..n]) + s[n];
    }
  }

  /** Hence the mean of an affine image is the affine image of the mean. */
  lemma MeanAffine(s: seq<real>, t: seq<real>, a: real, b: real)
    requires |s| > 0 && |t| == |s|
    requires forall i :: 0 <= i < |s| ==> t[i] == a + b * s[i]
    ensures Mean(t) == a + b * Mean(s)
  {
    SumAffine(s, t, a, b);
    var n := |s| as real;
    var m := Mean(s);
    assert Sum(s) == m * n;
    assert Sum(t) == (a + b * m) * n;
    assert Mean(t) == (a + b * m) * n / n;
  }

  lemma {:induction false} SumNonNegative(s: seq<real>)
    requires forall i :: 0 <= i < |s| ==> s[i] >= 0.0
    ensures Sum(s) >= 0.0
  {
    if |s| > 0 {
      SumNonNegative(s[..|s| - 1]);
    }
  }

  /** A six-term `sum`, written out. */
  lemma SumOfSix(v: seq<real>)
    requires |v| == 6
    ensures Sum(v) == v[0] + v[1] + v[2] + v[3] + v[4] + v[5]
  {
    assert v[..1][..0] == [];
    assert Sum(v[..1]) == v[0];
    assert v[..2][..1] == v[..1];
    assert Sum(v[..2]) == Sum(v[..1]) + v[1];
    assert v[..3][..2] == v[..2];
    assert Sum(v[..3]) == Sum(v[..2]) + v[2];
    assert v[..4][..3] == v[..3];
    assert Sum(v[..4]) == Sum(v[..3]) + v[3];
    assert v[..5][..4] == v[..4];
    assert Sum(v[..5]) == Sum(v[..4]) + v[4];
    assert v[..6] == v;
  }}
