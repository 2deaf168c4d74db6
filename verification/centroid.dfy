/**
 * The weighted centroid shared by the three estimators: every reading is
 * weighted by the inverse square of its anchor's rolling average, weights are
 * normalised by their sum, and the estimate is the normalised-weight
 * combination of the anchors' fixed coordinates. Arithmetic is over `real`.
 */
module Centroid {

  /** An anchor's fixed coordinates in the shared planar frame. */
  type Point = (int, int)

  /**
   * A weight as the code computes it: a finite value, or the positive
   * infinity that the C++ `1 / pow(0.0, 2)` produces.
   */
  datatype ExtReal = Finite(value: real) | Infinite

  /** `1 / avg²`: infinite exactly for a zero average, otherwise positive and the inverse of the square. */
  function InverseSquare(avg: real): (w: ExtReal)
    ensures w.Infinite? <==> avg == 0.0
    ensures w.Finite? ==> w.value > 0.0 && w.value * (avg * avg) == 1.0
  {
    if avg == 0.0 then Infinite else Finite(1.0 / (avg * avg))
  }

  /** The weight depends only on the magnitude of the average. */
  lemma InverseSquareEven(avg: real)
    ensures InverseSquare(avg) == InverseSquare(-avg)
  {
  }

  /** A smaller average magnitude (a stronger signal) earns a strictly larger weight. */
  lemma InverseSquareDecreasing(a: real, b: real)
    requires 0.0 < a < b
    ensures InverseSquare(a).value > InverseSquare(b).value
  {
    var wa, wb := InverseSquare(a).value, InverseSquare(b).value;
    assert a * a < b * b;
    assert wa * (a * a) == wb * (b * b);
  }

  /** Sum of a sequence of reals, accumulated front to back. */
  function SumReals(s: seq<real>): real
  {
    if s == [] then 0.0 else SumReals(s[..|s| - 1]) + s[|s| - 1]
  }

  predicate AllPositive(ws: seq<real>)
  {
    forall i | 0 <= i < |ws| :: ws[i] > 0.0
  }

  /** Positive weights have a positive sum as soon as there is one of them. */
  lemma {:induction false} SumOfPositives(ws: seq<real>)
    requires AllPositive(ws)
    ensures |ws| > 0 ==> SumReals(ws) > 0.0
    ensures SumReals(ws) >= 0.0
  {
    if ws != [] {
      SumOfPositives(ws[..|ws| - 1]);
    }
  }

  /** Each weight divided by `total` (the normalisation step); nothing is divided when there are no weights. */
  function Scale(ws: seq<real>, total: real): (ns: seq<real>)
    requires |ws| > 0 ==> total != 0.0
    ensures |ns| == |ws|
    ensures forall i | 0 <= i < |ws| :: ns[i] * total == ws[i]
  {
    seq(|ws|, i requires 0 <= i < |ws| => ws[i] / total)
  }

  /** Dividing every weight by `total` divides their sum by `total`. */
  lemma {:induction false} ScaleSum(ws: seq<real>, total: real)
    requires total != 0.0
    ensures SumReals(Scale(ws, total)) == SumReals(ws) / total
  {
    if ws != [] {
      var n := |ws|;
      assert Scale(ws, total)[..n - 1] == Scale(ws[..n - 1], total);
      ScaleSum(ws[..n - 1], total);
    }
  }

  /** Normalised weights are positive and sum to exactly 1: the centroid is a convex combination. */
  lemma NormalisedSumIsOne(ws: seq<real>)
    requires AllPositive(ws) && |ws| > 0
    ensures SumReals(ws) > 0.0
    ensures AllPositive(Scale(ws, SumReals(ws)))
    ensures SumReals(Scale(ws, SumReals(ws))) == 1.0
  {
    SumOfPositives(ws);
    var total := SumReals(ws);
    ScaleSum(ws, total);
    SelfQuotient(total);
    forall i | 0 <= i < |ws|
      ensures Scale(ws, total)[i] > 0.0
    {
      PositiveQuotient(ws[i], total);
    }
  }

  lemma SelfQuotient(t: real)
    requires t > 0.0
    ensures t / t == 1.0
  {
  }

  lemma PositiveQuotient(a: real, t: real)
    requires a > 0.0 && t > 0.0
    ensures a / t > 0.0
  {
  }

  /** Sum of coordinate times weight, accumulated front to back. */
  function Dot(cs: seq<int>, ns: seq<real>): real
    requires |cs| == |ns|
  {
    if cs == [] then 0.0 else Dot(cs[..|cs| - 1], ns[..|ns| - 1]) + cs[|cs| - 1] as real * ns[|ns| - 1]
  }

  function Xs(ps: seq<Point>): (xs: seq<int>)
    ensures |xs| == |ps| && forall i | 0 <= i < |ps| :: xs[i] == ps[i].0
  {
    seq(|ps|, i requires 0 <= i < |ps| => ps[i].0)
  }

  function Ys(ps: seq<Point>): (ys: seq<int>)
    ensures |ys| == |ps| && forall i | 0 <= i < |ps| :: ys[i] == ps[i].1
  {
    seq(|ps|, i requires 0 <= i < |ps| => ps[i].1)
  }

  /**
   * Weighted centroid of the points `ps` under the positive weights `ws`:
   * normalise the weights by their sum, then combine the coordinates.
   * With no points nothing is divided and the result is the origin.
   */
  function WeightedCentroid(ps: seq<Point>, ws: seq<real>): (real, real)
    requires |ps| == |ws| && AllPositive(ws)
  {
    SumOfPositives(ws);
    var ns := Scale(ws, SumReals(ws));
    (Dot(Xs(ps), ns), Dot(Ys(ps), ns))
  }

  /** With non-negative weights, an upper bound on every coordinate bounds the weighted sum. */
  lemma {:induction false} DotUpper(cs: seq<int>, ns: seq<real>, hi: int)
    requires |cs| == |ns|
    requires forall i | 0 <= i < |ns| :: ns[i] >= 0.0 && cs[i] <= hi
    ensures Dot(cs, ns) <= hi as real * SumReals(ns)
  {
    if cs != [] {
      var n := |cs|;
      DotUpper(cs[..n - 1], ns[..n - 1], hi);
      assert (hi as real - cs[n - 1] as real) * ns[n - 1] >= 0.0;
    }
  }

  /** With non-negative weights, a lower bound on every coordinate bounds the weighted sum. */
  lemma {:induction false} DotLower(cs: seq<int>, ns: seq<real>, lo: int)
    requires |cs| == |ns|
    requires forall i | 0 <= i < |ns| :: ns[i] >= 0.0 && lo <= cs[i]
    ensures lo as real * SumReals(ns) <= Dot(cs, ns)
  {
    if cs != [] {
      var n := |cs|;
      DotLower(cs[..n - 1], ns[..n - 1], lo);
      assert (cs[n - 1] as real - lo as real) * ns[n - 1] >= 0.0;
    }
  }

  /**
   * The estimate lies within every axis-aligned box holding all anchors of a
   * non-empty batch: in particular between their smallest and largest x and y.
   */
  lemma CentroidInBox(ps: seq<Point>, ws: seq<real>, lo: Point, hi: Point)
    requires |ps| == |ws| > 0 && AllPositive(ws)
    requires forall i | 0 <= i < |ps| :: lo.0 <= ps[i].0 <= hi.0 && lo.1 <= ps[i].1 <= hi.1
    ensures lo.0 as real <= WeightedCentroid(ps, ws).0 <= hi.0 as real
    ensures lo.1 as real <= WeightedCentroid(ps, ws).1 <= hi.1 as real
  {
    NormalisedSumIsOne(ws);
    var ns := Scale(ws, SumReals(ws));
    DotUpper(Xs(ps), ns, hi.0);
    DotLower(Xs(ps), ns, lo.0);
    DotUpper(Ys(ps), ns, hi.1);
    DotLower(Ys(ps), ns, lo.1);
  }

  /** A single reading places the estimate exactly on its anchor, whatever its weight. */
  lemma CentroidOfOne(p: Point, w: real)
    requires w > 0.0
    ensures WeightedCentroid([p], [w]) == (p.0 as real, p.1 as real)
  {
    assert [w][..0] == [];
    assert SumReals([w]) == w;
    var ns := Scale([w], w);
    assert ns[0] == w / w == 1.0;
    assert ns == [1.0];
    assert Xs([p]) == [p.0] && Ys([p]) == [p.1];
    assert [p.0][..0] == [] && [p.1][..0] == [] && ns[..0] == [];
    assert Dot([p.0], ns) == p.0 as real && Dot([p.1], ns) == p.1 as real;
  }

  /** Anchors (0,0), (8,0), (4,4) at averages 2, 2, 4: weights 4/9, 4/9, 1/9 and estimate (4, 4/9). */
  lemma CentroidExample()
    ensures InverseSquare(2.0) == Finite(0.25) && InverseSquare(4.0) == Finite(0.0625)
    ensures SumReals([0.25, 0.25, 0.0625]) == 0.5625
    ensures Scale([0.25, 0.25, 0.0625], 0.5625) == [4.0 / 9.0, 4.0 / 9.0, 1.0 / 9.0]
    ensures WeightedCentroid([(0, 0), (8, 0), (4, 4)], [0.25, 0.25, 0.0625]) == (4.0, 4.0 / 9.0)
  {
    var ws := [0.25, 0.25, 0.0625];
    assert ws[..2] == [0.25, 0.25] && ws[..2][..1] == [0.25] && ws[..2][..1][..0] == [];
    assert SumReals([0.25]) == 0.25;
    assert SumReals([0.25, 0.25]) == 0.5;
    assert SumReals(ws) == 0.5625;
    var ps: seq<Point> := [(0, 0), (8, 0), (4, 4)];
    var ns := Scale(ws, 0.5625);
    assert ns == [4.0 / 9.0, 4.0 / 9.0, 1.0 / 9.0];
    assert Xs(ps) == [0, 8, 4] && Ys(ps) == [0, 0, 4];
    assert [0, 8, 4][..2] == [0, 8] && [0, 8][..1] == [0] && [0][..0] == [];
    assert [0, 0, 4][..2] == [0, 0] && [0, 0][..1] == [0];
    assert ns[..2] == [4.0 / 9.0, 4.0 / 9.0] && ns[..2][..1] == [4.0 / 9.0] && ns[..2][..1][..0] == [];
    var n2, n1 := [4.0 / 9.0, 4.0 / 9.0], [4.0 / 9.0];
    assert Dot([0], n1) == 0.0 && Dot([0, 8], n2) == 32.0 / 9.0 && Dot([0, 8, 4], ns) == 4.0;
    assert Dot([0], n1) == 0.0 && Dot([0, 0], n2) == 0.0 && Dot([0, 0, 4], ns) == 4.0 / 9.0;
  }

  /** Conversion of a float to `int` in C++: truncation toward zero. */
  function Trunc(r: real): (n: int)
    ensures 0.0 <= r ==> n as real <= r < n as real + 1.0
    ensures r < 0.0 ==> n as real - 1.0 < r <= n as real
  {
    if r >= 0.0 then r.Floor else -((-r).Floor)
  }

  /** Truncation keeps a value inside any integer interval that contains it. */
  lemma TruncInRange(r: real, lo: int, hi: int)
    requires lo as real <= r <= hi as real
    ensures lo <= Trunc(r) <= hi
  {
  }

  /** Whole numbers survive the conversion unchanged. */
  lemma TruncOfInt(k: int)
    ensures Trunc(k as real) == k
  {
  }
}
