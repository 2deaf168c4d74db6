/**
 * The weight bookkeeping common to the two C++ estimators: each reading's
 * weight is computed right after that reading's own sample was recorded, from
 * the window as it stands at that moment, and added to a running sum. A zero
 * average yields an infinite weight (IEEE `1 / 0.0`), which the sum absorbs.
 */
module Streaming {
  import opened Window
  import opened Centroid
  import opened Readings
  import opened Outcome

  /** Why a C++ estimator produces no position. */
  datatype Fault =
    | OutOfRange(key: string)  // `std::map::at` threw for an id missing from the table
    | NotANumber               // an infinite weight made the coordinates NaN; converting NaN to `int` is undefined

  /** The weights in batch order, each taken from its anchor's window just after its own sample was recorded. */
  function StreamingWeights(h: History, ds: seq<Reading>): (ws: seq<ExtReal>)
    ensures |ws| == |ds| && PositiveWeights(ws)
  {
    if ds == [] then []
    else
      UpdatedCovers(h, ds, |ds| - 1);
      StreamingWeights(h, ds[..|ds| - 1]) + [InverseSquare(Average(Updated(h, ds)[ds[|ds| - 1].id]))]
  }

  /** Reading `i` is weighted by the window its anchor had once the first `i + 1` readings were recorded. */
  lemma {:induction false} StreamingWeightAt(h: History, ds: seq<Reading>, i: nat)
    requires i < |ds|
    ensures ds[i].id in Updated(h, ds[..i + 1]) && Updated(h, ds[..i + 1])[ds[i].id] != []
    ensures StreamingWeights(h, ds)[i] == InverseSquare(Average(Updated(h, ds[..i + 1])[ds[i].id]))
  {
    UpdatedCovers(h, ds[..i + 1], i);
    if i < |ds| - 1 {
      var pre := ds[..|ds| - 1];
      StreamingWeightAt(h, pre, i);
      assert pre[..i + 1] == ds[..i + 1];
    } else {
      assert ds[..i + 1] == ds;
    }
  }

  /** The weights of one more reading: those of the prefix, then the new reading's. */
  lemma StreamingStep(h: History, ds: seq<Reading>, i: nat)
    requires i < |ds|
    ensures ds[i].id in Updated(h, ds[..i + 1]) && Updated(h, ds[..i + 1])[ds[i].id] != []
    ensures StreamingWeights(h, ds[..i + 1])
            == StreamingWeights(h, ds[..i]) + [InverseSquare(Average(Updated(h, ds[..i + 1])[ds[i].id]))]
  {
    UpdatedCovers(h, ds[..i + 1], i);
    assert ds[..i + 1][..i] == ds[..i];
  }

  /** IEEE addition of non-negative weights: an infinite term makes the sum infinite. */
  function Add(a: ExtReal, b: ExtReal): (c: ExtReal)
    ensures c.Finite? <==> a.Finite? && b.Finite?
  {
    if a.Finite? && b.Finite? then Finite(a.value + b.value) else Infinite
  }

  /** The running `sum_weights` after all weights were added, starting from 0. */
  function Total(ws: seq<ExtReal>): (t: ExtReal)
    ensures t.Finite? <==> forall i | 0 <= i < |ws| :: ws[i].Finite?
  {
    if ws == [] then Finite(0.0) else Add(Total(ws[..|ws| - 1]), ws[|ws| - 1])
  }

  /** Adding one more weight to the running sum. */
  lemma TotalSnoc(ws: seq<ExtReal>, w: ExtReal)
    ensures Total(ws + [w]) == Add(Total(ws), w)
  {
    assert (ws + [w])[..|ws|] == ws;
  }

  /** The values of finite weights. */
  function Values(ws: seq<ExtReal>): (vs: seq<real>)
    requires forall i | 0 <= i < |ws| :: ws[i].Finite?
    ensures |vs| == |ws| && forall i | 0 <= i < |ws| :: vs[i] == ws[i].value
  {
    seq(|ws|, i requires 0 <= i < |ws| => ws[i].value)
  }

  /** A finite running sum is the sum of the weights' values. */
  lemma {:induction false} TotalIsSum(ws: seq<ExtReal>)
    requires forall i | 0 <= i < |ws| :: ws[i].Finite?
    ensures Total(ws) == Finite(SumReals(Values(ws)))
  {
    if ws != [] {
      var n := |ws|;
      TotalIsSum(ws[..n - 1]);
      assert Values(ws)[..n - 1] == Values(ws[..n - 1]);
    }
  }

  /** The samples of a batch for `id` are those of a prefix followed by those of the rest. */
  lemma {:induction false} SamplesSplit(ds: seq<Reading>, k: nat, id: string)
    requires k <= |ds|
    ensures Samples(ds, id) == Samples(ds[..k], id) + Samples(ds[k..], id)
  {
    if k < |ds| {
      var n := |ds|;
      SamplesSplit(ds[..n - 1], k, id);
      assert ds[..n - 1][..k] == ds[..k];
      assert ds[k..][..n - 1 - k] == ds[..n - 1][k..];
    } else {
      assert ds[..k] == ds;
      assert ds[k..] == [];
    }
  }

  /**
   * A reading whose anchor does not recur later in the batch is weighted by its
   * anchor's final window: the C++ weight then agrees with one computed after
   * the whole batch was recorded. Only earlier occurrences of a repeated id see
   * an older window.
   */
  lemma LastOccurrenceWeight(h: History, ds: seq<Reading>, i: nat)
    requires i < |ds|
    requires forall j | i < j < |ds| :: ds[j].id != ds[i].id
    ensures ds[i].id in Updated(h, ds) && Updated(h, ds)[ds[i].id] != []
    ensures StreamingWeights(h, ds)[i] == InverseSquare(Average(Updated(h, ds)[ds[i].id]))
  {
    StreamingWeightAt(h, ds, i);
    UpdatedCovers(h, ds, i);
    FinalWindowOfLast(h, ds, i);
  }

  /** The window of an anchor that does not recur after reading `i` is final once reading `i` is recorded. */
  lemma FinalWindowOfLast(h: History, ds: seq<Reading>, i: nat)
    requires i < |ds|
    requires forall j | i < j < |ds| :: ds[j].id != ds[i].id
    ensures ds[i].id in Updated(h, ds) && ds[i].id in Updated(h, ds[..i + 1])
    ensures Updated(h, ds)[ds[i].id] == Updated(h, ds[..i + 1])[ds[i].id]
  {
    var id := ds[i].id;
    var pre := ds[..i + 1];
    assert Samples(ds, id) == Samples(pre, id) by {
      SamplesAfter(ds, i);
      SamplesSplit(ds, i + 1, id);
    }
    assert pre[i] == ds[i];
    assert id in IdSet(pre) && id in IdSet(ds);
    UpdatedWindow(h, ds, id);
    UpdatedWindow(h, pre, id);
  }

  /** No reading after `i` carries a sample for the anchor of reading `i`. */
  lemma SamplesAfter(ds: seq<Reading>, i: nat)
    requires i < |ds|
    requires forall j | i < j < |ds| :: ds[j].id != ds[i].id
    ensures Samples(ds[i + 1..], ds[i].id) == []
  {
    var rest := ds[i + 1..];
    assert ds[i].id !in IdSet(rest);
    SamplesMembership(rest, ds[i].id);
  }

  /**
   * From empty windows, in a batch without repeated anchors every reading is
   * weighted by its own sample alone.
   */
  lemma {:induction false} FreshWeights(h: History, ds: seq<Reading>)
    requires forall id | id in h :: h[id] == []
    requires DistinctIds(ds)
    ensures forall i | 0 <= i < |ds| :: StreamingWeights(h, ds)[i] == InverseSquare(ds[i].rssi as real)
  {
    forall i | 0 <= i < |ds|
      ensures StreamingWeights(h, ds)[i] == InverseSquare(ds[i].rssi as real)
    {
      LastOccurrenceWeight(h, ds, i);
      FreshWindow(h, ds, i);
      AverageOfOne(ds[i].rssi);
    }
  }

  /** One anchor reported twice in a batch: its first reading is weighted by the one-sample window. */
  lemma RepeatedIdStreaming()
    ensures StreamingWeights(map["ESP32-01" := []], [Reading("ESP32-01", -2), Reading("ESP32-01", -4)])
            == [Finite(0.25), Finite(1.0 / 9.0)]
  {
    var h: History := map["ESP32-01" := []];
    var ds := [Reading("ESP32-01", -2), Reading("ESP32-01", -4)];
    assert ds[..1] == [Reading("ESP32-01", -2)] && ds[..1][..0] == [];
    assert Newest([-2]) == [-2] && Newest([-2, -4]) == [-2, -4];
    assert Updated(h, []) == h;
    assert Updated(h, ds[..1]) == h["ESP32-01" := Newest([] + [-2])];
    assert [] + [-2] == [-2] && [-2] + [-4] == [-2, -4];
    assert Updated(h, ds[..1]) == map["ESP32-01" := [-2]];
    assert Updated(h, ds) == Updated(h, ds[..1])["ESP32-01" := Newest([-2] + [-4])];
    assert [-2, -4][..1] == [-2] && [-2][..0] == [];
    assert Average([-2]) == -2.0;
    assert Average([-2, -4]) == -3.0;
  }

  /** Every finite weight is positive, as an inverse square is. */
  predicate PositiveWeights(ws: seq<ExtReal>)
  {
    forall i | 0 <= i < |ws| && ws[i].Finite? :: ws[i].value > 0.0
  }

  /**
   * The normalisation and combination loop of both C++ estimators over the
   * weights `ws` of the batch, once every coordinate lookup has succeeded
   * (`pm` gives the coordinates): an infinite weight turns the coordinates
   * into NaN, otherwise the weighted centroid is truncated to integers.
   */
  function Combine(pm: map<string, Point>, ds: seq<Reading>, ws: seq<ExtReal>): Result<(int, int), Fault>
    requires |ws| == |ds| && PositiveWeights(ws)
  {
    if Total(ws).Infinite? then Err(NotANumber)
    else
      var c := WeightedCentroid(PositionsOf(pm, ds), Values(ws));
      Ok((Trunc(c.0), Trunc(c.1)))
  }

  /**
   * The combination loop when coordinates are looked up with `std::map::at`:
   * `out_of_range` for the first reading whose anchor `pm` lacks, otherwise
   * `Combine`.
   */
  function CombineChecked(pm: map<string, Point>, ds: seq<Reading>, ws: seq<ExtReal>): Result<(int, int), Fault>
    requires |ws| == |ds| && PositiveWeights(ws)
  {
    var k := FirstMissing(pm, ds);
    if k < |ds| then Err(OutOfRange(ds[k].id)) else Combine(pm, ds, ws)
  }

  /** The normalised weights the combination loop divides by the finite running sum. */
  function Normalised(ws: seq<ExtReal>): (ns: seq<real>)
    requires Total(ws).Finite? && PositiveWeights(ws)
    ensures |ns| == |ws|
    ensures |ws| > 0 ==> Total(ws).value > 0.0
    ensures forall i | 0 <= i < |ws| :: ns[i] == ws[i].value / Total(ws).value
  {
    TotalIsSum(ws);
    SumOfPositives(Values(ws));
    Scale(Values(ws), Total(ws).value)
  }

  /** With a finite running sum, `Combine` truncates the two weighted sums the loop accumulates. */
  lemma CombineFinite(pm: map<string, Point>, ds: seq<Reading>, ws: seq<ExtReal>)
    requires |ws| == |ds| && PositiveWeights(ws) && Total(ws).Finite?
    ensures var ns, ps := Normalised(ws), PositionsOf(pm, ds);
            Combine(pm, ds, ws) == Ok((Trunc(Dot(Xs(ps), ns)), Trunc(Dot(Ys(ps), ns))))
  {
    TotalIsSum(ws);
  }

  /** One more term of a weighted sum. */
  lemma DotStep(cs: seq<int>, ns: seq<real>, i: nat)
    requires |cs| == |ns| && i < |cs|
    ensures Dot(cs[..i + 1], ns[..i + 1]) == Dot(cs[..i], ns[..i]) + cs[i] as real * ns[i]
  {
    assert cs[..i + 1][..i] == cs[..i] && ns[..i + 1][..i] == ns[..i];
  }

  /** `c * w / t`, as the loop evaluates it, is `c` times the normalised weight `w / t`. */
  lemma QuotientOfProduct(c: real, w: real, t: real)
    requires t != 0.0
    ensures c * w / t == c * (w / t)
  {
  }

  /** One term of the accumulation: coordinate times weight over the sum of the weights. */
  function Term(c: int, w: real, t: real): real
    requires t != 0.0
  {
    c as real * w / t
  }

  /** Adding one term to the running sum extends the weighted sum by one reading. */
  lemma AccumulateStep(cs: seq<int>, ns: seq<real>, i: nat, acc: real, c: int, w: real, t: real)
    requires |cs| == |ns| && i < |cs| && t != 0.0
    requires cs[i] == c && ns[i] == w / t && acc == Dot(cs[..i], ns[..i])
    ensures acc + Term(c, w, t) == Dot(cs[..i + 1], ns[..i + 1])
  {
    DotStep(cs, ns, i);
    QuotientOfProduct(c as real, w, t);
  }

  /** A weight is infinite exactly when its anchor's window, at the moment it was taken, averaged to zero. */
  lemma StreamingInfinite(h: History, ds: seq<Reading>, i: nat)
    requires i < |ds|
    ensures ds[i].id in Updated(h, ds[..i + 1]) && Updated(h, ds[..i + 1])[ds[i].id] != []
    ensures StreamingWeights(h, ds)[i].Infinite? <==> Average(Updated(h, ds[..i + 1])[ds[i].id]) == 0.0
  {
    StreamingWeightAt(h, ds, i);
  }

  /** An empty batch divides nothing: the coordinates stay at the origin. */
  lemma CombineEmpty(pm: map<string, Point>)
    ensures Combine(pm, [], []) == Ok((0, 0))
  {
    assert WeightedCentroid([], []) == (0.0, 0.0);
  }

  /** The coordinates are NaN exactly when some weight is infinite; otherwise a position results. */
  lemma CombineNaN(pm: map<string, Point>, ds: seq<Reading>, ws: seq<ExtReal>)
    requires |ws| == |ds| && PositiveWeights(ws)
    ensures Combine(pm, ds, ws) == Err(NotANumber) <==> exists i | 0 <= i < |ws| :: ws[i].Infinite?
    ensures Combine(pm, ds, ws).Ok? <==> forall i | 0 <= i < |ws| :: ws[i].Finite?
  {
  }

  /**
   * A position lies within every box holding the coordinates of all the
   * batch's anchors (those `pm` lacks counting as the origin).
   */
  lemma CombineInBox(pm: map<string, Point>, ds: seq<Reading>, ws: seq<ExtReal>, lo: Point, hi: Point)
    requires |ws| == |ds| > 0 && PositiveWeights(ws)
    requires forall i | 0 <= i < |ds| ::
               lo.0 <= PositionsOf(pm, ds)[i].0 <= hi.0 && lo.1 <= PositionsOf(pm, ds)[i].1 <= hi.1
    ensures Combine(pm, ds, ws).Ok? ==>
              lo.0 <= Combine(pm, ds, ws).value.0 <= hi.0 && lo.1 <= Combine(pm, ds, ws).value.1 <= hi.1
  {
    if Total(ws).Finite? {
      var ps, vs := PositionsOf(pm, ds), Values(ws);
      CentroidInBox(ps, vs, lo, hi);
      var c := WeightedCentroid(ps, vs);
      TruncInRange(c.0, lo.0, hi.0);
      TruncInRange(c.1, lo.1, hi.1);
    }
  }

  /** A single reading with a finite weight places the position exactly on its anchor. */
  lemma CombineSingle(pm: map<string, Point>, d: Reading, w: real)
    requires w > 0.0
    ensures Combine(pm, [d], [Finite(w)]) == Ok(PositionsOf(pm, [d])[0])
  {
    var p := PositionsOf(pm, [d])[0];
    assert PositionsOf(pm, [d]) == [p];
    assert Values([Finite(w)]) == [w];
    CentroidOfOne(p, w);
    TruncOfInt(p.0);
    TruncOfInt(p.1);
  }

  /**
   * The state of the combination loop after its first `i` readings: NaN once
   * an infinite weight was met; with a finite sum, `x` and `y` are the
   * weighted sums of the first `i` coordinates.
   */
  ghost predicate Accumulated(ws: seq<ExtReal>, sum: ExtReal, ps: seq<Point>, i: nat, x: real, y: real, nan: bool)
    requires |ps| == |ws| && PositiveWeights(ws) && sum == Total(ws) && i <= |ws|
  {
    && (nan <==> exists j | 0 <= j < i :: ws[j].Infinite?)
    && (sum.Finite? ==> x == Dot(Xs(ps)[..i], Normalised(ws)[..i]) && y == Dot(Ys(ps)[..i], Normalised(ws)[..i]))
  }

  /**
   * One iteration of the combination loop, for the reading at `i` whose
   * anchor has the coordinates `pos`: `x += pos.first * weights[i] / sum_weights`
   * and likewise for `y`. An infinite weight makes the product NaN; a finite
   * weight over an infinite sum adds zero.
   */
  method Accumulate(ws: seq<ExtReal>, sum: ExtReal, ghost ps: seq<Point>, i: nat, pos: Point, x: real, y: real, nan: bool)
    returns (x': real, y': real, nan': bool)
    requires |ps| == |ws| && PositiveWeights(ws) && sum == Total(ws) && i < |ws|
    requires pos == ps[i] && Accumulated(ws, sum, ps, i, x, y, nan)
    ensures Accumulated(ws, sum, ps, i + 1, x', y', nan')
  {
    x', y', nan' := x, y, nan;
    if ws[i].Infinite? {
      nan' := true;
    } else if sum.Finite? {
      var ns := Normalised(ws);
      AccumulateStep(Xs(ps), ns, i, x, pos.0, ws[i].value, sum.value);
      AccumulateStep(Ys(ps), ns, i, y, pos.1, ws[i].value, sum.value);
      x' := x + Term(pos.0, ws[i].value, sum.value);
      y' := y + Term(pos.1, ws[i].value, sum.value);
    }
  }

  /** The loop starts with nothing accumulated. */
  lemma AccumulatedStart(ws: seq<ExtReal>, sum: ExtReal, ps: seq<Point>)
    requires |ps| == |ws| && PositiveWeights(ws) && sum == Total(ws)
    ensures Accumulated(ws, sum, ps, 0, 0.0, 0.0, false)
  {
  }

  /** After the last reading the loop's outcome is `Combine`'s. */
  lemma AccumulatedResult(pm: map<string, Point>, ds: seq<Reading>, ws: seq<ExtReal>, x: real, y: real, nan: bool)
    requires |ws| == |ds| && PositiveWeights(ws)
    requires Accumulated(ws, Total(ws), PositionsOf(pm, ds), |ds|, x, y, nan)
    ensures Combine(pm, ds, ws) == if nan then Err(NotANumber) else Ok((Trunc(x), Trunc(y)))
  {
    var ps := PositionsOf(pm, ds);
    if !nan {
      var ns := Normalised(ws);
      CombineFinite(pm, ds, ws);
      assert Xs(ps)[..|ds|] == Xs(ps) && Ys(ps)[..|ds|] == Ys(ps) && ns[..|ds|] == ns;
    }
  }
}
