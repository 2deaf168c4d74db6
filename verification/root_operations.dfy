/**
 * The C++ estimator as found in Operations_ROOT.cpp. Both tables are mutable
 * state and start empty: every access goes through `operator[]`, so an unseen
 * anchor gets an empty window in the first loop and the coordinates `(0, 0)`
 * in the second. Nothing fills the coordinate table, so from start-up every
 * position is the origin (or NaN).
 */
module RootOperations {
  import opened Window
  import opened Centroid
  import opened Readings
  import opened Outcome
  import opened Streaming

  /** Every anchor of the table sits at the origin. */
  predicate AllAtOrigin(pm: map<string, Point>)
  {
    forall id | id in pm :: pm[id] == (0, 0)
  }

  /** What `calculate_position` returns for the batch `ds` from the tables `pm` and `h`. */
  function Estimate(pm: map<string, Point>, h: History, ds: seq<Reading>): Result<(int, int), Fault>
  {
    Combine(pm, ds, StreamingWeights(h, ds))
  }

  class Tracker {
    /** `device_rssi_history`. */
    var history: History
    /** `device_positions`. */
    var positions: map<string, Point>

    /** Every window is within capacity. */
    ghost predicate Valid()
      reads this
    {
      Bounded(history)
    }

    /** Both global tables start empty. */
    constructor ()
      ensures Valid() && history == map[] && positions == map[]
    {
      history := map[];
      positions := map[];
    }

    /**
     * The body of the first loop for one reading: `operator[]` (inserting an
     * empty window for an unseen anchor), `push_back`, one conditional erase of
     * the oldest sample, then the weight `1 / pow(average, 2)`.
     */
    method Record(d: Reading) returns (w: ExtReal)
      requires Valid()
      modifies this
      ensures Valid() && positions == old(positions)
      ensures history == old(history)[d.id := Newest(Lookup(old(history), d.id) + [d.rssi])]
      ensures w == InverseSquare(Average(history[d.id]))
    {
      var window := Lookup(history, d.id);
      window := Push(window, d.rssi);
      history := history[d.id := window];
      w := InverseSquare(Average(history[d.id]));
    }

    /**
     * `calculate_position`: record every reading, weighting each from its
     * anchor's window at that moment and summing the weights; then accumulate
     * `x` and `y`, looking each anchor up with `operator[]`.
     */
    method CalculatePosition(devices: seq<Reading>) returns (r: Result<(int, int), Fault>)
      requires Valid()
      modifies this
      ensures Valid()
      ensures history == Updated(old(history), devices)
      ensures positions == WithDefaults(old(positions), devices)
      ensures r == Estimate(old(positions), old(history), devices)
    {
      ghost var h0 := history;
      var weights: seq<ExtReal> := [];
      var sumWeights := Finite(0.0);
      for i := 0 to |devices|
        invariant Valid() && positions == old(positions)
        invariant history == Updated(h0, devices[..i])
        invariant weights == StreamingWeights(h0, devices[..i])
        invariant sumWeights == Total(weights)
      {
        var w := Record(devices[i]);
        UpdatedStep(h0, devices, i);
        StreamingStep(h0, devices, i);
        TotalSnoc(weights, w);
        weights := weights + [w];
        sumWeights := Add(sumWeights, w);
      }
      assert devices[..|devices|] == devices;
      r := Combination(devices, weights, sumWeights);
    }

    /** `device_positions[id]`: the coordinates of `id`, inserted as `(0, 0)` when absent. */
    method PositionOf(id: string) returns (pos: Point)
      modifies this
      ensures history == old(history)
      ensures positions == if id in old(positions) then old(positions) else old(positions)[id := (0, 0)]
      ensures pos == if id in old(positions) then old(positions)[id] else (0, 0)
    {
      if id !in positions {
        positions := positions[id := (0, 0)];
      }
      pos := positions[id];
    }

    /**
     * The second loop of `calculate_position`: each lookup inserts `(0, 0)`
     * for an unseen anchor; a NaN from the first infinite weight on; otherwise
     * the running sums of coordinate times weight over the total.
     */
    method Combination(devices: seq<Reading>, weights: seq<ExtReal>, sumWeights: ExtReal)
      returns (r: Result<(int, int), Fault>)
      requires |weights| == |devices| && PositiveWeights(weights) && sumWeights == Total(weights)
      modifies this
      ensures history == old(history)
      ensures positions == WithDefaults(old(positions), devices)
      ensures r == Combine(old(positions), devices, weights)
    {
      ghost var p0 := positions;
      ghost var ps := PositionsOf(p0, devices);
      var x, y := 0.0, 0.0;
      var nan := false;
      AccumulatedStart(weights, sumWeights, ps);
      for i := 0 to |devices|
        invariant history == old(history)
        invariant positions == WithDefaults(p0, devices[..i])
        invariant Accumulated(weights, sumWeights, ps, i, x, y, nan)
      {
        WithDefaultsStep(p0, devices, i);
        DefaultLookup(p0, devices, i);
        var pos := PositionOf(devices[i].id);
        x, y, nan := Accumulate(weights, sumWeights, ps, i, pos, x, y, nan);
      }
      assert devices[..|devices|] == devices;
      AccumulatedResult(p0, devices, weights, x, y, nan);
      if nan {
        return Err(NotANumber);
      }
      r := Ok((Trunc(x), Trunc(y)));
    }
  }

  /** Lookups only insert the origin: a table of origins stays one. */
  lemma DefaultsAtOrigin(pm: map<string, Point>, ds: seq<Reading>)
    requires AllAtOrigin(pm)
    ensures AllAtOrigin(WithDefaults(pm, ds))
  {
  }

  /** With every anchor at the origin, the only possible outcomes are the origin and NaN. */
  lemma EstimateAtOrigin(pm: map<string, Point>, h: History, ds: seq<Reading>)
    requires AllAtOrigin(pm)
    ensures Estimate(pm, h, ds) == Ok((0, 0)) || Estimate(pm, h, ds) == Err(NotANumber)
  {
    var ws := StreamingWeights(h, ds);
    CombineNaN(pm, ds, ws);
    if ds == [] {
      CombineEmpty(pm);
    } else {
      var ps := PositionsOf(pm, ds);
      forall i | 0 <= i < |ds|
        ensures ps[i] == (0, 0)
      {
      }
      CombineInBox(pm, ds, ws, (0, 0), (0, 0));
    }
  }

  /**
   * The coordinates are NaN exactly when some reading's anchor window, just
   * after that reading was recorded, averaged to zero; otherwise a position
   * results.
   */
  lemma EstimateNaN(pm: map<string, Point>, h: History, ds: seq<Reading>)
    ensures forall i | 0 <= i < |ds| :: ds[i].id in Updated(h, ds[..i + 1]) && Updated(h, ds[..i + 1])[ds[i].id] != []
    ensures Estimate(pm, h, ds) == Err(NotANumber)
            <==> exists i | 0 <= i < |ds| :: Average(Updated(h, ds[..i + 1])[ds[i].id]) == 0.0
    ensures Estimate(pm, h, ds).Ok? || Estimate(pm, h, ds) == Err(NotANumber)
  {
    var ws := StreamingWeights(h, ds);
    forall i | 0 <= i < |ds|
      ensures ds[i].id in Updated(h, ds[..i + 1]) && Updated(h, ds[..i + 1])[ds[i].id] != []
      ensures ws[i].Infinite? <==> Average(Updated(h, ds[..i + 1])[ds[i].id]) == 0.0
    {
      StreamingInfinite(h, ds, i);
    }
    CombineNaN(pm, ds, ws);
  }

  /** From the empty start-up tables, the example batch is placed at the origin. */
  lemma WorkedExample()
    ensures Estimate(map[], map[], ExampleBatch) == Ok((0, 0))
  {
    var ds := ExampleBatch;
    var h: History := map[];
    ExampleDistinct();
    FreshWeights(h, ds);
    var ws := StreamingWeights(h, ds);
    assert forall i | 0 <= i < |ds| :: ws[i].Finite?;
    CombineNaN(map[], ds, ws);
    EstimateAtOrigin(map[], h, ds);
  }
}
