/**
 * The C++ estimator (Operations.cpp). The anchor table is a constant; the
 * per-anchor history is the state of a `Tracker`. Each reading's weight is
 * computed right after its own sample was recorded; the coordinates are then
 * looked up with `std::map::at`, which throws `out_of_range` for an anchor
 * missing from the table, after every history was already updated.
 */
module CppOperations {
  import opened Window
  import opened Centroid
  import opened Readings
  import opened Outcome
  import opened Streaming

  /** `DEVICE_POSITIONS`. */
  const DevicePositions: map<string, Point> := map["ESP32-01" := (0, 0), "ESP32-02" := (8, 0), "ESP32-03" := (4, 4)]

  /** The history at start-up: one empty window per configured anchor. */
  const InitialHistory: History := map["ESP32-01" := [], "ESP32-02" := [], "ESP32-03" := []]

  /**
   * `get_average_rssi`: the mean of an anchor's window. An empty window, or an
   * anchor with none (which `operator[]` would insert empty), gives `0 / 0`,
   * a NaN.
   */
  function GetAverageRssi(h: History, id: string): (r: Result<real, Fault>)
    ensures r.Err? <==> Lookup(h, id) == []
    ensures r.Err? ==> r.error == NotANumber
    ensures r.Ok? ==> r.value * |h[id]| as real == Sum(h[id]) as real
  {
    if Lookup(h, id) == [] then Err(NotANumber) else Ok(Average(h[id]))
  }

  class Tracker {
    /** `device_rssi_history`. */
    var history: History

    /** Every window is within capacity. */
    ghost predicate Valid()
      reads this
    {
      Bounded(history)
    }

    constructor ()
      ensures Valid() && history == InitialHistory
    {
      history := InitialHistory;
    }

    /**
     * The body of the first loop for one reading: `operator[]` (inserting an
     * empty window for an unseen anchor), `push_back`, one conditional erase of
     * the oldest sample, then the weight `1 / pow(average, 2)`.
     */
    method Record(d: Reading) returns (w: ExtReal)
      requires Valid()
      modifies this
      ensures Valid()
      ensures history == old(history)[d.id := Newest(Lookup(old(history), d.id) + [d.rssi])]
      ensures GetAverageRssi(history, d.id).Ok?
      ensures w == InverseSquare(GetAverageRssi(history, d.id).value)
    {
      var window := Lookup(history, d.id);
      window := Push(window, d.rssi);
      history := history[d.id := window];
      w := InverseSquare(Average(history[d.id]));
    }

    /**
     * `calculate_position`: record every reading, weighting each from its
     * anchor's window at that moment and summing the weights; then accumulate
     * `x` and `y`, looking each anchor up with `at`.
     */
    method CalculatePosition(devices: seq<Reading>) returns (r: Result<(int, int), Fault>)
      requires Valid()
      modifies this
      ensures Valid()
      ensures history == Updated(old(history), devices)
      ensures r == Estimate(old(history), devices)
    {
      ghost var h0 := history;
      var weights: seq<ExtReal> := [];
      var sumWeights := Finite(0.0);
      for i := 0 to |devices|
        invariant Valid()
        invariant history == Updated(h0, devices[..i])
        invariant weights == StreamingWeights(h0, devices[..i])
        invariant sumWeights == Total(weights)
      {
        var w := Record(devices[i]);
        UpdatedStep(h0, devices, i);
        StreamingStep(h0, devices, i);
        TotalSnoc(weights, w);
        weights := weights + [w];
        sumWeights := Add(sumWeights, w);
      }
      assert devices[..|devices|] == devices;
      r := Combination(DevicePositions, devices, weights, sumWeights);
    }
  }

  /**
   * The second loop of `calculate_position`, over the weights of the first:
   * `out_of_range` at the first anchor without coordinates; a NaN from the
   * first infinite weight on; otherwise the running sums of coordinate times
   * weight over the total.
   */
  method Combination(positions: map<string, Point>, devices: seq<Reading>, weights: seq<ExtReal>, sumWeights: ExtReal)
    returns (r: Result<(int, int), Fault>)
    requires |weights| == |devices| && PositiveWeights(weights) && sumWeights == Total(weights)
    ensures r == CombineChecked(positions, devices, weights)
  {
    ghost var ps := PositionsOf(positions, devices);
    var x, y := 0.0, 0.0;
    var nan := false;
    AccumulatedStart(weights, sumWeights, ps);
    for i := 0 to |devices|
      invariant forall j | 0 <= j < i :: devices[j].id in positions
      invariant Accumulated(weights, sumWeights, ps, i, x, y, nan)
    {
      if devices[i].id !in positions {
        FirstMissingAt(positions, devices, i);
        return Err(OutOfRange(devices[i].id));
      }
      var pos := positions[devices[i].id];
      x, y, nan := Accumulate(weights, sumWeights, ps, i, pos, x, y, nan);
    }
    FirstMissingAt(positions, devices, |devices|);
    AccumulatedResult(positions, devices, weights, x, y, nan);
    if nan {
      return Err(NotANumber);
    }
    r := Ok((Trunc(x), Trunc(y)));
  }

  /** What `calculate_position` returns for the batch `ds` from the history `h`. */
  function Estimate(h: History, ds: seq<Reading>): Result<(int, int), Fault>
  {
    CombineChecked(DevicePositions, ds, StreamingWeights(h, ds))
  }

  /** An empty batch yields the origin. */
  lemma EstimateEmpty(h: History)
    ensures Estimate(h, []) == Ok((0, 0))
  {
    CombineEmpty(DevicePositions);
  }

  /**
   * `at` throws exactly when some reading names an anchor missing from the
   * table, and it names the first such reading.
   */
  lemma EstimateUnknownAnchor(h: History, ds: seq<Reading>)
    ensures Estimate(h, ds).Err? && Estimate(h, ds).error.OutOfRange?
            <==> exists i | 0 <= i < |ds| :: ds[i].id !in DevicePositions
    ensures Estimate(h, ds).Err? && Estimate(h, ds).error.OutOfRange? ==>
              exists i | 0 <= i < |ds| :: ds[i].id == Estimate(h, ds).error.key && ds[i].id !in DevicePositions
                && forall j | 0 <= j < i :: ds[j].id in DevicePositions
  {
    var k := FirstMissing(DevicePositions, ds);
    if k == |ds| {
      CombineNaN(DevicePositions, ds, StreamingWeights(h, ds));
    }
  }

  /**
   * With every anchor known, the coordinates are NaN exactly when some
   * reading's anchor window, just after that reading was recorded, averaged to
   * zero.
   */
  lemma EstimateNaN(h: History, ds: seq<Reading>)
    requires forall i | 0 <= i < |ds| :: ds[i].id in DevicePositions
    ensures forall i | 0 <= i < |ds| :: ds[i].id in Updated(h, ds[..i + 1]) && Updated(h, ds[..i + 1])[ds[i].id] != []
    ensures Estimate(h, ds) == Err(NotANumber)
            <==> exists i | 0 <= i < |ds| :: Average(Updated(h, ds[..i + 1])[ds[i].id]) == 0.0
    ensures Estimate(h, ds).Ok? || Estimate(h, ds) == Err(NotANumber)
  {
    var ws := StreamingWeights(h, ds);
    forall i | 0 <= i < |ds|
      ensures ds[i].id in Updated(h, ds[..i + 1]) && Updated(h, ds[..i + 1])[ds[i].id] != []
      ensures ws[i].Infinite? <==> Average(Updated(h, ds[..i + 1])[ds[i].id]) == 0.0
    {
      StreamingInfinite(h, ds, i);
    }
    FirstMissingAt(DevicePositions, ds, |ds|);
    CombineNaN(DevicePositions, ds, ws);
  }

  /** A position always lies within the anchors' bounding box, 0..8 by 0..4. */
  lemma EstimateWithinAnchors(h: History, ds: seq<Reading>)
    ensures Estimate(h, ds).Ok? ==> 0 <= Estimate(h, ds).value.0 <= 8 && 0 <= Estimate(h, ds).value.1 <= 4
  {
    if ds == [] {
      EstimateEmpty(h);
    } else if FirstMissing(DevicePositions, ds) == |ds| {
      var ps := PositionsOf(DevicePositions, ds);
      forall i | 0 <= i < |ds|
        ensures 0 <= ps[i].0 <= 8 && 0 <= ps[i].1 <= 4
      {
        assert ps[i] == DevicePositions[ds[i].id];
      }
      CombineInBox(DevicePositions, ds, StreamingWeights(h, ds), (0, 0), (8, 4));
    }
  }

  /** A single reading of a known anchor whose updated window does not average to zero yields that anchor. */
  lemma EstimateSingle(h: History, d: Reading)
    requires d.id in DevicePositions
    requires Average(Newest(Lookup(h, d.id) + [d.rssi])) != 0.0
    ensures Estimate(h, [d]) == Ok(DevicePositions[d.id])
  {
    var ws := StreamingWeights(h, [d]);
    StreamingWeightAt(h, [d], 0);
    assert [d][..1] == [d] && [d][..0] == [];
    assert Updated(h, [d]) == h[d.id := Newest(Lookup(h, d.id) + [d.rssi])];
    assert ws == [Finite(ws[0].value)];
    assert FirstMissing(DevicePositions, [d]) == 1;
    CombineSingle(DevicePositions, d, ws[0].value);
  }

  /** From start-up, every reading of the example batch is weighted by a one-sample window: 1/4, 1/4 and 1/16. */
  lemma ExampleWeights()
    ensures StreamingWeights(InitialHistory, ExampleBatch) == [Finite(0.25), Finite(0.25), Finite(0.0625)]
  {
    ExampleDistinct();
    FreshWeights(InitialHistory, ExampleBatch);
  }

  /** The example's weights place the batch at (4, 4/9), which truncates to (4, 0). */
  lemma ExampleCombination()
    ensures Combine(DevicePositions, ExampleBatch, [Finite(0.25), Finite(0.25), Finite(0.0625)]) == Ok((4, 0))
  {
    var ws := [Finite(0.25), Finite(0.25), Finite(0.0625)];
    CentroidExample();
    TotalIsSum(ws);
    assert Values(ws) == [0.25, 0.25, 0.0625];
    assert PositionsOf(DevicePositions, ExampleBatch) == [(0, 0), (8, 0), (4, 4)];
    assert Trunc(4.0) == 4 && Trunc(4.0 / 9.0) == 0;
  }

  /** From start-up, the example batch's position (4, 4/9) truncates to (4, 0). */
  lemma WorkedExample()
    ensures Estimate(InitialHistory, ExampleBatch) == Ok((4, 0))
  {
    ExampleWeights();
    assert FirstMissing(DevicePositions, ExampleBatch) == 3;
    ExampleCombination();
  }
}
