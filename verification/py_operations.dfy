/**
 * The Python estimator (Operations.py). The module-level tables become the
 * fields of a `Tracker`: the fixed anchor positions and the per-anchor RSSI
 * history. `calculate_position` first records every reading of the batch,
 * raising `KeyError` at the first unknown anchor (after the earlier readings
 * were recorded), and only then computes all weights from the updated windows;
 * a zero average raises `ZeroDivisionError`.
 */
module PyOperations {
  import opened Window
  import opened Centroid
  import opened Readings
  import opened Outcome

  /** The exceptions the estimator can raise. */
  datatype PyError = KeyError(key: string) | ZeroDivisionError

  /** The configured anchor table. */
  const DevicePositions: map<string, Point> := map["ESP32-01" := (0, 0), "ESP32-02" := (8, 0), "ESP32-03" := (4, 4)]

  /** The history at start-up: one empty window per configured anchor. */
  const InitialHistory: History := map["ESP32-01" := [], "ESP32-02" := [], "ESP32-03" := []]

  /** `get_average_rssi`: the mean of the reading's window, with the exceptions Python raises. */
  function GetAverageRssi(history: History, d: Reading): (r: Result<real, PyError>)
    ensures r == Err(KeyError(d.id)) <==> d.id !in history
    ensures r == Err(ZeroDivisionError) <==> d.id in history && history[d.id] == []
    ensures r.Ok? ==> r.value * |history[d.id]| as real == Sum(history[d.id]) as real
  {
    if d.id !in history then Err(KeyError(d.id))
    else if history[d.id] == [] then Err(ZeroDivisionError)
    else Ok(Average(history[d.id]))
  }

  /** One element of the weights list: `1/(get_average_rssi(device)**2)`. */
  function Weight(history: History, d: Reading): (r: Result<real, PyError>)
    ensures r.Ok? <==> d.id in history && history[d.id] != [] && Average(history[d.id]) != 0.0
    ensures r.Ok? ==> r.value > 0.0 && InverseSquare(Average(history[d.id])) == Finite(r.value)
  {
    match GetAverageRssi(history, d)
    case Err(e) => Err(e)
    case Ok(avg) =>
      match InverseSquare(avg)
      case Infinite => Err(ZeroDivisionError)
      case Finite(w) => Ok(w)
  }

  /** The weights list, built left to right: the first failing reading's exception propagates. */
  function Weights(history: History, ds: seq<Reading>): (r: Result<seq<real>, PyError>)
    ensures r.Ok? <==> forall i | 0 <= i < |ds| :: Weight(history, ds[i]).Ok?
    ensures r.Ok? ==> |r.value| == |ds| && forall i | 0 <= i < |ds| :: Weight(history, ds[i]) == Ok(r.value[i])
    ensures r.Err? ==> exists i | 0 <= i < |ds| ::
              Weight(history, ds[i]) == Err(r.error) && forall j | 0 <= j < i :: Weight(history, ds[j]).Ok?
  {
    if ds == [] then Ok([])
    else
      match Weight(history, ds[0])
      case Err(e) => Err(e)
      case Ok(w) =>
        match Weights(history, ds[1..])
        case Err(e) => Err(e)
        case Ok(ws) => Ok([w] + ws)
  }

  /**
   * The weighting, normalisation and combination steps of `calculate_position`,
   * run on the already updated history: weights, then the position lookups
   * (a `KeyError` for an anchor without coordinates), then the centroid.
   */
  function Position(positions: map<string, Point>, history: History, ds: seq<Reading>): Result<(real, real), PyError>
  {
    match Weights(history, ds)
    case Err(e) => Err(e)
    case Ok(ws) =>
      var k := FirstMissing(positions, ds);
      if k < |ds| then Err(KeyError(ds[k].id)) else Ok(WeightedCentroid(PositionsOf(positions, ds), ws))
  }

  class Tracker {
    /** Anchor id to its fixed coordinates. */
    const positions: map<string, Point>
    /** Anchor id to its window of recent samples. */
    var history: History

    /** Histories exist exactly for the configured anchors and stay within capacity. */
    ghost predicate Valid()
      reads this
    {
      history.Keys == positions.Keys && Bounded(history)
    }

    constructor ()
      ensures Valid()
      ensures positions == DevicePositions && history == InitialHistory
    {
      positions := DevicePositions;
      history := InitialHistory;
    }

    /**
     * Record one reading: append its sample, keep the newest five. An unknown
     * anchor raises `KeyError` (`ok` is false) and nothing changes.
     */
    method Record(d: Reading) returns (ok: bool)
      requires Valid()
      modifies this
      ensures Valid()
      ensures ok <==> d.id in old(history)
      ensures history == if ok then old(history)[d.id := Newest(old(history)[d.id] + [d.rssi])] else old(history)
    {
      if d.id !in history {
        return false;
      }
      history := history[d.id := history[d.id] + [d.rssi]];
      history := history[d.id := Newest(history[d.id])];
      return true;
    }

    /**
     * The recording loop of `calculate_position`: record the readings in
     * order; `k` is the index of the reading whose unknown anchor raised
     * `KeyError`, or `|devices|` when all were recorded.
     */
    method RecordBatch(devices: seq<Reading>) returns (k: nat)
      requires Valid()
      modifies this
      ensures Valid()
      ensures k == FirstMissing(old(history), devices)
      ensures history == Updated(old(history), devices[..k])
    {
      ghost var h0 := history;
      k := 0;
      while k < |devices|
        invariant k <= |devices|
        invariant Valid() && history.Keys == h0.Keys
        invariant forall j | 0 <= j < k :: devices[j].id in h0
        invariant history == Updated(h0, devices[..k])
      {
        var ok := Record(devices[k]);
        if !ok {
          FirstMissingAt(h0, devices, k);
          return;
        }
        UpdatedStep(h0, devices, k);
        k := k + 1;
      }
      FirstMissingAt(h0, devices, k);
    }

    /**
     * `calculate_position`: record the readings, stopping with `KeyError` at
     * the first unknown anchor, then weight every reading by its anchor's
     * updated window and combine the anchors' coordinates.
     */
    method CalculatePosition(devices: seq<Reading>) returns (r: Result<(real, real), PyError>)
      requires Valid()
      modifies this
      ensures Valid()
      ensures var k := FirstMissing(old(history), devices);
              && history == Updated(old(history), devices[..k])
              && r == if k < |devices| then Err(KeyError(devices[k].id)) else Position(positions, history, devices)
    {
      var k := RecordBatch(devices);
      if k < |devices| {
        r := Err(KeyError(devices[k].id));
      } else {
        assert devices[..k] == devices;
        r := Position(positions, history, devices);
      }
    }
  }

  /**
   * Once every reading has been recorded, no lookup fails: the estimate is an
   * error exactly when some reading's anchor averages to zero, and then it is
   * `ZeroDivisionError`.
   */
  lemma PositionAfterRecording(positions: map<string, Point>, h: History, ds: seq<Reading>)
    requires h.Keys == positions.Keys
    requires forall i | 0 <= i < |ds| :: ds[i].id in h
    ensures var u := Updated(h, ds);
            forall i | 0 <= i < |ds| :: ds[i].id in u && u[ds[i].id] != []
    ensures var u := Updated(h, ds);
            Position(positions, u, ds).Ok? <==> forall i | 0 <= i < |ds| :: Average(u[ds[i].id]) != 0.0
    ensures Position(positions, Updated(h, ds), ds).Err? ==> Position(positions, Updated(h, ds), ds).error == ZeroDivisionError
  {
    var u := Updated(h, ds);
    forall i | 0 <= i < |ds|
      ensures ds[i].id in u && u[ds[i].id] != []
    {
      UpdatedCovers(h, ds, i);
    }
    assert FirstMissing(positions, ds) == |ds|;
  }

  /** Two readings of the same anchor in one batch get the same weight. */
  lemma RepeatedIdSameWeight(history: History, ds: seq<Reading>, i: nat, j: nat)
    requires i < |ds| && j < |ds| && ds[i].id == ds[j].id
    requires Weights(history, ds).Ok?
    ensures Weights(history, ds).value[i] == Weights(history, ds).value[j]
  {
  }

  /** The batch that reports the anchor ESP32-01 twice, with samples -2 and -4. */
  const RepeatedBatch: seq<Reading> := [Reading("ESP32-01", -2), Reading("ESP32-01", -4)]

  /** Recording that batch from start-up leaves ESP32-01 with the two-sample window [-2, -4]. */
  lemma RepeatedWindow()
    ensures "ESP32-01" in Updated(InitialHistory, RepeatedBatch)
    ensures Updated(InitialHistory, RepeatedBatch)["ESP32-01"] == [-2, -4]
  {
    var ds := RepeatedBatch;
    assert ds[..1] == [ds[0]] && ds[..1][..0] == [] && ds[..0] == [];
    assert Samples(ds, "ESP32-01") == [-2, -4];
    assert "ESP32-01" in IdSet(ds);
    UpdatedWindow(InitialHistory, ds, "ESP32-01");
    assert Lookup(InitialHistory, "ESP32-01") + [-2, -4] == [-2, -4];
  }

  /** The same anchor reported twice: both readings are weighted by the two-sample window (average -3). */
  lemma RepeatedIdAfterRecording()
    ensures Weights(Updated(InitialHistory, RepeatedBatch), RepeatedBatch) == Ok([1.0 / 9.0, 1.0 / 9.0])
  {
    var ds := RepeatedBatch;
    var u := Updated(InitialHistory, ds);
    RepeatedWindow();
    assert [-2, -4][..1] == [-2] && [-2][..0] == [];
    assert Average(u["ESP32-01"]) == -3.0;
    assert Weight(u, ds[0]) == Ok(1.0 / 9.0) && Weight(u, ds[1]) == Ok(1.0 / 9.0);
    var ws := Weights(u, ds);
    assert ws.value[0] == 1.0 / 9.0 && ws.value[1] == 1.0 / 9.0;
    assert ws.value == [1.0 / 9.0, 1.0 / 9.0];
  }

  /** An empty batch divides nothing and yields the origin. */
  lemma PositionEmpty(positions: map<string, Point>, history: History)
    ensures Position(positions, history, []) == Ok((0.0, 0.0))
  {
  }

  /** A single reading with a non-zero average yields exactly its anchor's coordinates. */
  lemma PositionSingle(positions: map<string, Point>, history: History, d: Reading)
    requires d.id in positions && d.id in history && history[d.id] != []
    requires Average(history[d.id]) != 0.0
    ensures Position(positions, history, [d]) == Ok((positions[d.id].0 as real, positions[d.id].1 as real))
  {
    var w := Weight(history, d).value;
    assert Weights(history, [d]) == Ok([w]) by {
      assert [d][0] == d && [d][1..] == [];
      assert Weights(history, []) == Ok([]);
      assert [w] + [] == [w];
    }
    assert PositionsOf(positions, [d]) == [positions[d.id]];
    CentroidOfOne(positions[d.id], w);
  }

  /**
   * For a non-empty batch the estimate lies within every box containing the
   * anchors of the batch: it is a convex combination of their coordinates.
   */
  lemma PositionInBox(positions: map<string, Point>, history: History, ds: seq<Reading>, lo: Point, hi: Point)
    requires |ds| > 0
    requires forall i | 0 <= i < |ds| && ds[i].id in positions ::
               lo.0 <= positions[ds[i].id].0 <= hi.0 && lo.1 <= positions[ds[i].id].1 <= hi.1
    requires Position(positions, history, ds).Ok?
    ensures var c := Position(positions, history, ds).value;
            lo.0 as real <= c.0 <= hi.0 as real && lo.1 as real <= c.1 <= hi.1 as real
  {
    var ws := Weights(history, ds).value;
    CentroidInBox(PositionsOf(positions, ds), ws, lo, hi);
  }

  /** A reading whose anchor's window holds just its own non-zero sample weighs the inverse square of that sample. */
  lemma OneSampleWeight(history: History, d: Reading)
    requires d.id in history && history[d.id] == [d.rssi] && d.rssi != 0
    ensures Weight(history, d).Ok? && Finite(Weight(history, d).value) == InverseSquare(d.rssi as real)
  {
    AverageOfOne(d.rssi);
  }

  /**
   * From empty windows, a batch without repeated anchors and without zero
   * samples weighs each reading by the inverse square of its own sample.
   */
  lemma FreshWeights(h: History, ds: seq<Reading>)
    requires forall id | id in h :: h[id] == []
    requires DistinctIds(ds)
    requires forall i | 0 <= i < |ds| :: ds[i].rssi != 0
    ensures forall i | 0 <= i < |ds| :: Weight(Updated(h, ds), ds[i]).Ok?
    ensures forall i | 0 <= i < |ds| ::
              Finite(Weight(Updated(h, ds), ds[i]).value) == InverseSquare(ds[i].rssi as real)
  {
    forall i | 0 <= i < |ds|
      ensures Weight(Updated(h, ds), ds[i]).Ok?
      ensures Finite(Weight(Updated(h, ds), ds[i]).value) == InverseSquare(ds[i].rssi as real)
    {
      FreshWindow(h, ds, i);
      OneSampleWeight(Updated(h, ds), ds[i]);
    }
  }

  /** After the example batch from start-up, its readings weigh 1/4, 1/4 and 1/16. */
  lemma ExampleWeights()
    ensures Weights(Updated(InitialHistory, ExampleBatch), ExampleBatch) == Ok([0.25, 0.25, 0.0625])
  {
    var ds := ExampleBatch;
    ExampleDistinct();
    FreshWeights(InitialHistory, ds);
    CentroidExample();
    InverseSquareEven(2.0);
    InverseSquareEven(4.0);
    var ws := Weights(Updated(InitialHistory, ds), ds);
    assert ws.value[0] == 0.25 && ws.value[1] == 0.25 && ws.value[2] == 0.0625;
    assert ws.value == [0.25, 0.25, 0.0625];
  }

  /**
   * Start-up tables and the example batch: the weights normalise to 4/9, 4/9
   * and 1/9 and the estimate is (4, 4/9).
   */
  lemma WorkedExample()
    ensures Position(DevicePositions, Updated(InitialHistory, ExampleBatch), ExampleBatch) == Ok((4.0, 4.0 / 9.0))
  {
    var ds := ExampleBatch;
    ExampleWeights();
    assert FirstMissing(DevicePositions, ds) == 3;
    assert PositionsOf(DevicePositions, ds) == [(0, 0), (8, 0), (4, 4)];
    CentroidExample();
  }
}
