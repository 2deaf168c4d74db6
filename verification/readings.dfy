/**
 * A batch of anchor readings and the per-anchor history store it updates.
 * `Updated` records the readings of a batch one after another; `UpdatedWindow`
 * states what that means for each anchor, independently of the order of the
 * steps: an anchor the batch mentions ends with the newest `Capacity` samples
 * of its old window followed by the batch's samples for it, every other anchor
 * keeps its window. The three estimators are proved against `Updated`.
 */
module Readings {
  import opened Window
  import opened Centroid

  /** One anchor's report in a batch. */
  datatype Reading = Reading(id: string, rssi: int)

  /** Anchor id to that anchor's window of recent samples. */
  type History = map<string, seq<int>>

  /** Every window holds at most `Capacity` samples. */
  ghost predicate Bounded(h: History)
  {
    forall id | id in h :: |h[id]| <= Capacity
  }

  /** The window of `id`, or the empty one that a C++ `operator[]` inserts for an unseen id. */
  function Lookup(h: History, id: string): seq<int>
  {
    if id in h then h[id] else []
  }

  /** The anchor ids a batch mentions. */
  function IdSet(ds: seq<Reading>): set<string>
  {
    set i | 0 <= i < |ds| :: ds[i].id
  }

  /** The samples a batch carries for `id`, in batch order. */
  function Samples(ds: seq<Reading>, id: string): seq<int>
  {
    if ds == [] then []
    else Samples(ds[..|ds| - 1], id) + (if ds[|ds| - 1].id == id then [ds[|ds| - 1].rssi] else [])
  }

  /** The index of the first reading whose id `m` lacks, or `|ds|` when it has them all. */
  function FirstMissing<V>(m: map<string, V>, ds: seq<Reading>): (k: nat)
    ensures k <= |ds|
    ensures forall j | 0 <= j < k :: ds[j].id in m
    ensures k < |ds| ==> ds[k].id !in m
  {
    if ds == [] then 0
    else if ds[0].id !in m then 0
    else 1 + FirstMissing(m, ds[1..])
  }

  /** `FirstMissing` is the one index up to which every id is present and at which one is missing. */
  lemma FirstMissingAt<V>(m: map<string, V>, ds: seq<Reading>, i: nat)
    requires i <= |ds|
    requires forall j | 0 <= j < i :: ds[j].id in m
    requires i < |ds| ==> ds[i].id !in m
    ensures FirstMissing(m, ds) == i
  {
  }

  /** The ids of a batch are those of its prefix and that of its last reading. */
  lemma IdSetSnoc(ds: seq<Reading>)
    requires |ds| > 0
    ensures IdSet(ds) == IdSet(ds[..|ds| - 1]) + {ds[|ds| - 1].id}
  {
    var pre := ds[..|ds| - 1];
    forall id | id in IdSet(pre) ensures id in IdSet(ds) {
      var j :| 0 <= j < |pre| && pre[j].id == id;
      assert ds[j].id == id;
    }
  }

  /**
   * The history after every reading of `ds` has been recorded in order: each
   * reading appends its sample to its anchor's window (an empty one for an
   * anchor not yet present) and the window keeps its newest `Capacity` samples.
   */
  function Updated(h: History, ds: seq<Reading>): (u: History)
    ensures u.Keys == h.Keys + IdSet(ds)
  {
    if ds == [] then h
    else
      var p := Updated(h, ds[..|ds| - 1]);
      var d := ds[|ds| - 1];
      IdSetSnoc(ds);
      p[d.id := Newest(Lookup(p, d.id) + [d.rssi])]
  }

  /** Recording one more reading of the batch: the step from a prefix to the next one. */
  lemma UpdatedStep(h: History, ds: seq<Reading>, i: nat)
    requires i < |ds|
    ensures Updated(h, ds[..i + 1])
            == Updated(h, ds[..i])[ds[i].id := Newest(Lookup(Updated(h, ds[..i]), ds[i].id) + [ds[i].rssi])]
  {
    assert ds[..i + 1][..i] == ds[..i];
  }

  /** A batch carries samples for an anchor exactly when it mentions that anchor. */
  lemma {:induction false} SamplesMembership(ds: seq<Reading>, id: string)
    ensures Samples(ds, id) != [] <==> id in IdSet(ds)
  {
    if ds != [] {
      SamplesMembership(ds[..|ds| - 1], id);
      IdSetSnoc(ds);
    }
  }

  /**
   * What a batch does to one anchor's window: an anchor the batch mentions ends
   * with the newest `Capacity` samples of its old window followed by the
   * batch's samples for it; any other anchor keeps its window, and is not added.
   */
  lemma {:induction false} UpdatedWindow(h: History, ds: seq<Reading>, id: string)
    ensures id in IdSet(ds) ==>
              id in Updated(h, ds) && Updated(h, ds)[id] == Newest(Lookup(h, id) + Samples(ds, id))
    ensures id !in IdSet(ds) ==>
              (id in Updated(h, ds) <==> id in h) && (id in h ==> Updated(h, ds)[id] == h[id])
  {
    if ds != [] {
      var pre, d := ds[..|ds| - 1], ds[|ds| - 1];
      UpdatedWindow(h, pre, id);
      IdSetSnoc(ds);
      if id == d.id {
        if id in IdSet(pre) {
          NewestOfNewest(Lookup(h, id) + Samples(pre, id), d.rssi);
          assert Lookup(h, id) + Samples(ds, id) == (Lookup(h, id) + Samples(pre, id)) + [d.rssi];
        } else {
          SamplesMembership(pre, id);
          assert Samples(ds, id) == [d.rssi];
        }
      } else {
        assert Samples(ds, id) == Samples(pre, id);
      }
    }
  }

  /** Recording keeps every window within capacity. */
  lemma UpdatedBounded(h: History, ds: seq<Reading>)
    requires Bounded(h)
    ensures Bounded(Updated(h, ds))
  {
    forall id | id in Updated(h, ds)
      ensures |Updated(h, ds)[id]| <= Capacity
    {
      UpdatedWindow(h, ds, id);
    }
  }

  /** Every anchor the batch mentions has a non-empty window afterwards. */
  lemma UpdatedCovers(h: History, ds: seq<Reading>, i: nat)
    requires i < |ds|
    ensures ds[i].id in Updated(h, ds) && Updated(h, ds)[ds[i].id] != []
  {
    assert ds[i].id in IdSet(ds);
    SamplesMembership(ds, ds[i].id);
    UpdatedWindow(h, ds, ds[i].id);
  }

  /** The coordinates of each reading's anchor, with `(0, 0)` where a C++ `operator[]` would insert it. */
  function PositionsOf(pm: map<string, Point>, ds: seq<Reading>): (ps: seq<Point>)
    ensures |ps| == |ds|
    ensures forall i | 0 <= i < |ds| && ds[i].id in pm :: ps[i] == pm[ds[i].id]
    ensures forall i | 0 <= i < |ds| && ds[i].id !in pm :: ps[i] == (0, 0)
  {
    seq(|ds|, i requires 0 <= i < |ds| => if ds[i].id in pm then pm[ds[i].id] else (0, 0))
  }

  /**
   * `pm` after an `operator[]` lookup of every id of the batch, in order:
   * present ids keep their coordinates, unseen ids are inserted at `(0, 0)`.
   */
  function WithDefaults(pm: map<string, Point>, ds: seq<Reading>): (r: map<string, Point>)
    ensures r.Keys == pm.Keys + IdSet(ds)
    ensures forall id | id in pm :: r[id] == pm[id]
    ensures forall id | id in r && id !in pm :: r[id] == (0, 0)
  {
    if ds == [] then pm
    else
      var p := WithDefaults(pm, ds[..|ds| - 1]);
      var id := ds[|ds| - 1].id;
      IdSetSnoc(ds);
      if id in p then p else p[id := (0, 0)]
  }

  /** Looking up one more reading of the batch: the step from a prefix to the next one. */
  lemma WithDefaultsStep(pm: map<string, Point>, ds: seq<Reading>, i: nat)
    requires i < |ds|
    ensures var p := WithDefaults(pm, ds[..i]);
            WithDefaults(pm, ds[..i + 1]) == if ds[i].id in p then p else p[ds[i].id := (0, 0)]
  {
    assert ds[..i + 1][..i] == ds[..i];
  }

  /** After the lookups of a prefix, looking up the next reading yields the coordinates `PositionsOf` gives it. */
  lemma DefaultLookup(pm: map<string, Point>, ds: seq<Reading>, i: nat)
    requires i < |ds|
    ensures var p := WithDefaults(pm, ds[..i]);
            (if ds[i].id in p then p[ds[i].id] else (0, 0)) == PositionsOf(pm, ds)[i]
  {
  }

  /** No anchor is reported twice in the batch. */
  predicate DistinctIds(ds: seq<Reading>)
  {
    forall i, j | 0 <= i < j < |ds| :: ds[i].id != ds[j].id
  }

  /** In a batch without repeated anchors, each anchor's only sample is that of its one reading. */
  lemma {:induction false} SamplesOfDistinct(ds: seq<Reading>, i: nat)
    requires DistinctIds(ds) && i < |ds|
    ensures Samples(ds, ds[i].id) == [ds[i].rssi]
  {
    var pre := ds[..|ds| - 1];
    if i == |ds| - 1 {
      assert ds[i].id !in IdSet(pre);
      SamplesMembership(pre, ds[i].id);
    } else {
      assert pre[i] == ds[i];
      SamplesOfDistinct(pre, i);
    }
  }

  /** From empty windows, a batch without repeated anchors leaves each of them with its one sample. */
  lemma FreshWindow(h: History, ds: seq<Reading>, i: nat)
    requires forall id | id in h :: h[id] == []
    requires DistinctIds(ds) && i < |ds|
    ensures ds[i].id in Updated(h, ds) && Updated(h, ds)[ds[i].id] == [ds[i].rssi]
  {
    assert ds[i].id in IdSet(ds);
    SamplesOfDistinct(ds, i);
    UpdatedWindow(h, ds, ds[i].id);
    assert Lookup(h, ds[i].id) + [ds[i].rssi] == [ds[i].rssi];
  }

  /** A batch with one reading per anchor: RSSI -2 at ESP32-01 and ESP32-02, -4 at ESP32-03. */
  const ExampleBatch: seq<Reading> := [Reading("ESP32-01", -2), Reading("ESP32-02", -2), Reading("ESP32-03", -4)]

  /** The example batch names three different anchors. */
  lemma ExampleDistinct()
    ensures |ExampleBatch| == 3 && DistinctIds(ExampleBatch)
  {
    var ds := ExampleBatch;
    assert ds[0].id[7] == '1' && ds[1].id[7] == '2' && ds[2].id[7] == '3';
  }
}
