/**
 * The dashboard screen: the shared poll tick plus a 20-slot FIFO of `bpm`
 * values that shifts only when the reconcile gate accepts a body that
 * carries a `bpm`.
 */
module Dashboard {
  import opened Options
  import opened Telemetry

  const HistoryLength: nat := 20

  /** The dashboard's placeholder `data`: no timestamp yet. */
  const IdleData := Reading("Idle", "Place finger on sensor", Some(0.0), 0.0, 0.0, 0.0,
                            None, None, None, None, None)

  /** `new Array(20).fill(0)` */
  const InitialHistory: seq<real> := seq(HistoryLength, _ => 0.0)

  /** `[...h.slice(1), bpm]`: drop the oldest sample (none if empty) and append the new one. */
  function Shift(h: seq<real>, bpm: real): (r: seq<real>)
    ensures |r| == if h == [] then 1 else |h|
    ensures r[|r| - 1] == bpm
    ensures h != [] ==> r[..|r| - 1] == h[1..]
  {
    if h == [] then [bpm] else h[1..] + [bpm]
  }

  /**
   * The history update hidden in the `setData` updater: it happens only when
   * the body is accepted (a new `last_updated`) and carries a `bpm`.
   */
  function NextHistory(h: seq<real>, prev: Reading, json: Reading): (r: seq<real>)
    ensures json.lastUpdated == prev.lastUpdated || json.bpm.None? ==> r == h
    ensures json.lastUpdated != prev.lastUpdated && json.bpm.Some? ==> r == Shift(h, json.bpm.value)
    ensures h != [] ==> |r| == |h|
  {
    if json.lastUpdated != prev.lastUpdated && json.bpm.Some? then Shift(h, json.bpm.value) else h
  }

  /** The dashboard's hook state. */
  datatype View = View(sync: Sync, bpmHistory: seq<real>)

  const Initial := View(Sync(IdleData, false, true), InitialHistory)

  /** One `fetchData` call on the dashboard. */
  function Poll(v: View, resp: Option<Reading>, localNow: real): (w: View)
    ensures w.sync == PollSync(v.sync, resp, localNow)
    ensures resp.None? ==> w.bpmHistory == v.bpmHistory
    ensures resp.Some? ==> w.bpmHistory == NextHistory(v.bpmHistory, v.sync.data, resp.value)
    ensures |v.bpmHistory| == HistoryLength ==> |w.bpmHistory| == HistoryLength
  {
    match resp
    case None => View(PollSync(v.sync, resp, localNow), v.bpmHistory)
    case Some(json) => View(PollSync(v.sync, resp, localNow), NextHistory(v.bpmHistory, v.sync.data, json))
  }

  /**
   * A second body with the same `last_updated` as an accepted one is
   * discarded: `data` and the history stay as the first body left them,
   * whatever `bpm` the second carries.
   */
  lemma DuplicateDiscarded(v: View, a: Reading, b: Reading, t1: real, t2: real)
    requires b.lastUpdated == a.lastUpdated
    ensures Poll(Poll(v, Some(a), t1), Some(b), t2).sync.data == Poll(v, Some(a), t1).sync.data
    ensures Poll(Poll(v, Some(a), t1), Some(b), t2).bpmHistory == Poll(v, Some(a), t1).bpmHistory
  {
  }

  /** Successive successful ticks delivering `rs`, oldest first. */
  function Feed(v: View, rs: seq<Reading>, localNow: real): View
    decreases |rs|
  {
    if rs == [] then v else Feed(Poll(v, Some(rs[0]), localNow), rs[1..], localNow)
  }

  /** Each body's `last_updated` differs from the one before it (the first from `prev`'s). */
  predicate Distinct(prev: Reading, rs: seq<Reading>)
  {
    && (rs != [] ==> rs[0].lastUpdated != prev.lastUpdated)
    && forall i :: 0 < i < |rs| ==> rs[i].lastUpdated != rs[i - 1].lastUpdated
  }

  predicate AllCarryBpm(rs: seq<Reading>)
  {
    forall i :: 0 <= i < |rs| ==> rs[i].bpm.Some?
  }

  function Bpms(rs: seq<Reading>): (vs: seq<real>)
    requires AllCarryBpm(rs)
    ensures |vs| == |rs|
    ensures forall i :: 0 <= i < |rs| ==> vs[i] == rs[i].bpm.value
  {
    seq(|rs|, i requires 0 <= i < |rs| => rs[i].bpm.value)
  }

  /** Shifting one sample in and then windowing the rest is the same as windowing the whole. */
  lemma SlideStep(h: seq<real>, b: seq<real>, n: nat)
    requires h != [] && b != [] && 1 <= n <= |h| + |b|
    ensures (h[1..] + [b[0]] + b[1..])[n - 1..] == (h + b)[n..]
  {
  }

  /**
   * The history is a sliding window: after accepting `rs` it holds the last
   * |h| values of the old history followed by the new samples.
   */
  lemma {:induction false} FeedSlidesWindow(v: View, rs: seq<Reading>, localNow: real)
    requires v.bpmHistory != []
    requires Distinct(v.sync.data, rs) && AllCarryBpm(rs)
    ensures Feed(v, rs, localNow).bpmHistory == (v.bpmHistory + Bpms(rs))[|rs|..]
    decreases |rs|
  {
    if rs != [] {
      var h := v.bpmHistory;
      var w := Poll(v, Some(rs[0]), localNow);
      assert w.bpmHistory == h[1..] + [rs[0].bpm.value];
      assert w.sync.data.lastUpdated == rs[0].lastUpdated;
      assert Distinct(w.sync.data, rs[1..]) by {
        if |rs| > 1 {
          assert rs[1..][0] == rs[1];
        }
        forall i | 0 < i < |rs[1..]|
          ensures rs[1..][i].lastUpdated != rs[1..][i - 1].lastUpdated
        {
          assert rs[1..][i] == rs[i + 1];
        }
      }
      FeedSlidesWindow(w, rs[1..], localNow);
      assert Bpms(rs)[1..] == Bpms(rs[1..]);
      SlideStep(h, Bpms(rs), |rs|);
    }
  }

  /** Starting from twenty zeros, 21 fresh samples v1..v21 leave exactly v2..v21. */
  lemma TwentyOneReadings(rs: seq<Reading>, localNow: real)
    requires |rs| == 21 && Distinct(IdleData, rs) && AllCarryBpm(rs)
    ensures Feed(Initial, rs, localNow).bpmHistory == Bpms(rs)[1..]
  {
    FeedSlidesWindow(Initial, rs, localNow);
    assert (InitialHistory + Bpms(rs))[21..] == Bpms(rs)[1..];
  }

  /** `getStressConfidence`: a fixed placeholder while online, zero otherwise. */
  function StressConfidence(isDeviceOnline: bool): (shown: string)
    ensures shown == "0.0%" <==> !isDeviceOnline
    ensures shown == "94.2%" <==> isDeviceOnline
  {
    if !isDeviceOnline then "0.0%" else "94.2%"
  }

  class DashboardScreen {
    var data: Reading
    var bpmHistory: seq<real>
    var isDeviceOnline: bool
    var loading: bool

    /** The history always has exactly twenty slots. */
    predicate Valid()
      reads this
    {
      |bpmHistory| == HistoryLength
    }

    function State(): View
      reads this
    {
      View(Sync(data, isDeviceOnline, loading), bpmHistory)
    }

    constructor ()
      ensures Valid() && State() == Initial
    {
      data := IdleData;
      bpmHistory := InitialHistory;
      isDeviceOnline := false;
      loading := true;
    }

    /** One `fetchData` call; `resp` is `None` when the fetch or its parse throws. */
    method Tick(resp: Option<Reading>, localNow: real)
      requires Valid()
      modifies this
      ensures Valid()
      ensures State() == Poll(old(State()), resp, localNow)
    {
      match resp {
        case None =>
          isDeviceOnline := false;
        case Some(json) =>
          if json.lastUpdated != data.lastUpdated {
            if json.bpm.Some? {
              bpmHistory := bpmHistory[1..] + [json.bpm.value];
            }
            data := json;
          }
          isDeviceOnline := IsOnline(json, localNow);
          loading := false;
      }
    }
  }
}
