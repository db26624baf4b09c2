/**
 * The polling logic the three screens share (DeviceControl, Dashboard and
 * Analysis each carry their own copy of it): the change-only reconcile gate on
 * `last_updated`, the liveness rule, and what one poll tick does to the
 * `data` / `isDeviceOnline` / `loading` hook state.
 */
module Telemetry {
  import opened Options

  /**
   * A `/latest` response body as a screen reads it. Keys the screens test for
   * presence or truthiness are Options (`None` is an absent key). Timestamps
   * are seconds since the epoch; `sendInterval` is in milliseconds.
   */
  datatype Reading = Reading(
    stress: string,
    warning: string,
    bpm: Option<real>,
    hrv: real,
    spo2: real,
    respiration: real,
    lastUpdated: Option<real>,
    serverNow: Option<real>,
    sendInterval: Option<real>,
    displayMode: Option<string>,
    isSensorActive: Option<bool>)

  /** The placeholder `data` of the control and analysis screens: no timestamp yet. */
  const WaitingData := Reading("Waiting...", "Ensure device is connected", Some(0.0), 0.0, 0.0, 0.0,
                               None, None, None, None, None)

  /** The fixed grace period added to the device's own reporting interval. */
  const GraceSeconds: real := 5.0

  /**
   * The `setData(prev => ...)` updater: the incoming body replaces the
   * accepted one wholesale exactly when its `last_updated` differs.
   */
  function Reconcile(prev: Reading, json: Reading): (accepted: Reading)
    ensures accepted == json || accepted == prev
    ensures accepted.lastUpdated == json.lastUpdated
    ensures json.lastUpdated != prev.lastUpdated ==> accepted == json
    ensures json.lastUpdated == prev.lastUpdated ==> accepted == prev
  {
    if json.lastUpdated != prev.lastUpdated then json else prev
  }

  /** Delivering the same body twice is the same as delivering it once. */
  lemma ReconcileIdempotent(prev: Reading, json: Reading)
    ensures Reconcile(Reconcile(prev, json), json) == Reconcile(prev, json)
  {
  }

  /** `json.server_now || Date.now() / 1000`: the server clock unless it is absent or 0. */
  function ClockNow(json: Reading, localNow: real): (now: real)
    ensures json.serverNow.Some? && json.serverNow.value != 0.0 ==> now == json.serverNow.value
    ensures json.serverNow.None? || json.serverNow.value == 0.0 ==> now == localNow
  {
    if json.serverNow.Some? && json.serverNow.value != 0.0 then json.serverNow.value else localNow
  }

  /**
   * The heartbeat rule. An absent or zero `last_updated` is falsy, and an
   * absent `send_interval` makes the buffer NaN, against which `<` is false:
   * both read offline.
   */
  function IsOnline(json: Reading, localNow: real): (online: bool)
    ensures online ==> json.lastUpdated.Some? && json.lastUpdated.value != 0.0
    ensures online ==> json.sendInterval.Some?
    ensures json.lastUpdated.Some? && json.lastUpdated.value != 0.0 && json.sendInterval.Some? ==>
              (online <==> ClockNow(json, localNow) - json.lastUpdated.value
                           < json.sendInterval.value / 1000.0 + GraceSeconds)
  {
    match (json.lastUpdated, json.sendInterval)
    case (Some(t), Some(ms)) => t != 0.0 && ClockNow(json, localNow) - t < ms / 1000.0 + GraceSeconds
    case _ => false
  }

  /** Freshness is strict: an age exactly equal to the buffer is offline. */
  lemma BoundaryIsOffline(json: Reading, localNow: real)
    requires json.lastUpdated.Some? && json.sendInterval.Some?
    requires ClockNow(json, localNow) - json.lastUpdated.value == json.sendInterval.value / 1000.0 + GraceSeconds
    ensures !IsOnline(json, localNow)
  {
  }

  /**
   * With the local clock in use (no `server_now`, or 0), a reading that is online at `later` is
   * online at every earlier instant too: staleness only grows with time.
   */
  lemma OnlineEarlierIfOnlineLater(json: Reading, earlier: real, later: real)
    requires (json.serverNow.None? || json.serverNow == Some(0.0)) && earlier <= later
    requires IsOnline(json, later)
    ensures IsOnline(json, earlier)
  {
  }

  /** A reading sent every 2000 ms and stamped 1000 is online at server time 1006 and offline at 1008. */
  lemma HeartbeatScenario(json: Reading, localNow: real)
    requires json.lastUpdated == Some(1000.0) && json.sendInterval == Some(2000.0)
    ensures IsOnline(json.(serverNow := Some(1006.0)), localNow)
    ensures !IsOnline(json.(serverNow := Some(1008.0)), localNow)
  {
  }

  /** The hook state every screen keeps: `data`, `isDeviceOnline`, `loading`. */
  datatype Sync = Sync(data: Reading, isDeviceOnline: bool, loading: bool)

  /**
   * One `fetchData` call as far as the shared state goes. `resp` is `None`
   * when the fetch or the JSON parse throws; the catch then only marks the
   * device offline.
   */
  function PollSync(s: Sync, resp: Option<Reading>, localNow: real): (t: Sync)
    ensures resp.None? ==> t.data == s.data && t.loading == s.loading && !t.isDeviceOnline
    ensures resp.Some? ==> t.data == Reconcile(s.data, resp.value) && !t.loading
    ensures resp.Some? ==> (t.isDeviceOnline <==> IsOnline(resp.value, localNow))
    ensures t.isDeviceOnline ==> t.data.lastUpdated.Some? && t.data.lastUpdated.value != 0.0
  {
    match resp
    case None => s.(isDeviceOnline := false)
    case Some(json) => Sync(Reconcile(s.data, json), IsOnline(json, localNow), false)
  }

  /** Delivering the same body on two consecutive ticks at the same clock is the same as delivering it once. */
  lemma PollSyncIdempotent(s: Sync, json: Reading, localNow: real)
    ensures PollSync(PollSync(s, Some(json), localNow), Some(json), localNow) == PollSync(s, Some(json), localNow)
  {
  }

  /** One tick's input: the outcome of the fetch and the local clock when it settled. */
  datatype Fetch = Fetch(resp: Option<Reading>, localNow: real)

  /** Successive ticks, oldest first. */
  function RunSync(s: Sync, fs: seq<Fetch>): (t: Sync)
    decreases |fs|
  {
    if fs == [] then s else RunSync(PollSync(s, fs[0].resp, fs[0].localNow), fs[1..])
  }

  /** Once `loading` is false no tick sets it back to true. */
  lemma {:induction false} LoadingNeverReturns(s: Sync, fs: seq<Fetch>)
    requires !s.loading
    ensures !RunSync(s, fs).loading
    decreases |fs|
  {
    if fs != [] {
      LoadingNeverReturns(PollSync(s, fs[0].resp, fs[0].localNow), fs[1..]);
    }
  }

  /** A single successful tick anywhere in the run clears `loading` for good. */
  lemma {:induction false} LoadingClearedBySuccess(s: Sync, fs: seq<Fetch>, i: nat)
    requires i < |fs| && fs[i].resp.Some?
    ensures !RunSync(s, fs).loading
    decreases |fs|
  {
    var next := PollSync(s, fs[0].resp, fs[0].localNow);
    if i == 0 {
      LoadingNeverReturns(next, fs[1..]);
    } else {
      LoadingClearedBySuccess(next, fs[1..], i - 1);
    }
  }

  /**
   * Liveness keeps no memory: after a run it is decided by the last tick
   * alone, and a failed last tick is offline whatever came before.
   */
  lemma {:induction false} LivenessFollowsLastTick(s: Sync, fs: seq<Fetch>)
    requires fs != []
    ensures var last := fs[|fs| - 1];
            RunSync(s, fs).isDeviceOnline == (last.resp.Some? && IsOnline(last.resp.value, last.localNow))
    decreases |fs|
  {
    var next := PollSync(s, fs[0].resp, fs[0].localNow);
    if |fs| > 1 {
      LivenessFollowsLastTick(next, fs[1..]);
      assert fs[1..][|fs[1..]| - 1] == fs[|fs| - 1];
    }
  }

  /** `getStressColor` of the dashboard and analysis screens; total over all labels. */
  function StressColor(stress: string): (color: string)
    ensures color == "#ef4444" <==> stress == "High"
    ensures color == "#13ec5b" <==> stress == "Low" || stress == "Normal"
    ensures color == "#64748b" <==> stress == "Idle" || stress == "Waiting..."
    ensures color in {"#ef4444", "#13ec5b", "#64748b", "#38bdf8"}
  {
    if stress == "High" then "#ef4444"
    else if stress == "Low" || stress == "Normal" then "#13ec5b"
    else if stress == "Idle" || stress == "Waiting..." then "#64748b"
    else "#38bdf8"
  }
}
