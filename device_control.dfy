/**
 * The device control screen: the shared poll tick, the control fields it
 * copies from every body regardless of the reconcile gate, and the four
 * command handlers whose local effect happens only once the POST resolves.
 */
module DeviceControl {
  import opened Options
  import opened Telemetry

  /** This screen's `getStressColor`: unlike the other two screens it has no grey case for Idle. */
  function StressColor(stress: string): (color: string)
    ensures color == "#ef4444" <==> stress == "High"
    ensures color == "#13ec5b" <==> stress == "Low" || stress == "Normal"
    ensures color in {"#ef4444", "#13ec5b", "#38bdf8"}
  {
    if stress == "High" then "#ef4444"
    else if stress == "Low" || stress == "Normal" then "#13ec5b"
    else "#38bdf8"
  }

  /** The control screen colours a label as the other screens do, except Idle and "Waiting...". */
  lemma StressColorAgreesElsewhere(stress: string)
    ensures StressColor(stress) == Telemetry.StressColor(stress) <==> stress != "Idle" && stress != "Waiting..."
  {
  }

  /** The local mirror of the device settings. */
  datatype Controls = Controls(isSensorActive: bool, displayMode: string, updateInterval: real)

  const InitialControls := Controls(true, "STRESS", 2000.0)

  /**
   * Lines 91-93: `display_mode` is copied when truthy (a non-empty string),
   * `is_sensor_active` whenever the key is present (false included), and
   * `send_interval` when truthy (non-zero). The accepted `data` plays no part.
   */
  function AdoptControls(c: Controls, json: Reading): (d: Controls)
    ensures json.displayMode.Some? && json.displayMode.value != "" ==> d.displayMode == json.displayMode.value
    ensures json.displayMode.None? || json.displayMode == Some("") ==> d.displayMode == c.displayMode
    ensures json.isSensorActive.Some? ==> d.isSensorActive == json.isSensorActive.value
    ensures json.isSensorActive.None? ==> d.isSensorActive == c.isSensorActive
    ensures json.sendInterval.Some? && json.sendInterval.value != 0.0 ==> d.updateInterval == json.sendInterval.value
    ensures json.sendInterval.None? || json.sendInterval == Some(0.0) ==> d.updateInterval == c.updateInterval
  {
    var mode := if json.displayMode.Some? && json.displayMode.value != "" then json.displayMode.value else c.displayMode;
    var active := if json.isSensorActive.Some? then json.isSensorActive.value else c.isSensorActive;
    var interval := if json.sendInterval.Some? && json.sendInterval.value != 0.0 then json.sendInterval.value else c.updateInterval;
    Controls(active, mode, interval)
  }

  /** Adopting the same body twice is the same as adopting it once. */
  lemma AdoptControlsIdempotent(c: Controls, json: Reading)
    ensures AdoptControls(AdoptControls(c, json), json) == AdoptControls(c, json)
  {
  }

  /**
   * A body the reconcile gate discards as stale still updates the control
   * fields: a setting changed on the server shows without a new reading.
   */
  lemma ControlsBypassGate(s: Sync, c: Controls, json: Reading, localNow: real, mode: string)
    requires json.lastUpdated == s.data.lastUpdated
    requires json.displayMode == Some(mode) && mode != ""
    ensures PollSync(s, Some(json), localNow).data == s.data
    ensures AdoptControls(c, json).displayMode == mode
  {
  }

  class ControlScreen {
    var data: Reading
    var loading: bool
    var isDeviceOnline: bool
    var isSensorActive: bool
    var displayMode: string
    var updateInterval: real

    function SyncState(): Sync
      reads this
    {
      Sync(data, isDeviceOnline, loading)
    }

    function ControlState(): Controls
      reads this
    {
      Controls(isSensorActive, displayMode, updateInterval)
    }

    constructor ()
      ensures SyncState() == Sync(WaitingData, false, true)
      ensures ControlState() == InitialControls
    {
      data := WaitingData;
      loading := true;
      isDeviceOnline := false;
      isSensorActive := true;
      displayMode := "STRESS";
      updateInterval := 2000.0;
    }

    /** One `fetchData` call; `resp` is `None` when the fetch or its parse throws. */
    method Tick(resp: Option<Reading>, localNow: real)
      modifies this
      ensures SyncState() == PollSync(old(SyncState()), resp, localNow)
      ensures ControlState() == if resp.Some? then AdoptControls(old(ControlState()), resp.value) else old(ControlState())
    {
      match resp {
        case None =>
          isDeviceOnline := false;
        case Some(json) =>
          data := Reconcile(data, json);
          if json.displayMode.Some? && json.displayMode.value != "" {
            displayMode := json.displayMode.value;
          }
          if json.isSensorActive.Some? {
            isSensorActive := json.isSensorActive.value;
          }
          if json.sendInterval.Some? && json.sendInterval.value != 0.0 {
            updateInterval := json.sendInterval.value;
          }
          isDeviceOnline := IsOnline(json, localNow);
          loading := false;
      }
    }

    /** `setDeviceDisplayMode`: `resolved` is whether the POST's promise resolved. */
    method SetDeviceDisplayMode(mode: string, resolved: bool)
      modifies this`displayMode
      ensures displayMode == if resolved then mode else old(displayMode)
    {
      if resolved {
        displayMode := mode;
      }
    }

    /** `setSensorControl`: the local flag follows the argument only on a resolved POST. */
    method SetSensorControl(active: bool, resolved: bool)
      modifies this`isSensorActive
      ensures isSensorActive == if resolved then active else old(isSensorActive)
    {
      if resolved {
        isSensorActive := active;
      }
    }

    /** `updateServerInterval`: the local interval follows the argument only on a resolved POST. */
    method UpdateServerInterval(interval: real, resolved: bool)
      modifies this`updateInterval
      ensures updateInterval == if resolved then interval else old(updateInterval)
    {
      if resolved {
        updateInterval := interval;
      }
    }

    /**
     * `recalibrateSensors`: touches no screen state; the acknowledgement
     * alert is raised only when the POST resolved.
     */
    method RecalibrateSensors(resolved: bool) returns (alerted: bool)
      ensures alerted == resolved
    {
      alerted := false;
      if resolved {
        alerted := true;
      }
    }
  }
}
