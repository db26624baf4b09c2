/**
 * The two pieces together: what a screen sees when it polls the store's
 * `/latest`, and which server-side changes the client's reconcile gate lets
 * through.
 */
module EndToEnd {
  import opened Options
  import opened Telemetry
  import Server
  import DeviceControl

  /** The JSON body of a stored record, as a screen parses it: every key is present. */
  function Wire(rec: Server.Record): (json: Reading)
    ensures json.lastUpdated == Some(rec.lastUpdated) && json.serverNow == rec.serverNow
    ensures json.sendInterval == Some(rec.sendInterval as real)
    ensures json.bpm == Some(rec.bpm) && json.hrv == rec.hrv
    ensures json.displayMode == Some(rec.displayMode) && json.isSensorActive == Some(rec.isSensorActive)
  {
    Reading(rec.stress, rec.warning, Some(rec.bpm), rec.hrv, rec.spo2, rec.respiration,
            Some(rec.lastUpdated), rec.serverNow, Some(rec.sendInterval as real),
            Some(rec.displayMode), Some(rec.isSensorActive))
  }

  /** Until the device has posted once, every screen reads the store as offline. */
  lemma NeverConnectedIsOffline(now: real, localNow: real)
    ensures !IsOnline(Wire(Server.InitialRecord.(serverNow := Some(now))), localNow)
  {
  }

  /**
   * Polled through `/latest` at server time `now`, a reading stamped at a
   * non-zero time is online exactly while its age is below the configured
   * interval plus the grace period; the screen's own clock plays no part.
   */
  lemma LatestLiveness(rec: Server.Record, now: real, localNow: real)
    requires rec.lastUpdated != 0.0 && now != 0.0
    ensures IsOnline(Wire(rec.(serverNow := Some(now))), localNow)
            <==> now - rec.lastUpdated < rec.sendInterval as real / 1000.0 + GraceSeconds
  {
  }

  /**
   * `/sensor-control` with `active` false zeroes the stored `bpm` and `hrv`
   * but keeps `last_updated`, so a screen that already accepted the reading
   * discards the zeroed body and keeps the old vitals, while the control
   * screen's sensor flag (outside the gate) does follow.
   */
  lemma SensorStopHiddenByGate(s: Sync, c: DeviceControl.Controls, rec: Server.Record, now: real, localNow: real)
    requires s.data.lastUpdated == Some(rec.lastUpdated)
    ensures var json := Wire(Server.WithSensor(rec, false).(serverNow := Some(now)));
            && json.bpm == Some(0.0)
            && PollSync(s, Some(json), localNow).data == s.data
            && !DeviceControl.AdoptControls(c, json).isSensorActive
  {
  }

  /** A display mode set on the store reaches the control screen on its next poll, with or without a new reading. */
  lemma DisplayModeReachesScreen(c: DeviceControl.Controls, rec: Server.Record, mode: string, now: real)
    requires mode != ""
    ensures DeviceControl.AdoptControls(c, Wire(rec.(displayMode := mode, serverNow := Some(now)))).displayMode == mode
  {
  }
}
