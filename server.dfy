/**
 * The backend's device-state store: the module globals the Flask routes
 * read and reassign. The ML ensemble (scaler, two tree models, label
 * encoder) is a function parameter from the feature vector to a label;
 * `time.time()` is a parameter too.
 */
module Server {
  import opened Options

  /** The `latest_reading` dict. `recalibrate` and `server_now` are keys only some writers add. */
  datatype Record = Record(
    stress: string,
    warning: string,
    bpm: real,
    hrv: real,
    spo2: real,
    respiration: real,
    displayMode: string,
    isSensorActive: bool,
    sendInterval: int,
    recalibrate: Option<bool>,
    lastUpdated: real,
    serverNow: Option<real>)

  /** The `/predict` body; an absent key takes the route's default. */
  datatype PredictRequest = PredictRequest(bpm: Option<real>, respiration: Option<real>,
                                           spo2: Option<real>, hrv: Option<real>)

  /** The six inputs of the classifier, in the route's column order. */
  datatype Features = Features(bpm: real, respiration: real, spo2: real, hrv: real,
                               stressIndex: real, spo2Deviation: real)

  /** The vitals part of a new reading. */
  datatype Assessment = Assessment(stress: string, warning: string, bpm: real, hrv: real,
                                   spo2: real, respiration: real)

  const InitialDisplayMode := "STRESS"
  const InitialSendInterval := 10000
  const MaxHrv: real := 200.0

  /** `latest_reading` at start-up: `last_updated` 0 means never connected. */
  const InitialRecord := Record("Idle", "Place finger on sensor", 0.0, 0.0, 0.0, 0.0,
                                InitialDisplayMode, true, InitialSendInterval, None, 0.0, None)

  function GetOr(o: Option<real>, default: real): (v: real)
    ensures o.Some? ==> v == o.value
    ensures o.None? ==> v == default
  {
    if o.Some? then o.value else default
  }

  /** The realistic heart-rate range; readings outside it are rejected before the model. */
  predicate OutOfRange(bpm: real)
  {
    bpm < 40.0 || bpm > 200.0
  }

  /** The advice attached to a model label. */
  function Warning(stressLabel: string): (w: string)
    ensures stressLabel == "High" <==> w == "Take rest and breathe slowly"
    ensures stressLabel == "Low" <==> w == "Relaxed state"
    ensures stressLabel != "High" && stressLabel != "Low" <==> w == "Normal"
  {
    if stressLabel == "High" then "Take rest and breathe slowly"
    else if stressLabel == "Low" then "Relaxed state"
    else "Normal"
  }

  /** `bpm / hrv`, or 0 when there is no HRV to divide by. */
  function StressIndex(bpm: real, hrv: real): (index: real)
    ensures hrv == 0.0 ==> index == 0.0
    ensures hrv != 0.0 ==> index * hrv == bpm
  {
    if hrv != 0.0 then bpm / hrv else 0.0
  }

  /**
   * `/predict` without its side effects: the idle gate, the range gate, the
   * HRV cap and the label-to-warning mapping around the classifier.
   */
  function Assess(req: PredictRequest, classify: Features -> string): (a: Assessment)
    ensures GetOr(req.bpm, 0.0) == 0.0 ==>
              a == Assessment("Idle", "Place finger on sensor", 0.0, 0.0, 0.0, 0.0)
    ensures var bpm := GetOr(req.bpm, 0.0);
            bpm != 0.0 && OutOfRange(bpm) ==>
              a == Assessment("Invalid", "Please keep still and retry", bpm, GetOr(req.hrv, 0.0),
                              GetOr(req.spo2, 98.0), GetOr(req.respiration, 16.0))
    ensures var bpm := GetOr(req.bpm, 0.0);
            bpm != 0.0 && !OutOfRange(bpm) ==>
              && a.bpm == bpm
              && a.hrv <= MaxHrv
              && (GetOr(req.hrv, 0.0) <= MaxHrv ==> a.hrv == GetOr(req.hrv, 0.0))
              && (GetOr(req.hrv, 0.0) > MaxHrv ==> a.hrv == MaxHrv)
              && a.spo2 == GetOr(req.spo2, 98.0)
              && a.respiration == GetOr(req.respiration, 16.0)
              && a.stress == classify(Features(bpm, a.respiration, a.spo2, a.hrv,
                                               StressIndex(bpm, a.hrv), 100.0 - a.spo2))
              && a.warning == Warning(a.stress)
  {
    var bpm := GetOr(req.bpm, 0.0);
    var resp := GetOr(req.respiration, 16.0);
    var spo2 := GetOr(req.spo2, 98.0);
    var hrv := GetOr(req.hrv, 0.0);
    if bpm == 0.0 then
      Assessment("Idle", "Place finger on sensor", 0.0, 0.0, 0.0, 0.0)
    else if OutOfRange(bpm) then
      Assessment("Invalid", "Please keep still and retry", bpm, hrv, spo2, resp)
    else
      var capped := if hrv > MaxHrv then MaxHrv else hrv;
      var features := Features(bpm, resp, spo2, capped, StressIndex(bpm, capped), 100.0 - spo2);
      var stressLabel := classify(features);
      Assessment(stressLabel, Warning(stressLabel), bpm, capped, spo2, resp)
  }

  /** An idle request (no finger, or no `bpm` key) gives the same reading whatever else it carries. */
  lemma IdleIgnoresOtherInputs(r1: PredictRequest, r2: PredictRequest, c1: Features -> string, c2: Features -> string)
    requires GetOr(r1.bpm, 0.0) == 0.0 && GetOr(r2.bpm, 0.0) == 0.0
    ensures Assess(r1, c1) == Assess(r2, c2)
  {
  }

  /** Every reading that passes both gates and reaches the classifier is in range with HRV capped, whatever its label. */
  lemma ClassifiedReadingsAreSane(req: PredictRequest, classify: Features -> string)
    requires GetOr(req.bpm, 0.0) != 0.0 && !OutOfRange(GetOr(req.bpm, 0.0))
    ensures var a := Assess(req, classify); 40.0 <= a.bpm <= 200.0 && a.hrv <= MaxHrv
  {
  }

  /** Python's `int()` on a number: truncation toward zero. */
  function Truncate(x: real): (n: int)
    ensures x >= 0.0 ==> n as real <= x < n as real + 1.0
    ensures x < 0.0 ==> n as real - 1.0 < x <= n as real
  {
    if x >= 0.0 then x.Floor else -((-x).Floor)
  }

  /** The in-place dict writes of `/sensor-control`: stopping also zeroes `bpm` and `hrv`. */
  function WithSensor(rec: Record, active: bool): (r: Record)
    ensures r.isSensorActive == active
    ensures active ==> r == rec.(isSensorActive := true)
    ensures !active ==> r == rec.(isSensorActive := false, bpm := 0.0, hrv := 0.0)
  {
    if active then rec.(isSensorActive := true)
    else rec.(isSensorActive := false, bpm := 0.0, hrv := 0.0)
  }

  class Server {
    var latestReading: Record
    var currentDisplayMode: string
    var isSensorActive: bool
    var sendInterval: int
    var recalibrateFlag: bool

    constructor ()
      ensures latestReading == InitialRecord
      ensures currentDisplayMode == InitialDisplayMode && isSensorActive
      ensures sendInterval == InitialSendInterval && !recalibrateFlag
    {
      latestReading := InitialRecord;
      currentDisplayMode := InitialDisplayMode;
      isSensorActive := true;
      sendInterval := InitialSendInterval;
      recalibrateFlag := false;
    }

    /**
     * `/predict` at server time `now`. Every branch stamps the reading with
     * the current settings, hands over the pending recalibrate flag and then
     * clears it; only the out-of-range branch also stores `server_now`.
     */
    method Predict(req: PredictRequest, now: real, classify: Features -> string) returns (reply: Record)
      modifies this
      ensures var a := Assess(req, classify);
              var bpm := GetOr(req.bpm, 0.0);
              latestReading == Record(a.stress, a.warning, a.bpm, a.hrv, a.spo2, a.respiration,
                                      old(currentDisplayMode), old(isSensorActive), old(sendInterval),
                                      Some(old(recalibrateFlag)), now,
                                      if bpm != 0.0 && OutOfRange(bpm) then Some(now) else None)
      ensures reply == latestReading
      ensures !recalibrateFlag
      ensures currentDisplayMode == old(currentDisplayMode) && isSensorActive == old(isSensorActive)
      ensures sendInterval == old(sendInterval)
    {
      var bpm := GetOr(req.bpm, 0.0);
      var a := Assess(req, classify);
      var stamp := if bpm != 0.0 && OutOfRange(bpm) then Some(now) else None;
      latestReading := Record(a.stress, a.warning, a.bpm, a.hrv, a.spo2, a.respiration,
                              currentDisplayMode, isSensorActive, sendInterval,
                              Some(recalibrateFlag), now, stamp);
      recalibrateFlag := false;
      reply := latestReading;
    }

    /** `/set-interval`: `interval` is `None` when the body has no `interval` key. */
    method SetInterval(interval: Option<real>) returns (reply: int)
      modifies this
      ensures interval.None? ==> unchanged(this)
      ensures interval.Some? ==> sendInterval == Truncate(interval.value)
      ensures interval.Some? ==> latestReading == old(latestReading).(sendInterval := sendInterval)
      ensures currentDisplayMode == old(currentDisplayMode) && isSensorActive == old(isSensorActive)
      ensures recalibrateFlag == old(recalibrateFlag)
      ensures reply == sendInterval
    {
      if interval.Some? {
        sendInterval := Truncate(interval.value);
        latestReading := latestReading.(sendInterval := sendInterval);
      }
      reply := sendInterval;
    }

    /** `/sensor-control`: `active` is `None` when the body has no `active` key. */
    method SetSensorControl(active: Option<bool>) returns (reply: bool)
      modifies this
      ensures active.None? ==> unchanged(this)
      ensures active.Some? ==> isSensorActive == active.value
      ensures active.Some? ==> latestReading == WithSensor(old(latestReading), active.value)
      ensures currentDisplayMode == old(currentDisplayMode) && sendInterval == old(sendInterval)
      ensures recalibrateFlag == old(recalibrateFlag)
      ensures reply == isSensorActive
    {
      if active.Some? {
        isSensorActive := active.value;
        latestReading := latestReading.(isSensorActive := isSensorActive);
        if !isSensorActive {
          latestReading := latestReading.(bpm := 0.0);
          latestReading := latestReading.(hrv := 0.0);
        }
      }
      reply := isSensorActive;
    }

    /** `/display-mode`: `mode` is `None` when the body has no `mode` key. */
    method SetDisplayMode(mode: Option<string>) returns (reply: string)
      modifies this
      ensures mode.None? ==> unchanged(this)
      ensures mode.Some? ==> currentDisplayMode == mode.value
      ensures mode.Some? ==> latestReading == old(latestReading).(displayMode := mode.value)
      ensures isSensorActive == old(isSensorActive) && sendInterval == old(sendInterval)
      ensures recalibrateFlag == old(recalibrateFlag)
      ensures reply == currentDisplayMode
    {
      if mode.Some? {
        currentDisplayMode := mode.value;
        latestReading := latestReading.(displayMode := currentDisplayMode);
      }
      reply := currentDisplayMode;
    }

    /** `/recalibrate`: raise the flag for the next `/predict` to hand over. */
    method Recalibrate()
      modifies this`recalibrateFlag
      ensures recalibrateFlag
    {
      recalibrateFlag := true;
    }

    /** `/latest`: the stored reading with `server_now` set to the current time; nothing is stored. */
    method GetLatest(now: real) returns (reply: Record)
      ensures reply.serverNow == Some(now)
      ensures reply.(serverNow := latestReading.serverNow) == latestReading
    {
      reply := latestReading.(serverNow := Some(now));
    }
  }

  /**
   * The recalibrate flag reaches exactly one reading: the `/predict` after a
   * `/recalibrate` carries it, the one after that does not.
   */
  method RecalibrateReachesOneReading(srv: Server, first: PredictRequest, second: PredictRequest,
                                      t1: real, t2: real, classify: Features -> string)
      returns (r1: Record, r2: Record)
    modifies srv
    ensures r1.recalibrate == Some(true)
    ensures r2.recalibrate == Some(false)
  {
    srv.Recalibrate();
    r1 := srv.Predict(first, t1, classify);
    r2 := srv.Predict(second, t2, classify);
  }
}
