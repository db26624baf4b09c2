/**
 * The analysis screen: the shared poll tick and the small display mappers
 * that read the accepted `data` and the liveness flag.
 */
module Analysis {
  import opened Options
  import opened Telemetry

  /** `getAnalysisIcon`: offline wins over any stress label. */
  function AnalysisIcon(isDeviceOnline: bool, stress: string): (icon: string)
    ensures !isDeviceOnline <==> icon == "cloud-off"
    ensures isDeviceOnline ==> (icon == "warning" <==> stress == "High")
    ensures isDeviceOnline ==> (icon == "check-circle" <==> stress == "Normal" || stress == "Low")
    ensures icon in {"cloud-off", "warning", "check-circle", "insights"}
  {
    if !isDeviceOnline then "cloud-off"
    else if stress == "High" then "warning"
    else if stress == "Normal" || stress == "Low" then "check-circle"
    else "insights"
  }

  /** The HRV badge text: "--" offline, otherwise LOW below 50 ms and GOOD from 50 ms up. */
  function HrvBadge(isDeviceOnline: bool, hrv: real): (badge: string)
    ensures badge == "--" <==> !isDeviceOnline
    ensures badge == "LOW" <==> isDeviceOnline && hrv < 50.0
    ensures badge == "GOOD" <==> isDeviceOnline && hrv >= 50.0
  {
    if isDeviceOnline then (if hrv < 50.0 then "LOW" else "GOOD") else "--"
  }

  /** The SpO2 status text: OPTIMAL only online and strictly above 95. */
  function Spo2Status(isDeviceOnline: bool, spo2: real): (status: string)
    ensures status == "OPTIMAL" <==> isDeviceOnline && spo2 > 95.0
    ensures status == "CHECK" <==> isDeviceOnline && spo2 <= 95.0
    ensures status == "--" <==> !isDeviceOnline
  {
    if isDeviceOnline && spo2 > 95.0 then "OPTIMAL" else if isDeviceOnline then "CHECK" else "--"
  }

  /**
   * After a failed tick every mapper on this screen shows its offline form,
   * whatever reading was accepted before.
   */
  lemma FailedTickShowsOffline(s: Sync, localNow: real)
    ensures var t := PollSync(s, None, localNow);
            AnalysisIcon(t.isDeviceOnline, t.data.stress) == "cloud-off"
            && HrvBadge(t.isDeviceOnline, t.data.hrv) == "--"
            && Spo2Status(t.isDeviceOnline, t.data.spo2) == "--"
  {
  }

  class AnalysisScreen {
    var data: Reading
    var isDeviceOnline: bool
    var loading: bool

    function State(): Sync
      reads this
    {
      Sync(data, isDeviceOnline, loading)
    }

    constructor ()
      ensures State() == Sync(WaitingData, false, true)
    {
      data := WaitingData;
      isDeviceOnline := false;
      loading := true;
    }

    /** One `fetchData` call; `resp` is `None` when the fetch or its parse throws. */
    method Tick(resp: Option<Reading>, localNow: real)
      modifies this
      ensures State() == PollSync(old(State()), resp, localNow)
    {
      match resp {
        case None =>
          isDeviceOnline := false;
        case Some(json) =>
          if json.lastUpdated != data.lastUpdated {
            data := json;
          }
          isDeviceOnline := IsOnline(json, localNow);
          loading := false;
      }
    }
  }
}
