# Stress monitor: screen synchronisation and device-state store

A model of the two pieces of state logic in a PPG stress-monitoring system:

- **The screens** (`DeviceControl`, `Dashboard`, `Analysis`), each of which
  polls a backend's `/latest` once a second (the control screen and the
  dashboard through the configured base address, the analysis screen through
  a fixed address of its own). One poll tick reconciles the
  incoming reading against the accepted one (a change-only gate on
  `last_updated`), decides whether the device is online (the reading's age
  against its own `send_interval` plus a 5 s grace period, on the server's
  clock when it sends one), and, depending on the screen, copies the device
  settings into local control state or shifts a 20-slot FIFO of heart-rate
  samples. The control screen's four command handlers (display mode, sensor
  on/off, interval, recalibrate) are modelled with the fetch outcome as a
  parameter.
- **The backend store** (`server.py`): the module globals
  (`latest_reading`, `current_display_mode`, `is_sensor_active`,
  `send_interval`, `recalibrate_flag`) and the routes that reassign them.
  The ML ensemble is a function parameter from the six-value feature vector
  to a label.

Modules: `Options` (key presence), `Telemetry` (the reading, the reconcile
gate, the liveness rule and the poll tick the three screens share — each
screen carries an identical copy of that code), `DeviceControl`,
`Dashboard`, `Analysis` (one class per screen, whose `Tick` is proved equal
to a pure step function of the old state), `Server` (a class holding the
globals) and `EndToEnd` (what a screen sees of the store through `/latest`).

JavaScript truthiness is written out: an absent `last_updated` or one of 0
reads offline; an absent `send_interval` makes the comparison with `NaN`
false, so offline; `server_now` of 0 or absent falls back to the local
clock; `display_mode` is copied only when it is a non-empty string,
`send_interval` only when non-zero, `is_sensor_active` whenever the key is
present. Timestamps are `real` seconds; Python's `int()` on the interval is
modelled as truncation toward zero.

The command handlers set their local field only after the POST resolves; a
rejected POST changes nothing, and no field is set before the request
completes. The recalibration alert likewise appears only when the POST
resolves, never on failure.

`GetOr` (the `data.get(key, default)` lookups of backend/server.py:40-43),
`OutOfRange` (the range test of backend/server.py:64), `RunSync` and `Feed`
(successive poll ticks, oldest first) and `Bpms`, `Distinct`, `AllCarryBpm`
and `SlideStep` are helpers of `Assess`, of the run lemmas and of the
sliding-window proof; they have no row of their own.

## Model

| member | source | states |
|---|---|---|
| `Telemetry.Reconcile` | frontend/screens/DeviceControl.js:84-89 | the accepted reading is the incoming one when `last_updated` differs and the previous one otherwise; either way the accepted timestamp equals the incoming one |
| `Telemetry.ReconcileIdempotent` | frontend/screens/DeviceControl.js:84-89 | reconciling the same body twice equals reconciling it once |
| `Telemetry.ClockNow` | frontend/screens/DeviceControl.js:96 | the clock is `server_now` when present and non-zero, the local clock otherwise |
| `Telemetry.IsOnline` | frontend/screens/DeviceControl.js:96-102 | online only with a non-zero `last_updated` and a present `send_interval`, and then iff age < `send_interval`/1000 + 5 |
| `Telemetry.BoundaryIsOffline` | frontend/screens/DeviceControl.js:97-98 | an age exactly equal to the buffer is offline (strict `<`) |
| `Telemetry.OnlineEarlierIfOnlineLater` | frontend/screens/DeviceControl.js:96-98 | on the local clock (`server_now` absent or 0), online at a later instant implies online at every earlier one |
| `Telemetry.HeartbeatScenario` | frontend/screens/Dashboard.js:39-45 | stamped 1000 with a 2000 ms interval: online at server time 1006, offline at 1008 |
| `Telemetry.PollSync` | frontend/screens/DeviceControl.js:80-107 | a failed fetch marks offline and keeps `data` and `loading`; a successful one reconciles `data`, clears `loading` and sets liveness from the body; online implies the accepted reading has a non-zero timestamp |
| `Telemetry.PollSyncIdempotent` | frontend/screens/DeviceControl.js:84-102 | two consecutive ticks delivering the same body at the same clock equal one tick |
| `Telemetry.LoadingNeverReturns` | frontend/screens/DeviceControl.js:16-103 | once `loading` is false no sequence of ticks makes it true again |
| `Telemetry.LoadingClearedBySuccess` | frontend/screens/DeviceControl.js:103 | one successful tick anywhere in a run leaves `loading` false at its end |
| `Telemetry.LivenessFollowsLastTick` | frontend/screens/DeviceControl.js:96-107 | after any run, liveness is decided by the last tick alone; a failed last tick is offline whatever came before |
| `Telemetry.StressColor` | frontend/screens/Dashboard.js:58-63 | High is red, Low/Normal green, Idle/"Waiting..." grey, every other label blue (the same code is at frontend/screens/Analysis.js:51-56) |
| `DeviceControl.StressColor` | frontend/screens/DeviceControl.js:115-119 | High is red, Low/Normal green, everything else blue |
| `DeviceControl.StressColorAgreesElsewhere` | frontend/screens/DeviceControl.js:115-119 | the control screen's colour agrees with the other screens' exactly on labels other than Idle and "Waiting..." |
| `DeviceControl.AdoptControls` | frontend/screens/DeviceControl.js:91-93 | `display_mode` copied iff a non-empty string, `is_sensor_active` iff the key is present (false included), `send_interval` iff non-zero; otherwise each field is kept |
| `DeviceControl.AdoptControlsIdempotent` | frontend/screens/DeviceControl.js:91-93 | adopting the same body twice equals adopting it once |
| `DeviceControl.ControlsBypassGate` | frontend/screens/DeviceControl.js:84-93 | a body with an unchanged `last_updated` leaves `data` as it was but still sets the display mode |
| `DeviceControl.ControlScreen.constructor` | frontend/screens/DeviceControl.js:8-20 | starts with the waiting placeholder, loading, offline, sensor on, mode STRESS, interval 2000 |
| `DeviceControl.ControlScreen.Tick` | frontend/screens/DeviceControl.js:79-107 | the shared state follows `PollSync` and the control fields follow `AdoptControls` on success and are untouched on failure |
| `DeviceControl.ControlScreen.SetDeviceDisplayMode` | frontend/screens/DeviceControl.js:22-35 | only `displayMode` may change; it becomes the argument iff the POST resolved |
| `DeviceControl.ControlScreen.SetSensorControl` | frontend/screens/DeviceControl.js:37-50 | only `isSensorActive` may change; it becomes the argument iff the POST resolved |
| `DeviceControl.ControlScreen.UpdateServerInterval` | frontend/screens/DeviceControl.js:52-65 | only `updateInterval` may change; it becomes the argument iff the POST resolved |
| `DeviceControl.ControlScreen.RecalibrateSensors` | frontend/screens/DeviceControl.js:67-76 | changes no screen state; the alert is raised iff the POST resolved |
| `Dashboard.Shift` | frontend/screens/Dashboard.js:31 | drops the oldest sample and appends the new one; length is kept for a non-empty history |
| `Dashboard.NextHistory` | frontend/screens/Dashboard.js:27-36 | the history shifts iff the body is accepted and carries a `bpm`; otherwise it is unchanged |
| `Dashboard.Poll` | frontend/screens/Dashboard.js:22-51 | the shared state follows `PollSync`; a failed fetch leaves the history unchanged; a 20-slot history stays 20 slots |
| `Dashboard.DuplicateDiscarded` | frontend/screens/Dashboard.js:27-36 | a second body with the same `last_updated` leaves `data` and history as the first left them |
| `Dashboard.FeedSlidesWindow` | frontend/screens/Dashboard.js:27-36 | after accepting readings with successive distinct timestamps the history is the tail of old history followed by the new samples |
| `Dashboard.TwentyOneReadings` | frontend/screens/Dashboard.js:17-31 | from twenty zeros, 21 fresh samples v1..v21 leave exactly v2..v21 |
| `Dashboard.StressConfidence` | frontend/screens/Dashboard.js:65-69 | "0.0%" iff offline, "94.2%" iff online |
| `Dashboard.DashboardScreen.constructor` | frontend/screens/Dashboard.js:9-19 | starts with the idle placeholder, twenty zeros, offline and loading |
| `Dashboard.DashboardScreen.Tick` | frontend/screens/Dashboard.js:22-51 | keeps the 20-slot invariant and its new state is `Poll` of the old one |
| `Analysis.AnalysisIcon` | frontend/screens/Analysis.js:58-63 | "cloud-off" iff offline; online, "warning" iff High and "check-circle" iff Normal/Low, otherwise "insights" |
| `Analysis.HrvBadge` | frontend/screens/Analysis.js:103 | "--" iff offline; online, "LOW" iff HRV < 50 and "GOOD" iff HRV >= 50 |
| `Analysis.Spo2Status` | frontend/screens/Analysis.js:119 | "OPTIMAL" iff online and SpO2 > 95, "CHECK" iff online and SpO2 <= 95, "--" iff offline |
| `Analysis.FailedTickShowsOffline` | frontend/screens/Analysis.js:40-43 | after a failed fetch the icon, HRV badge and SpO2 status all show their offline form |
| `Analysis.AnalysisScreen.constructor` | frontend/screens/Analysis.js:7-16 | starts with the waiting placeholder, offline and loading |
| `Analysis.AnalysisScreen.Tick` | frontend/screens/Analysis.js:19-44 | the new state is `PollSync` of the old one |
| `Server.Warning` | backend/server.py:104-108 | High gives the rest advice, Low "Relaxed state", every other label "Normal" (each iff) |
| `Server.StressIndex` | backend/server.py:87 | 0 when HRV is 0, otherwise the index times HRV is `bpm` |
| `Server.Assess` | backend/server.py:40-108 | missing or zero `bpm` gives the all-zero Idle reading; `bpm` outside 40..200 gives Invalid with the vitals echoed; otherwise HRV is capped at 200, the label is the classifier's on the route's feature vector and the warning follows the label |
| `Server.IdleIgnoresOtherInputs` | backend/server.py:40-61 | two idle requests give the same reading whatever their other keys and whatever the classifier |
| `Server.ClassifiedReadingsAreSane` | backend/server.py:63-85 | a request that passes the idle and range gates gives a reading with `bpm` in 40..200 and HRV at most 200, whatever label the classifier returns |
| `Server.Truncate` | backend/server.py:133 | `int()` truncates toward zero |
| `Server.WithSensor` | backend/server.py:141-147 | the stored flag follows `active`; stopping also zeroes `bpm` and `hrv`, starting touches nothing else |
| `Server.Server.constructor` | backend/server.py:16-33 | the start-up globals, with `last_updated` 0 |
| `Server.Server.Predict` | backend/server.py:35-126 | stores the assessed vitals with the current settings, the old recalibrate flag and the time (plus `server_now` on the Invalid branch), returns it, clears the flag and changes no other global |
| `Server.Server.SetInterval` | backend/server.py:128-135 | without `interval` nothing changes; with it, the global and the stored reading take the truncated value; replies the current interval |
| `Server.Server.SetSensorControl` | backend/server.py:137-148 | without `active` nothing changes; with it, the global takes it and the stored reading follows `WithSensor` |
| `Server.Server.SetDisplayMode` | backend/server.py:150-158 | without `mode` nothing changes; with it, the global and the stored reading's mode take it |
| `Server.Server.Recalibrate` | backend/server.py:160-164 | raises the flag and changes nothing else |
| `Server.Server.GetLatest` | backend/server.py:166-169 | replies the stored reading with `server_now` set to the current time and stores nothing |
| `Server.RecalibrateReachesOneReading` | backend/server.py:121-124 | after `/recalibrate` the next prediction carries the flag and the one after does not |
| `EndToEnd.Wire` | backend/server.py:166-169 | the body a screen parses carries every stored key, with the stored timestamp and interval |
| `EndToEnd.NeverConnectedIsOffline` | backend/server.py:21-33 | before the device has posted, every screen polling this store reads offline |
| `EndToEnd.LatestLiveness` | backend/server.py:166-169 | through `/latest`, a stamped reading is online iff its age on the server clock is below the interval plus 5 s, whatever the screen's own clock |
| `EndToEnd.SensorStopHiddenByGate` | backend/server.py:141-147 | stopping the sensor zeroes the stored `bpm` but a screen that accepted that reading keeps its vitals, while the control screen's sensor flag follows |
| `EndToEnd.DisplayModeReachesScreen` | backend/server.py:150-158 | a display mode set on the store reaches the control screen on its next poll |

## Left out

- Timers: the one-second `setInterval`, its cancellation on unmount, and overlapping in-flight fetches (concurrency); a tick is modelled one at a time with its outcome as a parameter, and runs of ticks as sequences.
- The HTTP transport, `console.error` and the alert dialog: each fetch's outcome is a parameter (`None` or `resolved == false` for a rejection). An HTTP error status still resolves the promise, so it counts as resolved; a non-JSON body fails the parse and counts as `None`.
- The recalibrate endpoint the control screen calls is not defined in frontend/config.js, so where that request goes is unknown; its outcome is a parameter.
- The analysis screen polls a fixed address of its own (frontend/screens/Analysis.js:21), not the configured base address the other two screens use (frontend/config.js:9-13), and it ignores the cloud setting; the `EndToEnd` lemmas assume that address reaches the same backend store, which nothing in the code guarantees.
- Rendering, layout and styles, apart from the colour, icon, confidence, HRV and SpO2 mappers.
- The ML ensemble (scaler, random forest, XGBoost, rounding of their average, label encoder and its fallback to the number as a string) is the `classify` parameter; Flask, CORS and start-up are not modelled; frontend/App.js and backend/simulate_esp32.py are not part of this model.
- Floating point: timestamps, `send_interval / 1000` and `bpm / hrv` are exact `real` arithmetic, so rounding and `NaN` are not modelled beyond the absent-key cases above; `time.time()`, called twice in the Invalid branch, is one `now`.
- JSON values of unexpected types (a string `bpm`, a `null` key, an `active` that is not a boolean, an `interval` `int()` rejects) are not modelled: each key has one type.
- React's batching of setters and updaters: each tick's updates are applied in order within the tick, as a single-threaded run would.
