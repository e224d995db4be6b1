# OpenVPN plugin session controller — Dafny model

This project models the two sequential pieces of the Android OpenVPN plugin:

- the **session controller** of `OpenVPNPlugin`: the five phases
  `DISCONNECTED`, `CONNECTING`, `CONNECTED`, `RECONNECTING` and `ERROR`, the
  central transition `setVpnState`, the enum-based `updateState` that maps
  engine status strings onto phases, the connectivity reactions
  `onAvailable`/`onLost`, the capped flat-delay reconnection policy
  `scheduleReconnect` (`MAX_RECONNECT_ATTEMPTS = 5`), the state-relevant
  part of `connect` and `disconnect`, and the guard of the statistics
  polling timer;
- the **traffic accounting** of `NetworkStatsMonitor`: `startTracking`,
  `stopTracking` and `getVPNNetworkStats`, i.e. baseline capture followed by
  subtraction, with truncating division to whole seconds.

Files:

- `options.dfy` — `Option`, standing for a Java reference that may be null.
- `traffic.dfy` — module `TrafficAccounting`. The device counters and clock
  (`TrafficStats`, `SystemClock`) become a `Readings(rx, tx, nowMs)`
  parameter, so the monitor is a pure value `Monitor(startRx, startTx,
  startTime, isTracking)`.
- `session.dfy` — module `VpnSession`. The controller is an immutable
  `Session(phase, lastError, reconnectAttempts, savedCreds, traffic,
  polling, pendingReconnects)`, and each event is a pure function returning
  a `Step(after, updates, report)`: the session after the event, the
  (phase, error text) pairs passed to `setVpnState` in order (one status
  update each), and the traffic sample produced, if any. Every handler receives the device readings at the
  moment the event is handled.
- `session_properties.dfy` — module `SessionProperties`: the controller
  invariant and its preservation over arbitrary event runs, how the attempt
  counter can move, retry exhaustion (by bare connectivity signals and by
  failed reconnection cycles), what the forced disconnect at the cap leaves
  behind, disconnect idempotence and scenarios.

Modelling decisions:

- The 5-second delayed reconnect (`postDelayed`) becomes a counter of posted
  tasks and a separate `TimerFired` event; the 5-second statistics timer
  becomes a `polling` flag and a `Tick` event. Several reconnect tasks can be
  pending at once, as repeated `onAvailable` calls post one each.
- `connect`'s worker body is modelled as running immediately after the
  credentials are saved (all events are handled one at a time). Profile
  parsing, profile persistence and engine start are an oracle
  `StartOutcome`: `Started`, `ParseFailed` (the parser returned null) or
  `Raised(message)` (an exception before the engine started). A null config
  always raises, because the worker dereferences it; `Connect` requires
  its oracle to agree with that.
- Java renders a null exception message as `"null"` in the error text
  `"连接失败: " + message`; `ConnectFailure` does the same.
- `currentStatus`, which the source reads but never declares, is taken to
  be the status name of the current phase (`PhaseName`); the polling guard
  compares that name with `"CONNECTED"`.
- `OpenVPNPlugin.java` declares `updateState` twice; the enum-based one at
  lines 531-552 is modelled and the string-based one at lines 279-296 is not.

Behaviour of the code as written that a reader might not expect:

- `connect` does not reset `reconnectAttempts`; only entering `CONNECTED`
  and `disconnect` do (`ConnectKeepsAttempts`, `AttemptsMoveOnlyByPolicy`).
- `disconnect` does not cancel reconnect tasks already posted, and the
  delayed task does not look at the phase, so a pending reconnect revives a
  session after a manual disconnect (`PendingReconnectSurvivesDisconnect`).
- When the cap is reached the session passes through `ERROR` with
  "已达到最大重连次数" and ends `DISCONNECTED`.
- The forced disconnect at the cap resets the counter but leaves the
  reconnects it posted earlier, so retrying can start over without a manual
  connect: a posted reconnect whose connect fails puts the session back in
  `ERROR` with the counter at zero and any remaining posted reconnects still pending
  (`ExhaustionLeavesPostedReconnects`). Exhaustion is therefore not terminal.
- An engine `CONNECTED` event does not start the statistics timer; only a
  successful `connect` does. After an engine `DISCONNECTED` (which stops the
  timer) an engine `CONNECTED` leaves a connected session that never reports
  statistics (`OnEngineEvent` keeps `polling` on CONNECTED).
- An engine `DISCONNECTED` event keeps the attempt counter; only
  `disconnect` resets it on the way to `DISCONNECTED`.
- A successful `connect` restarts the statistics timer, and doing so first
  closes the traffic tracking span (`stopNetworkMonitoring` calls
  `stopTracking`); tracking reopens when the engine reports `CONNECTED`.
- `onLost` moves every phase other than `DISCONNECTED` to `ERROR`, including
  `CONNECTING` and `RECONNECTING`.

## Model

| member | source | states |
|---|---|---|
| `TrafficAccounting.StartTracking` | src/main/java/com/example/openvpn/NetworkStatsMonitor.java:21-28 | After starting, the baseline equals the current readings (rx, tx, time) and a span is open, whatever the monitor held before. |
| `TrafficAccounting.StopTracking` | src/main/java/com/example/openvpn/NetworkStatsMonitor.java:31-33 | Stopping closes the span and leaves the three baseline fields unchanged. |
| `TrafficAccounting.Sample` | src/main/java/com/example/openvpn/NetworkStatsMonitor.java:36-51 | Outside a span the sample first re-baselines at the current readings and is all zeros; inside one the baseline is untouched; sent bytes come from Tx, received from Rx, time is the elapsed milliseconds in whole seconds; afterwards a span is open. |
| `TrafficAccounting.WholeSeconds` | src/main/java/com/example/openvpn/NetworkStatsMonitor.java:48 | Java's long division by 1000: the quotient truncated toward zero, characterised for both signs of the elapsed time. |
| `TrafficAccounting.WholeSecondsOfNonNegative` | src/main/java/com/example/openvpn/NetworkStatsMonitor.java:48 | For non-negative elapsed time the truncated quotient equals Euclidean division by 1000. |
| `TrafficAccounting.SampleMonotonic` | src/main/java/com/example/openvpn/NetworkStatsMonitor.java:41-50 | Within one span, a sample on larger readings is at least as large in every field. |
| `TrafficAccounting.SpanKeepsBaseline` | src/main/java/com/example/openvpn/NetworkStatsMonitor.java:36-51 | Any number of samples inside an open span leave the monitor unchanged, and each sample is taken against the span's baseline. |
| `TrafficAccounting.SpanSamplesNonDecreasing` | src/main/java/com/example/openvpn/NetworkStatsMonitor.java:36-51 | With non-decreasing counter readings, successive samples are non-decreasing in sent, received and seconds, whether or not a span was open at the start. |
| `TrafficAccounting.SampleAfterStopRestarts` | src/main/java/com/example/openvpn/NetworkStatsMonitor.java:31-39 | Stopping keeps the baseline, but the next sample re-baselines at the current readings and reports zeros. |
| `TrafficAccounting.FirstSampleIsZero` | src/main/java/com/example/openvpn/NetworkStatsMonitor.java:37-39 | A monitor never started returns the zero sample and opens its span at the current readings. |
| `VpnSession.PhaseOfName` | src/main/java/com/example/openvpn/OpenVPNPlugin.java:535-551 | An engine status string selects a phase only if it is that phase's name. |
| `VpnSession.PhaseNameRoundTrip` | src/main/java/com/example/openvpn/OpenVPNPlugin.java:535-551 | Every phase is selected by its own status name. |
| `VpnSession.Enter` | src/main/java/com/example/openvpn/OpenVPNPlugin.java:500-528 | Sets the phase and the error text ("" for a null error); entering CONNECTED zeroes the counter and re-baselines tracking at the current readings; entering DISCONNECTED stops polling and tracking with the baseline kept; nothing else changes. |
| `VpnSession.OnEngineEvent` | src/main/java/com/example/openvpn/OpenVPNPlugin.java:531-552 | A known status sets exactly its phase and emits one status update; only ERROR keeps its message ("" if null); CONNECTED resets the counter and re-baselines but leaves the statistics timer as it was; every other status keeps the counter; DISCONNECTED stops polling and closes the span with the baseline kept; the remaining three keep polling and the monitor; credentials and pending reconnects are kept; unknown strings change nothing. |
| `VpnSession.Disconnect` | src/main/java/com/example/openvpn/OpenVPNPlugin.java:217-238 | Always ends DISCONNECTED with counter 0, empty error, polling and tracking stopped, baseline, credentials and pending reconnects kept. |
| `VpnSession.ScheduleReconnect` | src/main/java/com/example/openvpn/OpenVPNPlugin.java:476-498 | Below the cap: counter and pending reconnects each rise by exactly one, nothing else changes. At the cap: no reconnect posted; the updates are ERROR with "已达到最大重连次数" then DISCONNECTED with ""; the session ends DISCONNECTED with empty error, counter 0, polling and tracking stopped, baseline and credentials kept. |
| `VpnSession.OnNetworkLost` | src/main/java/com/example/openvpn/OpenVPNPlugin.java:462-470 | Any phase but DISCONNECTED becomes ERROR with "网络连接丢失", all else unchanged; DISCONNECTED is untouched. |
| `VpnSession.OnNetworkAvailable` | src/main/java/com/example/openvpn/OpenVPNPlugin.java:453-460 | Runs the reconnection policy only from ERROR; every other phase is left unchanged. |
| `VpnSession.ConnectFailure` | src/main/java/com/example/openvpn/OpenVPNPlugin.java:209 | The failure text is the "连接失败: " prefix followed by the exception message, or by "null" when the message is null. |
| `VpnSession.Connect` | src/main/java/com/example/openvpn/OpenVPNPlugin.java:165-214 | Saved credentials are overwritten by the arguments; the counter is untouched; a parse failure changes nothing else; an exception yields ERROR with the failure text; a started engine yields CONNECTING with polling on and the tracking span closed. |
| `VpnSession.OnReconnectTimer` | src/main/java/com/example/openvpn/OpenVPNPlugin.java:481-492 | A pending reconnect with all three credentials present enters RECONNECTING and replays them through connect; with any credential null only the pending task is consumed. A started replay ends CONNECTING with empty error, polling on and the span closed (baseline kept); a parse failure ends RECONNECTING with nothing else changed; a raising replay ends ERROR with the failure text, polling and monitor kept. |
| `VpnSession.OnPollTick` | src/main/java/com/example/openvpn/OpenVPNPlugin.java:354-381 | A tick reports a sample if and only if the timer runs and the phase is CONNECTED; otherwise nothing changes. |
| `VpnSession.OnStatsQuery` | src/main/java/com/example/openvpn/OpenVPNPlugin.java:259-275 | A statistics query samples the monitor in any phase and changes nothing but the monitor. |
| `SessionProperties.InitialInv` | src/main/java/com/example/openvpn/OpenVPNPlugin.java:60-68 | The start-up session satisfies the controller invariant. |
| `SessionProperties.StepPreservesInv` | src/main/java/com/example/openvpn/OpenVPNPlugin.java:476-528 | Every event keeps counter <= 5, error text only in ERROR, and no polling while DISCONNECTED. |
| `SessionProperties.RunPreservesInv` | src/main/java/com/example/openvpn/OpenVPNPlugin.java:476-528 | The invariant holds after any sequence of events. |
| `SessionProperties.AttemptsNeverExceedCap` | src/main/java/com/example/openvpn/OpenVPNPlugin.java:45 | From start-up, under any event sequence, the counter never exceeds MAX_RECONNECT_ATTEMPTS (5). |
| `SessionProperties.AttemptsMoveOnlyByPolicy` | src/main/java/com/example/openvpn/OpenVPNPlugin.java:476-478 | The counter rises only by exactly one, on connectivity returning to ERROR below the cap (posting one reconnect); it falls only to 0, on entering CONNECTED or DISCONNECTED. |
| `SessionProperties.EnteringConnectedResets` | src/main/java/com/example/openvpn/OpenVPNPlugin.java:506-510 | Any event that enters CONNECTED leaves the counter at 0 and tracking re-baselined at the current readings, whatever the counter was. |
| `SessionProperties.DisconnectIdempotent` | src/main/java/com/example/openvpn/OpenVPNPlugin.java:217-225 | Disconnecting twice gives the same session as disconnecting once. |
| `SessionProperties.DisconnectWhenIdleIsNoOp` | src/main/java/com/example/openvpn/OpenVPNPlugin.java:219-225 | Disconnecting a reachable DISCONNECTED session with counter 0 and no open span changes nothing. |
| `SessionProperties.RetriesBelowCap` | src/main/java/com/example/openvpn/OpenVPNPlugin.java:476-492 | Below the cap, each connectivity-available signal to an ERROR session counts one attempt and posts one reconnect, staying in ERROR. |
| `SessionProperties.RetriesExhaust` | src/main/java/com/example/openvpn/OpenVPNPlugin.java:493-497 | After the remaining attempts are used, the next signal posts no reconnect and forces DISCONNECTED with the counter reset. |
| `SessionProperties.PostedBetweenResets` | src/main/java/com/example/openvpn/OpenVPNPlugin.java:476-492 | Along any event run that never lowers the counter, the number of events that post a reconnect equals the counter's rise, so at most 5 minus the attempts already counted are posted between resets. |
| `SessionProperties.OneFailedCycle` | src/main/java/com/example/openvpn/OpenVPNPlugin.java:453-498 | Below the cap, one failed reconnection cycle (signal, delayed reconnect, then engine ERROR or a raising connect) returns to ERROR with exactly one more attempt, the same pending count and the same credentials. |
| `SessionProperties.FailedCyclesCount` | src/main/java/com/example/openvpn/OpenVPNPlugin.java:453-498 | After k failed cycles within the cap the session is in ERROR with k more attempts counted. |
| `SessionProperties.FailedCyclesExhaust` | src/main/java/com/example/openvpn/OpenVPNPlugin.java:493-497 | Once the remaining attempts are spent on failed cycles, the next signal posts nothing, emits ERROR "已达到最大重连次数" then DISCONNECTED, and leaves the counter at 0. |
| `SessionProperties.ExhaustionLeavesPostedReconnects` | src/main/java/com/example/openvpn/OpenVPNPlugin.java:481-497 | After exhaustion by bare signals, a posted reconnect whose connect raises brings the session back to ERROR with counter 0, the same credentials and the remaining posted reconnects still pending. |
| `SessionProperties.PendingReconnectSurvivesDisconnect` | src/main/java/com/example/openvpn/OpenVPNPlugin.java:481-492 | A reconnect posted before a manual disconnect still runs and takes the session through RECONNECTING into CONNECTING, emitting those two updates with empty error text. |
| `SessionProperties.ConnectKeepsAttempts` | src/main/java/com/example/openvpn/OpenVPNPlugin.java:165-214 | A successful manual connect leaves the attempt counter as it was. |
| `SessionProperties.ParseFailureKeepsState` | src/main/java/com/example/openvpn/OpenVPNPlugin.java:167-181 | A parse failure keeps phase, error text and counter but stores the new credentials. |
| `SessionProperties.ScenarioConnectThenConnected` | src/main/java/com/example/openvpn/OpenVPNPlugin.java:199-202 | connect then an engine CONNECTED event from start-up gives CONNECTED, counter 0, polling on and tracking baselined at the second event's readings. |
| `SessionProperties.ScenarioLostThenRestored` | src/main/java/com/example/openvpn/OpenVPNPlugin.java:453-492 | From CONNECTED: losing the network gives ERROR "网络连接丢失", its return counts one attempt, and the delayed reconnect replays the saved credentials through RECONNECTING into CONNECTING. |
| `SessionProperties.PollGuardIsConnectedPhase` | src/main/java/com/example/openvpn/OpenVPNPlugin.java:357 | The status name equals "CONNECTED" exactly in the CONNECTED phase. |
| `SessionProperties.PhaseNamesInjective` | src/main/java/com/example/openvpn/OpenVPNPlugin.java:48-54 | Two phases have the same status name only if they are the same phase. |

## Left out

- Notifications, the notification channel and the foreground service: Android UI side effects with no effect on the state.
- Wake-lock acquisition and release: an OS resource with no effect on the state.
- Broadcast-receiver registration, the connectivity request, `init`'s permission check and `onDestroy`: platform plumbing.
- Threads, handlers and timers: replaced by explicit events handled one at a time; the 5-second delays are not modelled as time.
- Status, error and statistics callbacks and their JSON payloads, `getStatus` and `setStatusCallback`: bridge I/O; `updates` records each phase passed to `setVpnState`, with the error text stored alongside it.
- Profile parsing and `ProfileManager` persistence: foreign library calls, modelled by the `StartOutcome` oracle.
- `OpenVPNService.java` and the OpenVPN engine behind it: `stopVPN` and `startVPN` are assumed not to throw outside the `StartOutcome` oracle.
- The string-based `updateState` at lines 279-296: a duplicate of the enum-based one that refers to an undeclared field.
- A null `networkStatsMonitor` before `init`: the model assumes `init` has run; before it, entering CONNECTED would throw.
- A null engine status string (a Java `switch` on null throws) and a null `connect` callback (throws after CONNECTING is set): not modelled.
- Exceptions in `connect` after the engine has started (the callback or the dropped notification calls can raise there): not modelled.
- TrafficAccounting.Sample: when no span is open, the source reads the counters and clock twice, once to open the span and once to sample; the model uses one reading for both, so the first sample of a span is exactly zero rather than the tiny traffic between the two reads.
- Java `long` overflow and counter wrap-around: counters are unbounded integers; negative deltas are kept, not corrected.
