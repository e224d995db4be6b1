/**
 The VPN session controller: a five-phase state machine driven by engine
 status events, connectivity changes, manual connect/disconnect calls, the
 delayed reconnect timer and the statistics polling timer.

 Each event is a pure function from the session before it to a `Step`: the
 session after it, the status updates it emitted on the way (one per phase
 set, with the error text set alongside, in order) and the traffic sample it
 produced, if any.
 Every handler receives the device readings at the moment the event is
 handled; only entering Connected and sampling look at them.
 */
module VpnSession {
  import opened Options
  import opened TrafficAccounting

  /** The retry cap of the reconnection policy. */
  const MaxReconnectAttempts: nat := 5

  datatype Phase = Disconnected | Connecting | Connected | Reconnecting | Error

  const NetworkLostMessage: string := "网络连接丢失"
  const RetryExhaustedMessage: string := "已达到最大重连次数"
  const ConnectFailedPrefix: string := "连接失败: "

  /** The status string the engine and the observers use for a phase. */
  function PhaseName(p: Phase): string
  {
    match p
    case Disconnected => "DISCONNECTED"
    case Connecting => "CONNECTING"
    case Connected => "CONNECTED"
    case Reconnecting => "RECONNECTING"
    case Error => "ERROR"
  }

  /** The phase an engine status string selects; any other string selects none. */
  function PhaseOfName(name: string): (r: Option<Phase>)
    ensures r.Some? ==> PhaseName(r.value) == name
  {
    if name == "DISCONNECTED" then Some(Disconnected)
    else if name == "CONNECTING" then Some(Connecting)
    else if name == "CONNECTED" then Some(Connected)
    else if name == "RECONNECTING" then Some(Reconnecting)
    else if name == "ERROR" then Some(Error)
    else None
  }

  /** Every phase is selected by its own name, so names and phases are in one-to-one correspondence. */
  lemma PhaseNameRoundTrip(p: Phase)
    ensures PhaseOfName(PhaseName(p)) == Some(p)
  {
  }

  /** The arguments of the most recent connect call; any of them may be null. */
  datatype Credentials = Credentials(username: Option<string>, password: Option<string>, config: Option<string>)

  predicate Complete(c: Credentials)
  {
    c.username.Some? && c.password.Some? && c.config.Some?
  }

  /**
   The controller's state. `polling` says whether the statistics timer is
   scheduled; `pendingReconnects` counts delayed reconnect tasks posted and
   not yet run.
   */
  datatype Session = Session(
    phase: Phase,
    lastError: string,
    reconnectAttempts: nat,
    savedCreds: Credentials,
    traffic: Monitor,
    polling: bool,
    pendingReconnects: nat)

  const Initial: Session := Session(Disconnected, "", 0, Credentials(None, None, None), Fresh, false, 0)

  /** A phase together with the error text set with it. */
  datatype StatusUpdate = StatusUpdate(phase: Phase, message: string)

  /** The status a session currently shows. */
  function StatusOf(s: Session): StatusUpdate
  {
    StatusUpdate(s.phase, s.lastError)
  }

  /** What an event did: the session after it, the status updates emitted in order, the sample it produced. */
  datatype Step = Step(after: Session, updates: seq<StatusUpdate>, report: Option<NetworkStats>)

  function NoChange(s: Session): Step
  {
    Step(s, [], None)
  }

  /**
   Sets the phase and the error text (empty when there is none). Entering
   Connected re-baselines traffic tracking and clears the attempt counter;
   entering Disconnected stops the statistics timer and closes the tracking
   span. Nothing else changes.
   */
  function Enter(s: Session, p: Phase, error: Option<string>, now: Readings): (t: Session)
    ensures t.phase == p
    ensures error.Some? ==> t.lastError == error.value
    ensures error.None? ==> t.lastError == ""
    ensures p == Connected ==> t.reconnectAttempts == 0 && t.traffic.isTracking && Baseline(t.traffic) == now
    ensures p != Connected ==> t.reconnectAttempts == s.reconnectAttempts
    ensures p == Disconnected ==> !t.polling && !t.traffic.isTracking && Baseline(t.traffic) == Baseline(s.traffic)
    ensures p != Disconnected ==> t.polling == s.polling
    ensures p != Connected && p != Disconnected ==> t.traffic == s.traffic
    ensures t.savedCreds == s.savedCreds && t.pendingReconnects == s.pendingReconnects
  {
    var t := s.(phase := p, lastError := error.GetOr(""));
    match p
    case Connected => t.(traffic := StartTracking(s.traffic, now), reconnectAttempts := 0)
    case Disconnected => t.(polling := false, traffic := StopTracking(s.traffic))
    case _ => t
  }

  /**
   A status event from the tunnel engine. A known status name sets the
   matching phase; only an ERROR event keeps its message. Unknown names are
   ignored.
   */
  function OnEngineEvent(s: Session, name: string, message: Option<string>, now: Readings): (st: Step)
    ensures PhaseOfName(name).None? ==> st == NoChange(s)
    ensures PhaseOfName(name).Some? ==> st.updates == [StatusOf(st.after)] && PhaseName(st.after.phase) == name
    ensures name == "ERROR" ==> st.after.lastError == message.GetOr("")
    ensures PhaseOfName(name).Some? && name != "ERROR" ==> st.after.lastError == ""
    ensures name == "CONNECTED" ==> st.after.reconnectAttempts == 0 && st.after.traffic == StartTracking(s.traffic, now)
    ensures name == "CONNECTED" ==> st.after.polling == s.polling
    ensures name != "CONNECTED" ==> st.after.reconnectAttempts == s.reconnectAttempts
    ensures name == "DISCONNECTED" ==>
      !st.after.polling && !st.after.traffic.isTracking && Baseline(st.after.traffic) == Baseline(s.traffic)
    ensures name != "CONNECTED" && name != "DISCONNECTED" ==>
      st.after.polling == s.polling && st.after.traffic == s.traffic
    ensures st.after.savedCreds == s.savedCreds && st.after.pendingReconnects == s.pendingReconnects
    ensures st.report.None?
  {
    match PhaseOfName(name)
    case None => NoChange(s)
    case Some(p) =>
      var t := Enter(s, p, if p == Error then message else None, now);
      Step(t, [StatusOf(t)], None)
  }

  /** Full disconnect: the counter is reset and the session ends Disconnected with tracking and polling stopped. */
  function Disconnect(s: Session, now: Readings): (st: Step)
    ensures st.after.phase == Disconnected && st.after.lastError == ""
    ensures st.after.reconnectAttempts == 0
    ensures !st.after.polling && !st.after.traffic.isTracking
    ensures Baseline(st.after.traffic) == Baseline(s.traffic)
    ensures st.after.savedCreds == s.savedCreds && st.after.pendingReconnects == s.pendingReconnects
    ensures st.updates == [StatusUpdate(Disconnected, "")] && st.report.None?
  {
    Step(Enter(s.(reconnectAttempts := 0), Disconnected, None, now), [StatusUpdate(Disconnected, "")], None)
  }

  /**
   The reconnection policy. Below the cap one more attempt is counted and one
   delayed reconnect is posted; at the cap no retry is posted, the
   retry-exhausted error is surfaced and the session is fully disconnected.
   */
  function ScheduleReconnect(s: Session, now: Readings): (st: Step)
    ensures s.reconnectAttempts < MaxReconnectAttempts ==>
      && st.after == s.(reconnectAttempts := s.reconnectAttempts + 1, pendingReconnects := s.pendingReconnects + 1)
      && st.updates == []
    ensures s.reconnectAttempts >= MaxReconnectAttempts ==>
      && st.updates == [StatusUpdate(Error, RetryExhaustedMessage), StatusUpdate(Disconnected, "")]
      && st.after.phase == Disconnected && st.after.lastError == ""
      && st.after.reconnectAttempts == 0
      && !st.after.polling && !st.after.traffic.isTracking
      && Baseline(st.after.traffic) == Baseline(s.traffic)
      && st.after.savedCreds == s.savedCreds
      && st.after.pendingReconnects == s.pendingReconnects
    ensures st.report.None?
  {
    if s.reconnectAttempts < MaxReconnectAttempts then
      Step(s.(reconnectAttempts := s.reconnectAttempts + 1, pendingReconnects := s.pendingReconnects + 1), [], None)
    else
      var exhausted := Enter(s, Error, Some(RetryExhaustedMessage), now);
      var d := Disconnect(exhausted, now);
      Step(d.after, [StatusOf(exhausted)] + d.updates, None)
  }

  /** Connectivity lost: any live phase becomes Error "network lost"; Disconnected is left alone. */
  function OnNetworkLost(s: Session, now: Readings): (st: Step)
    ensures s.phase == Disconnected ==> st == NoChange(s)
    ensures s.phase != Disconnected ==>
      && st.after == s.(phase := Error, lastError := NetworkLostMessage)
      && st.updates == [StatusUpdate(Error, NetworkLostMessage)]
    ensures st.report.None?
  {
    if s.phase != Disconnected then
      Step(Enter(s, Error, Some(NetworkLostMessage), now), [StatusUpdate(Error, NetworkLostMessage)], None)
    else NoChange(s)
  }

  /** Connectivity available: only an Error session runs the reconnection policy. */
  function OnNetworkAvailable(s: Session, now: Readings): (st: Step)
    ensures s.phase != Error ==> st == NoChange(s)
    ensures s.phase == Error ==> st == ScheduleReconnect(s, now)
  {
    if s.phase == Error then ScheduleReconnect(s, now) else NoChange(s)
  }

  /**
   What the connect worker's profile parsing and engine start did: the engine
   was started, the parser returned no profile, or an exception with the given
   (possibly null) message was raised before the engine was started.
   */
  datatype StartOutcome = Started | ParseFailed | Raised(message: Option<string>)

  /** The error text of a failed connect; Java renders a null message as "null". */
  function ConnectFailure(message: Option<string>): (text: string)
    ensures |ConnectFailedPrefix| <= |text| && text[..|ConnectFailedPrefix|] == ConnectFailedPrefix
    ensures message.Some? ==> text[|ConnectFailedPrefix|..] == message.value
    ensures message.None? ==> text[|ConnectFailedPrefix|..] == "null"
  {
    ConnectFailedPrefix + message.GetOr("null")
  }

  /**
   Manual connect. The arguments overwrite the saved credentials first. A
   parse failure changes nothing else. A raised exception surfaces Error. A
   started engine enters Connecting and (re)starts the statistics timer,
   which first closes the tracking span. A null config always raises, since
   the parser reads it. The attempt counter is not touched.
   */
  function Connect(s: Session, username: Option<string>, password: Option<string>, config: Option<string>,
                   outcome: StartOutcome, now: Readings): (st: Step)
    requires config.Some? || outcome.Raised?
    ensures st.after.savedCreds == Credentials(username, password, config)
    ensures st.after.reconnectAttempts == s.reconnectAttempts
    ensures st.after.pendingReconnects == s.pendingReconnects
    ensures outcome == ParseFailed ==> st.after == s.(savedCreds := st.after.savedCreds) && st.updates == []
    ensures outcome.Raised? ==>
      && st.after.phase == Error && st.after.lastError == ConnectFailure(outcome.message)
      && st.after.polling == s.polling && st.after.traffic == s.traffic
      && st.updates == [StatusOf(st.after)]
    ensures outcome == Started ==>
      && st.after.phase == Connecting && st.after.lastError == ""
      && st.after.polling && !st.after.traffic.isTracking
      && Baseline(st.after.traffic) == Baseline(s.traffic)
      && st.updates == [StatusUpdate(Connecting, "")]
    ensures st.report.None?
  {
    var saved := s.(savedCreds := Credentials(username, password, config));
    match outcome
    case ParseFailed => NoChange(saved)
    case Raised(message) =>
      var failed := Enter(saved, Error, Some(ConnectFailure(message)), now);
      Step(failed, [StatusOf(failed)], None)
    case Started =>
      var connecting := Enter(saved, Connecting, None, now);
      Step(connecting.(polling := true, traffic := StopTracking(connecting.traffic)), [StatusOf(connecting)], None)
  }

  /**
   A delayed reconnect task runs (one must be pending). With all three saved
   credentials present it sets Reconnecting and replays them through
   Connect; otherwise it does nothing. It does not look at the phase.
   */
  function OnReconnectTimer(s: Session, outcome: StartOutcome, now: Readings): (st: Step)
    ensures s.pendingReconnects == 0 ==> st == NoChange(s)
    ensures s.pendingReconnects > 0 && !Complete(s.savedCreds) ==>
      st == NoChange(s.(pendingReconnects := s.pendingReconnects - 1))
    ensures s.pendingReconnects > 0 && Complete(s.savedCreds) ==>
      && |st.updates| > 0 && st.updates[0] == StatusUpdate(Reconnecting, "")
      && st.after.savedCreds == s.savedCreds
      && st.after.pendingReconnects == s.pendingReconnects - 1
      && st.after.reconnectAttempts == s.reconnectAttempts
      && (outcome == ParseFailed ==>
            && st.after == s.(phase := Reconnecting, lastError := "", pendingReconnects := s.pendingReconnects - 1)
            && st.updates == [StatusUpdate(Reconnecting, "")])
      && (outcome == Started ==>
            && st.after.phase == Connecting && st.after.lastError == ""
            && st.after.polling && !st.after.traffic.isTracking
            && Baseline(st.after.traffic) == Baseline(s.traffic)
            && st.updates == [StatusUpdate(Reconnecting, ""), StatusUpdate(Connecting, "")])
      && (outcome.Raised? ==>
            && st.after.phase == Error && st.after.lastError == ConnectFailure(outcome.message)
            && st.after.polling == s.polling && st.after.traffic == s.traffic
            && st.updates == [StatusUpdate(Reconnecting, ""), StatusOf(st.after)])
    ensures st.report.None?
  {
    if s.pendingReconnects == 0 then NoChange(s)
    else
      var fired := s.(pendingReconnects := s.pendingReconnects - 1);
      var c := fired.savedCreds;
      if Complete(c) then
        var retry := Connect(Enter(fired, Reconnecting, None, now), c.username, c.password, c.config, outcome, now);
        Step(retry.after, [StatusUpdate(Reconnecting, "")] + retry.updates, None)
      else NoChange(fired)
  }

  /**
   One tick of the statistics timer. While the timer runs and the status is
   CONNECTED it samples traffic and reports the sample; otherwise it does
   nothing.
   */
  function OnPollTick(s: Session, now: Readings): (st: Step)
    ensures st.report.Some? <==> s.polling && s.phase == Connected
    ensures st.report.Some? ==>
      && st.report.value == Sample(s.traffic, now).stats
      && st.after == s.(traffic := Sample(s.traffic, now).monitor)
    ensures st.report.None? ==> st == NoChange(s)
  {
    if s.polling && PhaseName(s.phase) == "CONNECTED" then
      var sampled := Sample(s.traffic, now);
      Step(s.(traffic := sampled.monitor), [], Some(sampled.stats))
    else NoChange(s)
  }

  /** A statistics query from the host application: always samples, whatever the phase. */
  function OnStatsQuery(s: Session, now: Readings): (st: Step)
    ensures st.report.Some? && st.report.value == Sample(s.traffic, now).stats
    ensures st.after == s.(traffic := Sample(s.traffic, now).monitor) && st.updates == []
  {
    var sampled := Sample(s.traffic, now);
    Step(s.(traffic := sampled.monitor), [], Some(sampled.stats))
  }

  /** Everything that can happen to the controller. */
  datatype Event =
    | EngineStatus(name: string, message: Option<string>)
    | Lost
    | Available
    | TimerFired(timerOutcome: StartOutcome)
    | ConnectRequest(username: Option<string>, password: Option<string>, config: Option<string>, outcome: StartOutcome)
    | DisconnectRequest
    | Tick
    | StatsRequest

  /** An event together with the device readings at the moment it is handled. */
  datatype Timed = Timed(event: Event, now: Readings)

  /** Connect oracles are consistent with their arguments: a null config always raises. */
  predicate Consistent(e: Event)
  {
    e.ConnectRequest? ==> e.config.Some? || e.outcome.Raised?
  }

  function Apply(s: Session, e: Event, now: Readings): Step
    requires Consistent(e)
  {
    match e
    case EngineStatus(name, message) => OnEngineEvent(s, name, message, now)
    case Lost => OnNetworkLost(s, now)
    case Available => OnNetworkAvailable(s, now)
    case TimerFired(outcome) => OnReconnectTimer(s, outcome, now)
    case ConnectRequest(u, p, c, outcome) => Connect(s, u, p, c, outcome, now)
    case DisconnectRequest => Disconnect(s, now)
    case Tick => OnPollTick(s, now)
    case StatsRequest => OnStatsQuery(s, now)
  }

  predicate AllConsistent(events: seq<Timed>)
  {
    forall i :: 0 <= i < |events| ==> Consistent(events[i].event)
  }

  /** The session after handling `events` in order. */
  function Run(s: Session, events: seq<Timed>): Session
    requires AllConsistent(events)
    decreases |events|
  {
    if |events| == 0 then s
    else Run(Apply(s, events[0].event, events[0].now).after, events[1..])
  }
}
