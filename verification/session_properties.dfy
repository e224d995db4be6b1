/**
 Properties of the session controller that relate several events: the
 invariant every event keeps (and hence every run from the initial session),
 the attempt counter's only ways to move, retry exhaustion, disconnect's
 idempotence, and the behaviours of the documented scenarios.
 */
module SessionProperties {
  import opened Options
  import opened TrafficAccounting
  import opened VpnSession

  /**
   The controller invariant: the attempt counter stays within the cap, an
   error text is only held in Error, and the statistics timer never runs
   while Disconnected.
   */
  ghost predicate Inv(s: Session)
  {
    && s.reconnectAttempts <= MaxReconnectAttempts
    && (s.phase != Error ==> s.lastError == "")
    && (s.phase == Disconnected ==> !s.polling)
  }

  lemma InitialInv()
    ensures Inv(Initial)
  {
  }

  /** Every event keeps the invariant. */
  lemma StepPreservesInv(s: Session, e: Event, now: Readings)
    requires Consistent(e)
    requires Inv(s)
    ensures Inv(Apply(s, e, now).after)
  {
  }

  /** The invariant holds after any run of events started from a session satisfying it. */
  lemma {:induction false} RunPreservesInv(s: Session, events: seq<Timed>)
    requires AllConsistent(events)
    requires Inv(s)
    ensures Inv(Run(s, events))
    decreases |events|
  {
    if |events| > 0 {
      StepPreservesInv(s, events[0].event, events[0].now);
      RunPreservesInv(Apply(s, events[0].event, events[0].now).after, events[1..]);
    }
  }

  /** From start-up, under any sequence of events, the attempt counter never exceeds the cap. */
  lemma AttemptsNeverExceedCap(events: seq<Timed>)
    requires AllConsistent(events)
    ensures Run(Initial, events).reconnectAttempts <= MaxReconnectAttempts
    ensures Run(Initial, events).phase != Error ==> Run(Initial, events).lastError == ""
  {
    InitialInv();
    RunPreservesInv(Initial, events);
  }

  /**
   The attempt counter only moves in two ways: it rises by exactly one when
   connectivity returns to an Error session below the cap, and it drops only
   to zero, on entering Connected or Disconnected. A reconnect is posted only
   together with such a rise.
   */
  lemma AttemptsMoveOnlyByPolicy(s: Session, e: Event, now: Readings)
    requires Consistent(e)
    ensures var t := Apply(s, e, now).after;
      && (t.reconnectAttempts > s.reconnectAttempts ==>
            && e == Available && s.phase == Error
            && s.reconnectAttempts < MaxReconnectAttempts
            && t.reconnectAttempts == s.reconnectAttempts + 1
            && t.pendingReconnects == s.pendingReconnects + 1)
      && (t.reconnectAttempts < s.reconnectAttempts ==>
            t.reconnectAttempts == 0 && (t.phase == Connected || t.phase == Disconnected))
      && (t.pendingReconnects > s.pendingReconnects ==>
            t.pendingReconnects == s.pendingReconnects + 1 && t.reconnectAttempts == s.reconnectAttempts + 1)
  {
  }

  /** No event of the run, taken from `s`, lowers the attempt counter. */
  ghost predicate NoReset(s: Session, events: seq<Timed>)
    requires AllConsistent(events)
    decreases |events|
  {
    |events| == 0 ||
      var t := Apply(s, events[0].event, events[0].now).after;
      && s.reconnectAttempts <= t.reconnectAttempts
      && NoReset(t, events[1..])
  }

  /** The number of events of the run, taken from `s`, that post a delayed reconnect. */
  ghost function Posted(s: Session, events: seq<Timed>): nat
    requires AllConsistent(events)
    decreases |events|
  {
    if |events| == 0 then 0
    else
      var t := Apply(s, events[0].event, events[0].now).after;
      (if s.pendingReconnects < t.pendingReconnects then 1 else 0) + Posted(t, events[1..])
  }

  /**
   Between resets every reconnect posted is one counted attempt: along any
   run in which the counter is never lowered, the number of posting events
   equals the rise of the counter, so at most the cap minus the attempts
   already counted are posted.
   */
  lemma {:induction false} PostedBetweenResets(s: Session, events: seq<Timed>)
    requires AllConsistent(events)
    requires Inv(s)
    requires NoReset(s, events)
    ensures Posted(s, events) == Run(s, events).reconnectAttempts - s.reconnectAttempts
    ensures Posted(s, events) <= MaxReconnectAttempts - s.reconnectAttempts
    decreases |events|
  {
    RunPreservesInv(s, events);
    if |events| > 0 {
      var t := Apply(s, events[0].event, events[0].now).after;
      AttemptsMoveOnlyByPolicy(s, events[0].event, events[0].now);
      StepPreservesInv(s, events[0].event, events[0].now);
      PostedBetweenResets(t, events[1..]);
    }
  }

  /**
   Any event that enters Connected, whatever the counter was before, leaves
   it at zero and tracking re-baselined at the current readings.
   */
  lemma EnteringConnectedResets(s: Session, e: Event, now: Readings)
    requires Consistent(e)
    ensures var st := Apply(s, e, now);
      (exists m :: StatusUpdate(Connected, m) in st.updates) ==>
        st.after.reconnectAttempts == 0 && st.after.traffic == StartTracking(s.traffic, now)
  {
  }

  /** A second disconnect changes nothing that the first did not. */
  lemma DisconnectIdempotent(s: Session, now: Readings, later: Readings)
    ensures Disconnect(Disconnect(s, now).after, later).after == Disconnect(s, now).after
  {
  }

  /** Disconnecting an idle session (Disconnected, counter zero, no open span) leaves it exactly as it was. */
  lemma DisconnectWhenIdleIsNoOp(s: Session, now: Readings)
    requires Inv(s)
    requires s.phase == Disconnected && s.reconnectAttempts == 0 && !s.traffic.isTracking
    ensures Disconnect(s, now).after == s
  {
  }

  predicate AllAvailable(events: seq<Timed>)
  {
    forall i :: 0 <= i < |events| ==> events[i].event == Available
  }

  lemma AvailableConsistent(events: seq<Timed>)
    requires AllAvailable(events)
    ensures AllConsistent(events)
  {
  }

  /**
   While below the cap, each connectivity-available signal to an Error
   session counts one attempt and posts one delayed reconnect, and the
   session stays in Error.
   */
  lemma {:induction false} RetriesBelowCap(s: Session, events: seq<Timed>)
    requires s.phase == Error
    requires AllAvailable(events)
    requires s.reconnectAttempts + |events| <= MaxReconnectAttempts
    ensures AllConsistent(events)
    ensures Run(s, events) == s.(reconnectAttempts := s.reconnectAttempts + |events|,
                                 pendingReconnects := s.pendingReconnects + |events|)
    decreases |events|
  {
    AvailableConsistent(events);
    if |events| > 0 {
      var t := Apply(s, events[0].event, events[0].now).after;
      assert t == s.(reconnectAttempts := s.reconnectAttempts + 1, pendingReconnects := s.pendingReconnects + 1);
      assert AllAvailable(events[1..]) by {
        forall i | 0 <= i < |events[1..]| ensures events[1..][i].event == Available {
          assert events[1..][i] == events[i + 1];
        }
      }
      RetriesBelowCap(t, events[1..]);
    }
  }

  /**
   Bare connectivity signals exhaust the attempt counter: an Error session
   that keeps seeing connectivity return posts the remaining attempts' worth
   of reconnects, and the next signal after the cap forces a full disconnect
   with the counter reset.
   */
  lemma {:induction false} RetriesExhaust(s: Session, events: seq<Timed>)
    requires s.phase == Error
    requires AllAvailable(events)
    requires s.reconnectAttempts <= MaxReconnectAttempts
    requires |events| == MaxReconnectAttempts - s.reconnectAttempts + 1
    ensures AllConsistent(events)
    ensures Run(s, events).phase == Disconnected
    ensures Run(s, events).reconnectAttempts == 0
    ensures Run(s, events).pendingReconnects == s.pendingReconnects + MaxReconnectAttempts - s.reconnectAttempts
  {
    AvailableConsistent(events);
    var n := |events| - 1;
    var prefix := events[..n];
    assert AllAvailable(prefix) by {
      forall i | 0 <= i < |prefix| ensures prefix[i].event == Available {
        assert prefix[i] == events[i];
      }
    }
    RetriesBelowCap(s, prefix);
    RunSplit(s, events, n);
    var capped := Run(s, prefix);
    assert capped.reconnectAttempts == MaxReconnectAttempts;
    assert events[n..] == [events[n]];
    assert Run(capped, events[n..]) == ScheduleReconnect(capped, events[n].now).after;
  }

  /** Running a sequence is running its prefix and then its suffix. */
  lemma {:induction false} RunSplit(s: Session, events: seq<Timed>, n: nat)
    requires AllConsistent(events)
    requires n <= |events|
    ensures AllConsistent(events[..n]) && AllConsistent(events[n..])
    ensures Run(s, events) == Run(Run(s, events[..n]), events[n..])
    decreases n
  {
    assert AllConsistent(events[..n]) by {
      forall i | 0 <= i < n ensures Consistent(events[..n][i].event) {
        assert events[..n][i] == events[i];
      }
    }
    assert AllConsistent(events[n..]) by {
      forall i | 0 <= i < |events| - n ensures Consistent(events[n..][i].event) {
        assert events[n..][i] == events[n + i];
      }
    }
    if n > 0 {
      var t := Apply(s, events[0].event, events[0].now).after;
      assert AllConsistent(events[1..]) by {
        forall i | 0 <= i < |events| - 1 ensures Consistent(events[1..][i].event) {
          assert events[1..][i] == events[i + 1];
        }
      }
      RunSplit(t, events[1..], n - 1);
      assert events[1..][..n - 1] == events[..n][1..];
      assert events[1..][n - 1..] == events[n..];
    }
  }

  /** Running a concatenation is running its parts one after the other. */
  lemma RunConcat(s: Session, a: seq<Timed>, b: seq<Timed>)
    requires AllConsistent(a) && AllConsistent(b)
    ensures AllConsistent(a + b)
    ensures Run(s, a + b) == Run(Run(s, a), b)
  {
    assert AllConsistent(a + b) by {
      forall i | 0 <= i < |a + b| ensures Consistent((a + b)[i].event) {
        if i < |a| { assert (a + b)[i] == a[i]; } else { assert (a + b)[i] == b[i - |a|]; }
      }
    }
    RunSplit(s, a + b, |a|);
    assert (a + b)[..|a|] == a;
    assert (a + b)[|a|..] == b;
  }

  /**
   One failed reconnection cycle: connectivity returns to an Error session,
   the delayed reconnect runs, and the retry fails, either because the
   engine then reports ERROR or because connect itself raises.
   */
  datatype FailedCycle =
    | EngineFailure(signalAt: Readings, timerAt: Readings, errorAt: Readings, engineMessage: Option<string>)
    | StartFailure(signalAt: Readings, timerAt: Readings, exceptionMessage: Option<string>)

  function CycleEvents(c: FailedCycle): seq<Timed>
  {
    match c
    case EngineFailure(t0, t1, t2, m) =>
      [Timed(Available, t0), Timed(TimerFired(Started), t1), Timed(EngineStatus("ERROR", m), t2)]
    case StartFailure(t0, t1, m) =>
      [Timed(Available, t0), Timed(TimerFired(Raised(m)), t1)]
  }

  function Cycles(cs: seq<FailedCycle>): (events: seq<Timed>)
    ensures AllConsistent(events)
    decreases |cs|
  {
    if |cs| == 0 then [] else
      var rest := Cycles(cs[1..]);
      assert AllConsistent(CycleEvents(cs[0]) + rest) by {
        forall i | 0 <= i < |CycleEvents(cs[0]) + rest|
          ensures Consistent((CycleEvents(cs[0]) + rest)[i].event)
        {
          if i >= |CycleEvents(cs[0])| {
            assert (CycleEvents(cs[0]) + rest)[i] == rest[i - |CycleEvents(cs[0])|];
          }
        }
      }
      CycleEvents(cs[0]) + rest
  }

  /** A failed cycle below the cap returns to Error with exactly one more attempt and the same credentials. */
  lemma OneFailedCycle(s: Session, c: FailedCycle)
    requires s.phase == Error && Complete(s.savedCreds)
    requires s.reconnectAttempts < MaxReconnectAttempts
    ensures var t := Run(s, CycleEvents(c));
      && t.phase == Error
      && t.reconnectAttempts == s.reconnectAttempts + 1
      && t.pendingReconnects == s.pendingReconnects
      && t.savedCreds == s.savedCreds
  {
    var ev := CycleEvents(c);
    var s1 := OnNetworkAvailable(s, ev[0].now).after;
    var s2 := Apply(s1, ev[1].event, ev[1].now).after;
    assert Run(s, ev) == Run(s1, ev[1..]);
    assert Run(s1, ev[1..]) == Run(s2, ev[2..]);
    if c.EngineFailure? {
      assert ev[2..] == [ev[2]];
      assert Run(s2, ev[2..]) == Apply(s2, ev[2].event, ev[2].now).after;
    } else {
      assert ev[2..] == [];
    }
  }

  /**
   Each failed reconnection cycle counts one attempt: after k of them, within
   the cap, the session is back in Error with k more attempts counted.
   */
  lemma {:induction false} FailedCyclesCount(s: Session, cs: seq<FailedCycle>)
    requires s.phase == Error && Complete(s.savedCreds)
    requires s.reconnectAttempts + |cs| <= MaxReconnectAttempts
    ensures var t := Run(s, Cycles(cs));
      && t.phase == Error
      && t.reconnectAttempts == s.reconnectAttempts + |cs|
      && t.pendingReconnects == s.pendingReconnects
      && t.savedCreds == s.savedCreds
    decreases |cs|
  {
    if |cs| > 0 {
      var first := CycleEvents(cs[0]);
      OneFailedCycle(s, cs[0]);
      RunConcat(s, first, Cycles(cs[1..]));
      FailedCyclesCount(Run(s, first), cs[1..]);
    }
  }

  /**
   Failed cycles exhaust the retries: once the remaining attempts have been
   spent on failed cycles, the next connectivity signal posts no reconnect
   and forces a full disconnect with the counter reset.
   */
  lemma FailedCyclesExhaust(s: Session, cs: seq<FailedCycle>, signalAt: Readings)
    requires s.phase == Error && Complete(s.savedCreds)
    requires s.reconnectAttempts + |cs| == MaxReconnectAttempts
    ensures AllConsistent(Cycles(cs) + [Timed(Available, signalAt)])
    ensures var st := OnNetworkAvailable(Run(s, Cycles(cs)), signalAt);
      && st.updates == [StatusUpdate(Error, RetryExhaustedMessage), StatusUpdate(Disconnected, "")]
      && st.after.phase == Disconnected
      && st.after.reconnectAttempts == 0
      && st.after.pendingReconnects == s.pendingReconnects
    ensures Run(s, Cycles(cs) + [Timed(Available, signalAt)]) == OnNetworkAvailable(Run(s, Cycles(cs)), signalAt).after
  {
    FailedCyclesCount(s, cs);
    RunConcat(s, Cycles(cs), [Timed(Available, signalAt)]);
  }

  /**
   Exhaustion does not end retrying: the forced disconnect resets the
   counter but leaves the reconnects already posted, and the next of them
   whose connect raises brings the session back to Error with the counter at
   zero, the state the policy started from, with any remaining posted
   reconnects still pending and no manual connect in between.
   */
  lemma ExhaustionLeavesPostedReconnects(s: Session, signals: seq<Timed>, failure: Option<string>, timerAt: Readings)
    requires s.phase == Error && Complete(s.savedCreds)
    requires s.reconnectAttempts < MaxReconnectAttempts
    requires AllAvailable(signals)
    requires |signals| == MaxReconnectAttempts - s.reconnectAttempts + 1
    ensures AllConsistent(signals + [Timed(TimerFired(Raised(failure)), timerAt)])
    ensures var t := Run(s, signals + [Timed(TimerFired(Raised(failure)), timerAt)]);
      && t.phase == Error
      && t.lastError == ConnectFailure(failure)
      && t.reconnectAttempts == 0
      && t.savedCreds == s.savedCreds
      && t.pendingReconnects == s.pendingReconnects + MaxReconnectAttempts - s.reconnectAttempts - 1
  {
    RetriesExhaust(s, signals);
    var fired := [Timed(TimerFired(Raised(failure)), timerAt)];
    RunConcat(s, signals, fired);
    var d := Run(s, signals);
    assert d.savedCreds == s.savedCreds by {
      RetriesBelowCap(s, signals[..|signals| - 1]);
      RunSplit(s, signals, |signals| - 1);
    }
    assert Run(d, fired) == OnReconnectTimer(d, Raised(failure), timerAt).after;
  }

  /**
   A reconnect posted before a manual disconnect still runs afterwards: with
   complete saved credentials it revives the session through Reconnecting
   into Connecting.
   */
  lemma PendingReconnectSurvivesDisconnect(s: Session, now: Readings, later: Readings)
    requires Complete(s.savedCreds) && s.pendingReconnects > 0
    ensures var d := Disconnect(s, now).after;
      var st := OnReconnectTimer(d, Started, later);
      && st.updates == [StatusUpdate(Reconnecting, ""), StatusUpdate(Connecting, "")]
      && st.after.phase == Connecting && st.after.polling
  {
  }

  /** A manual connect does not reset the attempt counter (see `AttemptsMoveOnlyByPolicy` for the events that do). */
  lemma ConnectKeepsAttempts(s: Session, u: string, p: string, c: string, now: Readings)
    ensures Connect(s, Some(u), Some(p), Some(c), Started, now).after.reconnectAttempts == s.reconnectAttempts
  {
  }

  /** A profile parse failure leaves phase, error text and counter as they were, but keeps the new credentials. */
  lemma ParseFailureKeepsState(s: Session, u: Option<string>, p: Option<string>, c: string, now: Readings)
    ensures var t := Connect(s, u, p, Some(c), ParseFailed, now).after;
      && t.phase == s.phase && t.lastError == s.lastError
      && t.reconnectAttempts == s.reconnectAttempts
      && t.savedCreds == Credentials(u, p, Some(c))
  {
  }

  /** Connect, then the engine reports CONNECTED: the session is Connected with no attempts counted. */
  lemma ScenarioConnectThenConnected(u: string, p: string, c: string, t0: Readings, t1: Readings)
    ensures var events := [Timed(ConnectRequest(Some(u), Some(p), Some(c), Started), t0),
                           Timed(EngineStatus("CONNECTED", None), t1)];
      && AllConsistent(events)
      && Run(Initial, events).phase == Connected
      && Run(Initial, events).reconnectAttempts == 0
      && Run(Initial, events).polling
      && Baseline(Run(Initial, events).traffic) == t1
  {
    var events := [Timed(ConnectRequest(Some(u), Some(p), Some(c), Started), t0),
                   Timed(EngineStatus("CONNECTED", None), t1)];
    var connecting := Connect(Initial, Some(u), Some(p), Some(c), Started, t0).after;
    var connected := OnEngineEvent(connecting, "CONNECTED", None, t1).after;
    assert Run(Initial, events) == Run(connecting, events[1..]);
    assert events[1..] == [events[1]];
    assert Run(connecting, events[1..]) == Run(connected, []);
  }

  /**
   Connectivity lost while Connected, then restored, then the delayed
   reconnect runs: Error "network lost", one attempt counted, and the saved
   credentials replayed through Reconnecting into Connecting.
   */
  lemma ScenarioLostThenRestored(s: Session, t0: Readings, t1: Readings, t2: Readings)
    requires s.phase == Connected && s.reconnectAttempts == 0 && s.pendingReconnects == 0
    requires Complete(s.savedCreds)
    ensures var lost := OnNetworkLost(s, t0).after;
      var back := OnNetworkAvailable(lost, t1).after;
      var retry := OnReconnectTimer(back, Started, t2);
      && lost.phase == Error && lost.lastError == NetworkLostMessage
      && back.reconnectAttempts == 1 && back.pendingReconnects == 1
      && retry.updates == [StatusUpdate(Reconnecting, ""), StatusUpdate(Connecting, "")]
      && retry.after.phase == Connecting
      && retry.after.savedCreds == s.savedCreds
      && retry.after.pendingReconnects == 0
  {
  }

  /** The polling guard reads the status name: it is CONNECTED exactly in the Connected phase. */
  lemma PollGuardIsConnectedPhase(p: Phase)
    ensures PhaseName(p) == "CONNECTED" <==> p == Connected
  {
  }

  /** Distinct phases have distinct status names. */
  lemma PhaseNamesInjective(p: Phase, q: Phase)
    ensures PhaseName(p) == PhaseName(q) <==> p == q
  {
  }
}
