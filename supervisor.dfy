/** Connection establishment and the reconnection supervisor, as functions of
    what the client observes. Threads, sockets and the clock are not
    modelled: what they would decide is an oracle.

    - `connect()` waits in a polling loop of at most five one-second steps
      for the listener to open the socket; a `SocketProbe` says, for each
      second, whether the listener thread is alive and the socket open.
    - `_attempt_reconnection` runs at most `max_reconnect_attempts` attempts,
      doubling the delay after every failed one; an `AttemptEnv` says, for
      each attempt, what the credential refresh does, whether `connect()`
      raises, whether the old listener is still running and how the new
      socket behaves. */
module Supervisor {
  import opened Wire

  /** What one iteration of the connect wait loop sees. */
  datatype SocketProbe = SocketProbe(listenerAlive: bool, socketOpen: bool)

  /** The wait loop keeps waiting while the listener is alive and the socket
      is not yet open. */
  predicate Pending(p: SocketProbe) {
    p.listenerAlive && !p.socketOpen
  }

  /** `conn_timeout = 5` */
  const ConnectTimeout: nat := 5

  /** The second at which the wait loop of `connect()` stops, starting at
      second `t` with `timeout` steps left. */
  function WaitSteps(probe: nat -> SocketProbe, t: nat, timeout: nat): nat
    decreases timeout
  {
    if Pending(probe(t)) && timeout > 0 then WaitSteps(probe, t + 1, timeout - 1) else t
  }

  /** The wait is bounded by the timeout, waits through every pending second
      and stops at the first second that is not pending, if there is one. */
  lemma {:induction false} WaitStepsBounds(probe: nat -> SocketProbe, t: nat, timeout: nat)
    ensures t <= WaitSteps(probe, t, timeout) <= t + timeout
    ensures forall k :: t <= k < WaitSteps(probe, t, timeout) ==> Pending(probe(k))
    ensures WaitSteps(probe, t, timeout) < t + timeout ==> !Pending(probe(WaitSteps(probe, t, timeout)))
    decreases timeout
  {
    if Pending(probe(t)) && timeout > 0 {
      WaitStepsBounds(probe, t + 1, timeout - 1);
    }
  }

  /** The `connected` flag after `connect()` and what `connect()` did. */
  datatype ConnectResult = ConnectResult(connected: bool, events: seq<Event>)

  /** `connect()`: nothing when the listener thread is still running;
      otherwise start a listener, wait, and report `ConnectionFailed` when
      the socket is not open at the end of the wait. An open socket means the
      listener has called `on_open`, which sets `connected`. */
  function ConnectOutcome(connected: bool, listenerRunning: bool, probe: nat -> SocketProbe,
                          sink: Option<HandlerRef>): ConnectResult
  {
    if listenerRunning then ConnectResult(connected, [])
    else
      var p := probe(WaitSteps(probe, 0, ConnectTimeout));
      ConnectResult(connected || p.socketOpen,
                    [ListenerStarted] + (if p.socketOpen then [] else Notify(sink, ConnectionFailed)))
  }

  /** `connect()` reports `ConnectionFailed` exactly when it started a
      listener and the socket is still not open after the wait, which lasts
      at most five polls; the client is connected afterwards exactly when it
      was before or the new socket opened. */
  lemma ConnectReportsIffNotOpen(connected: bool, listenerRunning: bool, probe: nat -> SocketProbe,
                                 sink: Option<HandlerRef>)
    ensures var c := ConnectOutcome(connected, listenerRunning, probe, sink);
      var t := WaitSteps(probe, 0, ConnectTimeout);
      && t <= ConnectTimeout
      && (c.connected <==> connected || (!listenerRunning && probe(t).socketOpen))
      && (sink.Some? ==>
            (ExceptionNotified(sink.value, ConnectionFailed) in c.events <==> !listenerRunning && !probe(t).socketOpen))
      && (sink.None? ==> forall e :: e in c.events ==> !e.ExceptionNotified?)
  {
    WaitStepsBounds(probe, 0, ConnectTimeout);
  }

  /** What the credential refresh of an attempt after the first does: no REST
      client is associated with this socket client, the token is updated, or
      `update_token()` raises. */
  datatype RefreshOutcome = NoRestClient | TokenUpdated | UpdateRaised

  /** The oracle for one reconnection attempt. */
  datatype AttemptEnv = AttemptEnv(refresh: RefreshOutcome, connectRaises: bool,
                                   listenerRunning: bool, probe: nat -> SocketProbe)

  datatype AttemptResult = Raised | StillDisconnected | Reconnected

  /** What one attempt did and the `connected` flag after it. */
  datatype AttemptStep = AttemptStep(events: seq<Event>, connected: bool, result: AttemptResult)

  /** The start of an attempt: what it did and whether it raised. */
  datatype Prelude = Prelude(events: seq<Event>, raised: bool)

  /** The backoff sleep (a negative delay makes `time.sleep` raise), then,
      when `k` is not 1, the token refresh. */
  function AttemptPrelude(k: nat, delay: int, refresh: RefreshOutcome): (r: Prelude)
    ensures r.raised <==> delay < 0 || (k != 1 && refresh == UpdateRaised)
    ensures TokenRefreshed in r.events <==> 0 <= delay && k != 1 && refresh == TokenUpdated
    ensures delay < 0 <==> r.events == []
    ensures 0 <= delay ==> r.events[0] == Slept(delay) && |r.events| <= 2
  {
    if delay < 0 then Prelude([], true)
    else if k != 1 && refresh == UpdateRaised then Prelude([Slept(delay)], true)
    else if k != 1 && refresh == TokenUpdated then Prelude([Slept(delay), TokenRefreshed], false)
    else Prelude([Slept(delay)], false)
  }

  /** Attempt number `k` with backoff `delay`: the prelude, then connect,
      succeeding when the client is connected afterwards. Any exception ends
      the attempt as failed. */
  function Attempt(k: nat, delay: int, connected: bool, env: AttemptEnv, sink: Option<HandlerRef>): AttemptStep
  {
    var pre := AttemptPrelude(k, delay, env.refresh);
    if pre.raised || env.connectRaises then AttemptStep(pre.events, connected, Raised)
    else
      var c := ConnectOutcome(connected, env.listenerRunning, env.probe, sink);
      AttemptStep(pre.events + c.events, c.connected, if c.connected then Reconnected else StillDisconnected)
  }

  /** What attempt number `k` with backoff `delay` does, starting from the
      given `connected` flag. */
  type StepFn = (nat, int, bool) -> AttemptStep

  /** The attempts of a run in environment `env`. */
  function AttemptsIn(env: nat -> AttemptEnv, sink: Option<HandlerRef>): StepFn {
    (k: nat, delay: int, connected: bool) => Attempt(k, delay, connected, env(k), sink)
  }

  datatype AttemptRecord = AttemptRecord(number: nat, delay: int, connectedBefore: bool, step: AttemptStep)

  /** The outcome of a supervisor run: its events, the final `connected`
      flag, the attempts made, and whether it reconnected. */
  datatype RunResult = RunResult(events: seq<Event>, connected: bool, attempts: seq<AttemptRecord>, reconnected: bool)

  /** The loop of `_attempt_reconnection` from attempt `k` on. A successful
      attempt is followed by `replay` (the restored subscriptions) and ends
      the run; after the last failed attempt `ReconnectionFailed` goes to the
      exception handler. */
  function RunFrom(k: nat, maxAttempts: int, delay: int, connected: bool, step: StepFn,
                   sink: Option<HandlerRef>, replay: seq<Event>): RunResult
    decreases if k <= maxAttempts then maxAttempts - k + 1 else 0
  {
    if k > maxAttempts then RunResult(Notify(sink, ReconnectionFailed(maxAttempts)), connected, [], false)
    else
      var a := step(k, delay, connected);
      var rec := AttemptRecord(k, delay, connected, a);
      if a.result == Reconnected then RunResult(a.events + replay, a.connected, [rec], true)
      else
        var rest := RunFrom(k + 1, maxAttempts, delay * 2, a.connected, step, sink, replay);
        RunResult(a.events + rest.events, rest.connected, [rec] + rest.attempts, rest.reconnected)
  }

  /** Where the loop of `_attempt_reconnection` ends: the whole trace, the
      `connected` flag and whether it reconnected. */
  datatype LoopEnd = LoopEnd(trace: seq<Event>, connected: bool, reconnected: bool)

  /** The same loop, stated the way it runs: `acc` is the trace before
      attempt `k`, and each failed attempt extends it. */
  function RunOnto(acc: seq<Event>, k: nat, maxAttempts: int, delay: int, connected: bool,
                   step: StepFn, sink: Option<HandlerRef>, replay: seq<Event>): LoopEnd
    decreases AttemptsAllowed(k, maxAttempts)
  {
    if k > maxAttempts then LoopEnd(acc + Notify(sink, ReconnectionFailed(maxAttempts)), connected, false)
    else
      var a := step(k, delay, connected);
      if a.result == Reconnected then LoopEnd(acc + a.events + replay, a.connected, true)
      else RunOnto(acc + a.events, k + 1, maxAttempts, delay * 2, a.connected, step, sink, replay)
  }

  /** The loop's own form and `RunFrom` agree: the loop's trace is the trace
      before it followed by the run's events. */
  lemma {:induction false} RunOntoIsRunFrom(acc: seq<Event>, k: nat, maxAttempts: int, delay: int, connected: bool,
                                            step: StepFn, sink: Option<HandlerRef>, replay: seq<Event>)
    ensures var e := RunOnto(acc, k, maxAttempts, delay, connected, step, sink, replay);
      var r := RunFrom(k, maxAttempts, delay, connected, step, sink, replay);
      e.trace == acc + r.events && e.connected == r.connected && e.reconnected == r.reconnected
    decreases AttemptsAllowed(k, maxAttempts)
  {
    if k <= maxAttempts {
      var a := step(k, delay, connected);
      var e := RunOnto(acc, k, maxAttempts, delay, connected, step, sink, replay);
      var r := RunFrom(k, maxAttempts, delay, connected, step, sink, replay);
      if a.result != Reconnected {
        var e' := RunOnto(acc + a.events, k + 1, maxAttempts, delay * 2, a.connected, step, sink, replay);
        var rest := RunFrom(k + 1, maxAttempts, delay * 2, a.connected, step, sink, replay);
        assert e == e';
        assert r.events == a.events + rest.events;
        RunOntoIsRunFrom(acc + a.events, k + 1, maxAttempts, delay * 2, a.connected, step, sink, replay);
        assert acc + a.events + rest.events == acc + (a.events + rest.events);
      } else {
        assert e.trace == acc + a.events + replay;
        assert r.events == a.events + replay;
        assert acc + a.events + replay == acc + (a.events + replay);
      }
    }
  }

  /** `_attempt_reconnection`: nothing at all when auto-reconnect is off. */
  function Supervise(autoReconnect: bool, maxAttempts: int, baseDelay: int, connected: bool,
                     env: nat -> AttemptEnv, sink: Option<HandlerRef>, replay: seq<Event>): RunResult
  {
    if autoReconnect then RunFrom(1, maxAttempts, baseDelay, connected, AttemptsIn(env, sink), sink, replay)
    else RunResult([], connected, [], false)
  }

  function Pow2(n: nat): (r: nat)
    ensures r >= 1
  {
    if n == 0 then 1 else 2 * Pow2(n - 1)
  }

  function AttemptsAllowed(k: nat, maxAttempts: int): nat {
    if k <= maxAttempts then maxAttempts - k + 1 else 0
  }

  /** The delay of attempt i (from 0) when the first waits `delay`: doubled
      after every failed attempt. */
  function Backoff(delay: int, i: nat): int
    decreases i
  {
    if i == 0 then delay else Backoff(delay * 2, i - 1)
  }

  /** The backoff is exponential: attempt i waits `delay * 2^i`. */
  lemma {:induction false} BackoffIsExponential(delay: int, i: nat)
    ensures Backoff(delay, i) == delay * Pow2(i)
    decreases i
  {
    if i > 0 {
      BackoffIsExponential(delay * 2, i - 1);
      calc {
        Backoff(delay, i);
        (delay * 2) * Pow2(i - 1);
        delay * (2 * Pow2(i - 1));
      }
    }
  }

  /** Attempts are numbered consecutively and attempt i (from 0) waits
      `Backoff(delay, i)`. */
  lemma {:induction false} RunNumbering(k: nat, maxAttempts: int, delay: int, connected: bool,
                                        step: StepFn, sink: Option<HandlerRef>, replay: seq<Event>)
    ensures var r := RunFrom(k, maxAttempts, delay, connected, step, sink, replay);
      forall i :: 0 <= i < |r.attempts| ==> r.attempts[i].number == k + i && r.attempts[i].delay == Backoff(delay, i)
    decreases AttemptsAllowed(k, maxAttempts)
  {
    if k <= maxAttempts {
      var a := step(k, delay, connected);
      var r := RunFrom(k, maxAttempts, delay, connected, step, sink, replay);
      if a.result != Reconnected {
        RunNumbering(k + 1, maxAttempts, delay * 2, a.connected, step, sink, replay);
        var rest := RunFrom(k + 1, maxAttempts, delay * 2, a.connected, step, sink, replay);
        assert r.attempts == [AttemptRecord(k, delay, connected, a)] + rest.attempts;
        forall i | 1 <= i < |r.attempts|
          ensures r.attempts[i].number == k + i && r.attempts[i].delay == Backoff(delay, i)
        {
          assert r.attempts[i] == rest.attempts[i - 1];
          assert Backoff(delay, i) == Backoff(delay * 2, i - 1);
        }
      }
    }
  }

  /** Each recorded attempt is the one `Attempt` defines for its number,
      delay and the `connected` flag it started from. */
  lemma {:induction false} RunRecordsAttempts(k: nat, maxAttempts: int, delay: int, connected: bool,
                                              step: StepFn, sink: Option<HandlerRef>, replay: seq<Event>)
    ensures var r := RunFrom(k, maxAttempts, delay, connected, step, sink, replay);
      forall x :: x in r.attempts ==> x.step == step(x.number, x.delay, x.connectedBefore)
    decreases AttemptsAllowed(k, maxAttempts)
  {
    if k <= maxAttempts {
      var a := step(k, delay, connected);
      if a.result != Reconnected {
        RunRecordsAttempts(k + 1, maxAttempts, delay * 2, a.connected, step, sink, replay);
      }
    }
  }

  /** The run makes at most the allowed number of attempts and at least one
      when any is allowed, and it makes every allowed attempt when it does not
      reconnect. */
  lemma {:induction false} RunAttemptCount(k: nat, maxAttempts: int, delay: int, connected: bool,
                                           step: StepFn, sink: Option<HandlerRef>, replay: seq<Event>)
    ensures var r := RunFrom(k, maxAttempts, delay, connected, step, sink, replay);
      && |r.attempts| <= AttemptsAllowed(k, maxAttempts)
      && (k <= maxAttempts ==> 1 <= |r.attempts|)
      && (!r.reconnected ==> |r.attempts| == AttemptsAllowed(k, maxAttempts))
    decreases AttemptsAllowed(k, maxAttempts)
  {
    if k <= maxAttempts {
      var a := step(k, delay, connected);
      if a.result != Reconnected {
        RunAttemptCount(k + 1, maxAttempts, delay * 2, a.connected, step, sink, replay);
      }
    }
  }

  /** No attempt but the last succeeds, so the run stops at the first
      success, and it reconnects exactly when its last attempt succeeded. */
  lemma {:induction false} RunStopsAtFirstSuccess(k: nat, maxAttempts: int, delay: int, connected: bool,
                                                  step: StepFn, sink: Option<HandlerRef>, replay: seq<Event>)
    ensures var r := RunFrom(k, maxAttempts, delay, connected, step, sink, replay);
      && (forall i :: 0 <= i < |r.attempts| - 1 ==> r.attempts[i].step.result != Reconnected)
      && (r.reconnected <==> 0 < |r.attempts| && r.attempts[|r.attempts| - 1].step.result == Reconnected)
    decreases AttemptsAllowed(k, maxAttempts)
  {
    if k <= maxAttempts {
      var a := step(k, delay, connected);
      var r := RunFrom(k, maxAttempts, delay, connected, step, sink, replay);
      if a.result != Reconnected {
        RunStopsAtFirstSuccess(k + 1, maxAttempts, delay * 2, a.connected, step, sink, replay);
        var rest := RunFrom(k + 1, maxAttempts, delay * 2, a.connected, step, sink, replay);
        assert r.attempts == [AttemptRecord(k, delay, connected, a)] + rest.attempts;
        forall i | 1 <= i < |r.attempts| - 1 ensures r.attempts[i].step.result != Reconnected {
          assert r.attempts[i] == rest.attempts[i - 1];
        }
      }
    }
  }

  /** Attempt 1 never refreshes the token; a later attempt that gets to
      sleep refreshes it exactly when a REST client updates it. No attempt
      sends anything or reports `ReconnectionFailed`. */
  lemma AttemptRefreshRule(k: nat, delay: int, connected: bool, env: AttemptEnv, sink: Option<HandlerRef>)
    ensures var a := Attempt(k, delay, connected, env, sink);
      && (TokenRefreshed in a.events <==> k != 1 && delay >= 0 && env.refresh == TokenUpdated)
      && (forall e :: e in a.events ==> !e.Sent? && !(e.ExceptionNotified? && e.fault.ReconnectionFailed?))
  {
  }

  /** Over a whole run: the token is refreshed in attempt i (from 0) exactly
      when it is not the first attempt, its delay (`RunNumbering`) is not
      negative and a REST client updates the token. */
  lemma RunRefreshRule(maxAttempts: int, delay: int, connected: bool, env: nat -> AttemptEnv,
                       sink: Option<HandlerRef>, replay: seq<Event>)
    ensures var r := RunFrom(1, maxAttempts, delay, connected, AttemptsIn(env, sink), sink, replay);
      forall i :: 0 <= i < |r.attempts| ==>
        (TokenRefreshed in r.attempts[i].step.events <==>
           1 <= i && r.attempts[i].delay >= 0 && env(i + 1).refresh == TokenUpdated)
  {
    var step := AttemptsIn(env, sink);
    RunNumbering(1, maxAttempts, delay, connected, step, sink, replay);
    RunRecordsAttempts(1, maxAttempts, delay, connected, step, sink, replay);
    var r := RunFrom(1, maxAttempts, delay, connected, step, sink, replay);
    forall i | 0 <= i < |r.attempts|
      ensures TokenRefreshed in r.attempts[i].step.events <==>
                1 <= i && r.attempts[i].delay >= 0 && env(i + 1).refresh == TokenUpdated
    {
      var x := r.attempts[i];
      assert x in r.attempts;
      assert x.step == Attempt(i + 1, x.delay, x.connectedBefore, env(i + 1), sink);
      AttemptRefreshRule(i + 1, x.delay, x.connectedBefore, env(i + 1), sink);
    }
  }

  /** A run's events are its attempts' events, in order, followed by the
      replay when it reconnected and by the exhaustion report otherwise. */
  function AttemptEvents(attempts: seq<AttemptRecord>): seq<Event> {
    if attempts == [] then [] else attempts[0].step.events + AttemptEvents(attempts[1..])
  }

  lemma {:induction false} RunEvents(k: nat, maxAttempts: int, delay: int, connected: bool,
                                     step: StepFn, sink: Option<HandlerRef>, replay: seq<Event>)
    ensures var r := RunFrom(k, maxAttempts, delay, connected, step, sink, replay);
      r.events == AttemptEvents(r.attempts) + (if r.reconnected then replay else Notify(sink, ReconnectionFailed(maxAttempts)))
    decreases AttemptsAllowed(k, maxAttempts)
  {
    if k <= maxAttempts {
      var a := step(k, delay, connected);
      var r := RunFrom(k, maxAttempts, delay, connected, step, sink, replay);
      if a.result != Reconnected {
        RunEvents(k + 1, maxAttempts, delay * 2, a.connected, step, sink, replay);
        var rest := RunFrom(k + 1, maxAttempts, delay * 2, a.connected, step, sink, replay);
        assert r.attempts[1..] == rest.attempts;
      } else {
        assert r.attempts[1..] == [];
      }
    }
  }

  /** No attempt sends anything or reports `ReconnectionFailed`. */
  lemma {:induction false} AttemptEventsQuiet(attempts: seq<AttemptRecord>, env: nat -> AttemptEnv, sink: Option<HandlerRef>)
    requires forall x :: x in attempts ==> x.step == Attempt(x.number, x.delay, x.connectedBefore, env(x.number), sink)
    ensures forall e :: e in AttemptEvents(attempts) ==> !e.Sent? && !(e.ExceptionNotified? && e.fault.ReconnectionFailed?)
    decreases |attempts|
  {
    if attempts != [] {
      var x := attempts[0];
      assert x in attempts;
      AttemptRefreshRule(x.number, x.delay, x.connectedBefore, env(x.number), sink);
      assert forall y :: y in attempts[1..] ==> y in attempts;
      AttemptEventsQuiet(attempts[1..], env, sink);
    }
  }

  /** A run that does not reconnect reports `ReconnectionFailed`, with the
      configured number of attempts, once: as its last event, after the
      attempts, none of which reports it. */
  lemma ExhaustionReportedOnce(k: nat, maxAttempts: int, delay: int, connected: bool,
                               env: nat -> AttemptEnv, sink: Option<HandlerRef>, replay: seq<Event>)
    ensures var r := RunFrom(k, maxAttempts, delay, connected, AttemptsIn(env, sink), sink, replay);
      !r.reconnected && sink.Some? ==>
        && r.events == AttemptEvents(r.attempts) + [ExceptionNotified(sink.value, ReconnectionFailed(maxAttempts))]
        && forall e :: e in AttemptEvents(r.attempts) ==> !(e.ExceptionNotified? && e.fault.ReconnectionFailed?)
  {
    var step := AttemptsIn(env, sink);
    var r := RunFrom(k, maxAttempts, delay, connected, step, sink, replay);
    RunEvents(k, maxAttempts, delay, connected, step, sink, replay);
    RunRecordsAttempts(k, maxAttempts, delay, connected, step, sink, replay);
    forall x | x in r.attempts ensures x.step == Attempt(x.number, x.delay, x.connectedBefore, env(x.number), sink) {
      assert x.step == step(x.number, x.delay, x.connectedBefore);
    }
    AttemptEventsQuiet(r.attempts, env, sink);
  }

  /** The exception handler hears `ReconnectionFailed` exactly when every
      attempt failed and a handler is set. */
  lemma {:induction false} ExhaustionReportedIffAllFail(k: nat, maxAttempts: int, delay: int, connected: bool,
                                                        env: nat -> AttemptEnv, sink: Option<HandlerRef>, replay: seq<Event>)
    requires forall e :: e in replay ==> e.Sent?
    ensures var r := RunFrom(k, maxAttempts, delay, connected, AttemptsIn(env, sink), sink, replay);
      (exists e :: e in r.events && e.ExceptionNotified? && e.fault.ReconnectionFailed?) <==> !r.reconnected && sink.Some?
    decreases AttemptsAllowed(k, maxAttempts)
  {
    var step := AttemptsIn(env, sink);
    var r := RunFrom(k, maxAttempts, delay, connected, step, sink, replay);
    if k <= maxAttempts {
      var a := step(k, delay, connected);
      assert a == Attempt(k, delay, connected, env(k), sink);
      AttemptRefreshRule(k, delay, connected, env(k), sink);
      if a.result != Reconnected {
        ExhaustionReportedIffAllFail(k + 1, maxAttempts, delay * 2, a.connected, env, sink, replay);
        var rest := RunFrom(k + 1, maxAttempts, delay * 2, a.connected, step, sink, replay);
        assert r.events == a.events + rest.events;
      } else {
        assert r.events == a.events + replay;
      }
    }
  }

  /** With the default settings (3 attempts, base delay 2) the attempts
      made wait 2, 4 and 8 seconds, in that order; a run that does not
      reconnect, whatever made its attempts fail, makes all three. When every
      `connect()` raises, the run does not reconnect. */
  lemma DefaultBackoffWhenAllFail(connected: bool, env: nat -> AttemptEnv, sink: Option<HandlerRef>, replay: seq<Event>)
    ensures var r := RunFrom(1, 3, 2, connected, AttemptsIn(env, sink), sink, replay);
      && 1 <= |r.attempts| <= 3
      && (forall i :: 0 <= i < |r.attempts| ==> r.attempts[i].delay == [2, 4, 8][i])
      && (!r.reconnected ==> |r.attempts| == 3)
      && ((forall k :: env(k).connectRaises) ==> !r.reconnected)
  {
    var step := AttemptsIn(env, sink);
    var r := RunFrom(1, 3, 2, connected, step, sink, replay);
    RunNumbering(1, 3, 2, connected, step, sink, replay);
    RunAttemptCount(1, 3, 2, connected, step, sink, replay);
    assert Backoff(2, 1) == 4 && Backoff(2, 2) == 8;
    if forall k :: env(k).connectRaises {
      RunRecordsAttempts(1, 3, 2, connected, step, sink, replay);
      RunStopsAtFirstSuccess(1, 3, 2, connected, step, sink, replay);
      forall x | x in r.attempts ensures x.step.result != Reconnected {
        assert x.step == Attempt(x.number, x.delay, x.connectedBefore, env(x.number), sink);
      }
      assert r.attempts[|r.attempts| - 1] in r.attempts;
    }
  }

  /** A failed connect inside a recovery run is reported to the exception
      handler even when a later attempt reconnects: here attempt 1 waits out
      the timeout and attempt 2 opens at once. */
  lemma TransientFailureIsReported(h: HandlerRef, replay: seq<Event>)
    ensures var stuck := AttemptEnv(NoRestClient, false, false, (t: nat) => SocketProbe(true, false));
            var opens := AttemptEnv(NoRestClient, false, false, (t: nat) => SocketProbe(true, true));
            var env := (k: nat) => if k == 1 then stuck else opens;
            var r := RunFrom(1, 3, 2, false, AttemptsIn(env, Some(h)), Some(h), replay);
      r.reconnected && ExceptionNotified(h, ConnectionFailed) in r.events
  {
    var stuck := AttemptEnv(NoRestClient, false, false, (t: nat) => SocketProbe(true, false));
    var opens := AttemptEnv(NoRestClient, false, false, (t: nat) => SocketProbe(true, true));
    var env := (k: nat) => if k == 1 then stuck else opens;
    var step := AttemptsIn(env, Some(h));
    WaitStepsBounds(stuck.probe, 0, ConnectTimeout);
    var a1 := Attempt(1, 2, false, stuck, Some(h));
    assert a1.events == [Slept(2), ListenerStarted, ExceptionNotified(h, ConnectionFailed)];
    assert step(1, 2, false) == a1;
    assert WaitSteps(opens.probe, 0, ConnectTimeout) == 0;
    var a2 := Attempt(2, 4, false, opens, Some(h));
    assert a2.result == Reconnected;
    assert step(2, 4, false) == a2;
    var r := RunFrom(1, 3, 2, false, step, Some(h), replay);
    assert r.events == a1.events + (a2.events + replay);
    assert r.events[2] == ExceptionNotified(h, ConnectionFailed);
  }
}
