/**
 Whole runs of one connection: repeated abnormal closes and their backoff
 schedule, what pending retry timers do once the connection is closed, the
 heartbeat timeout, a recovery, and the server-down run that exposes the
 silent give-up in onFailure.
 */
module LifecycleScenarios {
  import opened Wrappers
  import opened Listener
  import opened ReconnectPolicy
  import opened Lifecycle
  import opened LifecycleProperties

  /** Running `[i] + rest` is one step, then `rest`. */
  lemma RunCons(c: Connection, i: Input, rest: seq<Input>, next: Connection)
    requires Apply(c, i).conn == next
    ensures Run(c, [i] + rest).conn == Run(next, rest).conn
    ensures Run(c, [i] + rest).out == Apply(c, i).out + Run(next, rest).out
  {
    assert ([i] + rest)[0] == i;
    assert ([i] + rest)[1..] == rest;
  }

  // Single steps, each stated once so that the runs below need not unfold
  // the dispatch again.

  lemma AbnormalCloseStep(c: Connection, code: int, reason: string)
    requires code != NormalClosureStatus && !c.released && c.attempts + 1 <= MaxReconnectAttempts
    ensures Apply(c, Deliver(ClosingFrame(code, reason))).conn == AfterAbnormalCloses(c, 1)
    ensures AfterAbnormalCloses(c, 1) ==
      c.(attempts := c.attempts + 1, state := Reconnecting,
         pending := c.pending + [RetryTask(c.attempts + 1, ReconnectDelay(c.attempts + 1))])
  {
    var r := EnterReconnecting(c);
    assert HandleClosing(c, code, reason).conn == r.conn;
    assert Backoff(c.attempts, 1) == [RetryTask(c.attempts + 1, ReconnectDelay(c.attempts + 1))];
  }

  lemma RetryStep(c: Connection)
    requires c.state == Reconnecting && |c.pending| > 0
    ensures Apply(c, Deliver(RetryDue(|c.pending| - 1))).conn ==
      c.(pending := c.pending[..|c.pending| - 1], state := Connecting, hasSession := true)
  {
    var r := FireRetry(c, |c.pending| - 1);
    assert RemoveAt(c.pending, |c.pending| - 1) == c.pending[..|c.pending| - 1];
  }

  function Repeat(i: Input, n: nat): (r: seq<Input>)
    ensures |r| == n && forall k :: 0 <= k < n ==> r[k] == i
  {
    seq(n, k => i)
  }

  /** Running `n` copies of one input is one step, then `n - 1` copies. */
  lemma RepeatCons(c: Connection, x: Input, n: nat, next: Connection)
    requires n > 0 && Apply(c, x).conn == next
    ensures Run(c, Repeat(x, n)).conn == Run(next, Repeat(x, n - 1)).conn
    ensures Run(c, Repeat(x, n)).out == Apply(c, x).out + Run(next, Repeat(x, n - 1)).out
  {
    assert Repeat(x, n)[1..] == Repeat(x, n - 1);
  }

  /** The retry timers queued by `n` consecutive scheduled attempts after
      attempt `from`. */
  function Backoff(from: int, n: nat): seq<RetryTask>
    decreases n
  {
    if n == 0 then [] else [RetryTask(from + 1, ReconnectDelay(from + 1))] + Backoff(from + 1, n - 1)
  }

  lemma BackoffCons(p: seq<RetryTask>, from: int, n: nat)
    requires n > 0
    ensures p + [RetryTask(from + 1, ReconnectDelay(from + 1))] + Backoff(from + 1, n - 1) == p + Backoff(from, n)
  {
  }

  /** Entry `k` of the schedule is attempt `from + k + 1` with its backoff delay. */
  lemma {:induction false} BackoffEntries(from: int, n: nat)
    ensures |Backoff(from, n)| == n
    ensures forall k :: 0 <= k < n ==> Backoff(from, n)[k] == RetryTask(from + k + 1, ReconnectDelay(from + k + 1))
    decreases n
  {
    if n > 0 {
      BackoffEntries(from + 1, n - 1);
    }
  }

  /** From a counter of zero, ten abnormal closes queue the ten timers of the
      documented backoff: 1, 2, 4, … 128 seconds, then 256 seconds twice. */
  lemma FirstTenDelays()
    ensures Backoff(0, 10) == [
      RetryTask(1, 1000), RetryTask(2, 2000), RetryTask(3, 4000), RetryTask(4, 8000), RetryTask(5, 16000),
      RetryTask(6, 32000), RetryTask(7, 64000), RetryTask(8, 128000), RetryTask(9, 256000), RetryTask(10, 256000)]
  {
    BackoffEntries(0, 10);
    ReconnectDelaySchedule();
  }

  /** Where `n` abnormal closes leave a live connection. */
  function AfterAbnormalCloses(c: Connection, n: nat): Connection
  {
    c.(attempts := c.attempts + n,
       pending := c.pending + Backoff(c.attempts, n),
       state := if n == 0 then c.state else Reconnecting)
  }

  lemma AfterAbnormalClosesCons(c: Connection, n: nat)
    requires n > 0
    ensures AfterAbnormalCloses(AfterAbnormalCloses(c, 1), n - 1) == AfterAbnormalCloses(c, n)
  {
    BackoffCons(c.pending, c.attempts, n);
    assert Backoff(c.attempts, 1) == [RetryTask(c.attempts + 1, ReconnectDelay(c.attempts + 1))];
  }

  lemma {:induction false} AbnormalClosesRun(c: Connection, code: int, reason: string, n: nat)
    requires code != NormalClosureStatus && !c.released
    requires c.attempts + n <= MaxReconnectAttempts
    ensures Run(c, Repeat(Deliver(ClosingFrame(code, reason)), n)).conn == AfterAbnormalCloses(c, n)
    decreases n
  {
    if n == 0 {
      AfterNoCloses(c);
    } else {
      AbnormalCloseThenMore(c, code, reason, n);
      AbnormalClosesRun(AfterAbnormalCloses(c, 1), code, reason, n - 1);
    }
  }

  lemma AfterNoCloses(c: Connection)
    ensures AfterAbnormalCloses(c, 0) == c
  {
    assert c.pending + [] == c.pending;
  }

  /** One abnormal close, then `n - 1` more. */
  lemma AbnormalCloseThenMore(c: Connection, code: int, reason: string, n: nat)
    requires code != NormalClosureStatus && !c.released
    requires 0 < n && c.attempts + n <= MaxReconnectAttempts
    ensures Run(c, Repeat(Deliver(ClosingFrame(code, reason)), n)).conn ==
            Run(AfterAbnormalCloses(c, 1), Repeat(Deliver(ClosingFrame(code, reason)), n - 1)).conn
    ensures AfterAbnormalCloses(AfterAbnormalCloses(c, 1), n - 1) == AfterAbnormalCloses(c, n)
  {
    AbnormalCloseStep(c, code, reason);
    RepeatCons(c, Deliver(ClosingFrame(code, reason)), n, AfterAbnormalCloses(c, 1));
    AfterAbnormalClosesCons(c, n);
  }

  /** `n` abnormal closes in a row on a live connection, with the counter
      staying within the maximum: each one counts an attempt and queues one
      timer with the next backoff delay; the connection ends RECONNECTING
      and nothing else about it changes. */
  lemma AbnormalClosesBackOff(c: Connection, code: int, reason: string, n: nat)
    requires code != NormalClosureStatus && !c.released
    requires c.attempts + n <= MaxReconnectAttempts
    ensures Run(c, Repeat(Deliver(ClosingFrame(code, reason)), n)).conn ==
      c.(attempts := c.attempts + n,
         pending := c.pending + Backoff(c.attempts, n),
         state := if n == 0 then c.state else Reconnecting)
  {
    AbnormalClosesRun(c, code, reason, n);
  }

  /** Abnormal closes until the counter passes the maximum: the last one
      gives up, FAILED, without queueing a timer. */
  lemma {:induction false} AbnormalClosesUntilExhausted(c: Connection, code: int, reason: string, k: nat)
    requires code != NormalClosureStatus && !c.released
    requires k >= 1 && c.attempts + k == MaxReconnectAttempts + 1
    ensures var r := Run(c, Repeat(Deliver(ClosingFrame(code, reason)), k));
      && r.conn.state == Failed
      && r.conn.attempts == MaxReconnectAttempts + 1
      && r.conn.pending == AfterAbnormalCloses(c, k - 1).pending
      && (c.listener.Some? ==> Notify(OnReconnectFailed(MaxReconnectAttempts)) in r.out)
    decreases k
  {
    if k == 1 {
      ExhaustingClose(c, code, reason);
    } else {
      var next := AfterAbnormalCloses(c, 1);
      AbnormalCloseStep(c, code, reason);
      AbnormalClosesUntilExhausted(next, code, reason, k - 1);
      RepeatCons(c, Deliver(ClosingFrame(code, reason)), k, next);
      AfterAbnormalClosesCons(c, k - 1);
    }
  }

  /** The abnormal close that finds the counter at the maximum. */
  lemma ExhaustingClose(c: Connection, code: int, reason: string)
    requires code != NormalClosureStatus && !c.released && c.attempts == MaxReconnectAttempts
    ensures var r := Run(c, Repeat(Deliver(ClosingFrame(code, reason)), 1));
      && r.conn.state == Failed
      && r.conn.attempts == MaxReconnectAttempts + 1
      && r.conn.pending == AfterAbnormalCloses(c, 0).pending
      && (c.listener.Some? ==> Notify(OnReconnectFailed(MaxReconnectAttempts)) in r.out)
  {
    var x := Deliver(ClosingFrame(code, reason));
    var last := Apply(c, x);
    assert last.conn == EnterReconnecting(c).conn;
    assert last.out == Emit(c, OnDisconnected(code, reason)) + [Invoke(ClosingCallback(reason))] + EnterReconnecting(c).out;
    RepeatCons(c, x, 1, last.conn);
    assert Run(last.conn, Repeat(x, 0)) == Step(last.conn, []);
    assert c.pending + Backoff(c.attempts, 0) == c.pending;
  }

  /** From a counter of zero, the eleventh abnormal close in a row gives up:
      FAILED after the ten timers of the backoff schedule, and the listener
      (if any) is told the maximum. */
  lemma AbnormalClosesExhaust(c: Connection, code: int, reason: string)
    requires code != NormalClosureStatus && !c.released && c.attempts == 0
    ensures var r := Run(c, Repeat(Deliver(ClosingFrame(code, reason)), MaxReconnectAttempts + 1));
      && r.conn.state == Failed
      && r.conn.attempts == MaxReconnectAttempts + 1
      && r.conn.pending == c.pending + Backoff(0, MaxReconnectAttempts)
      && (Notify(OnReconnectFailed(MaxReconnectAttempts)) in r.out <==> c.listener.Some?)
  {
    var inputs := Repeat(Deliver(ClosingFrame(code, reason)), MaxReconnectAttempts + 1);
    AbnormalClosesUntilExhausted(c, code, reason, MaxReconnectAttempts + 1);
    RunSound(c, inputs);
    assert AfterAbnormalCloses(c, MaxReconnectAttempts).pending == c.pending + Backoff(0, MaxReconnectAttempts);
  }

  /** Inputs that come only from the connection's own timers. */
  predicate TimersOnly(inputs: seq<Input>)
  {
    forall k :: 0 <= k < |inputs| ==> inputs[k].Deliver? && (inputs[k].signal.RetryDue? || inputs[k].signal.HeartbeatDue?)
  }

  /** Timers never revive a connection that is neither CONNECTED nor
      RECONNECTING: retry timers only expire and the heartbeat finds nothing
      to do, so there are no effects and only the queue of timers shrinks. */
  lemma {:induction false} TimersInert(c: Connection, inputs: seq<Input>)
    requires TimersOnly(inputs)
    requires c.state != Reconnecting && c.state != Connected
    ensures Run(c, inputs).out == []
    ensures Run(c, inputs).conn == c.(pending := Run(c, inputs).conn.pending)
    ensures |Run(c, inputs).conn.pending| <= |c.pending|
    decreases |inputs|
  {
    if inputs != [] {
      var s := Apply(c, inputs[0]);
      assert s.out == [] && s.conn == c.(pending := s.conn.pending) && |s.conn.pending| <= |c.pending|;
      assert TimersOnly(inputs[1..]) by {
        forall k | 0 <= k < |inputs[1..]| ensures inputs[1..][k] == inputs[k + 1] { }
      }
      TimersInert(s.conn, inputs[1..]);
    }
  }

  /** After close(), retry timers queued earlier still fire but the
      connection stays DISCONNECTED, released and without a session, and
      nothing at all is emitted. */
  lemma CloseDisarmsPendingRetries(c: Connection, inputs: seq<Input>)
    requires TimersOnly(inputs)
    ensures var closed := Close(c, false).conn;
      && Run(closed, inputs).out == []
      && Run(closed, inputs).conn.state == Disconnected
      && Run(closed, inputs).conn.released
      && !Run(closed, inputs).conn.hasSession
  {
    TimersInert(Close(c, false).conn, inputs);
  }

  /** A heartbeat timeout takes the same path as an abnormal closing frame,
      without the disconnect report and the closing callback. */
  lemma HeartbeatTimeoutTakesAbnormalClosePath(c: Connection, now: int, code: int, reason: string)
    requires IsStale(c, now) && code != NormalClosureStatus
    ensures HeartbeatCheck(c, now).conn == HandleClosing(c, code, reason).conn
    ensures HandleClosing(c, code, reason).out ==
      Emit(c, OnDisconnected(code, reason)) + [Invoke(ClosingCallback(reason))] + HeartbeatCheck(c, now).out
  {
  }

  /** A live connection hit by an abnormal close recovers once its retry
      timer fires and the new session opens: CONNECTED again, counter back
      to zero, with onReconnecting(1) and onReconnected(1) reported. */
  lemma AbnormalCloseRecovers(c: Connection, code: int, reason: string, now: int)
    requires c.state == Connected && c.attempts == 0 && !c.released && code != NormalClosureStatus
    ensures var r := Run(c, [Deliver(ClosingFrame(code, reason)), Deliver(RetryDue(|c.pending|)), Deliver(Opened(now))]);
      && r.conn == c.(lastMessageTime := now, hasSession := true)
      && (Notify(OnReconnecting(1)) in r.out <==> c.listener.Some?)
      && (Notify(OnReconnected(1)) in r.out <==> c.listener.Some?)
  {
    var c1 := AfterAbnormalCloses(c, 1);
    var c2 := c.(attempts := 1, state := Connecting, hasSession := true);
    RecoverySteps(c, code, reason, now);
    RecoveryRun(c, code, reason, now, c1, c2);
    var o1 := Apply(c, Deliver(ClosingFrame(code, reason))).out;
    var o2 := Apply(c1, Deliver(RetryDue(|c.pending|))).out;
    var o3 := Apply(c2, Deliver(Opened(now))).out;
    ClosingReportsAttempt(c, code, reason);
    RetryReportsNoAttempt(c1, |c.pending|);
    OpenStep(c2, now);
    InThree(Notify(OnReconnecting(1)), o1, o2, o3);
    InThree(Notify(OnReconnected(1)), o1, o2, o3);
  }

  /** The three records along the recovery. */
  lemma RecoverySteps(c: Connection, code: int, reason: string, now: int)
    requires c.state == Connected && c.attempts == 0 && !c.released && code != NormalClosureStatus
    ensures Apply(c, Deliver(ClosingFrame(code, reason))).conn == AfterAbnormalCloses(c, 1)
    ensures Apply(AfterAbnormalCloses(c, 1), Deliver(RetryDue(|c.pending|))).conn == c.(attempts := 1, state := Connecting, hasSession := true)
    ensures Apply(c.(attempts := 1, state := Connecting, hasSession := true), Deliver(Opened(now))).conn ==
      c.(lastMessageTime := now, hasSession := true)
  {
    var c1 := AfterAbnormalCloses(c, 1);
    AbnormalCloseStep(c, code, reason);
    assert Backoff(c.attempts, 1) == [RetryTask(1, ReconnectDelay(1))];
    RetryStep(c1);
    assert c1.pending[..|c1.pending| - 1] == c.pending;
    OpenStep(c.(attempts := 1, state := Connecting, hasSession := true), now);
  }

  /** The recovery run is its three steps in order. */
  lemma RecoveryRun(c: Connection, code: int, reason: string, now: int, c1: Connection, c2: Connection)
    requires Apply(c, Deliver(ClosingFrame(code, reason))).conn == c1
    requires Apply(c1, Deliver(RetryDue(|c.pending|))).conn == c2
    ensures var r := Run(c, [Deliver(ClosingFrame(code, reason)), Deliver(RetryDue(|c.pending|)), Deliver(Opened(now))]);
      && r.conn == Apply(c2, Deliver(Opened(now))).conn
      && r.out == Apply(c, Deliver(ClosingFrame(code, reason))).out +
                  (Apply(c1, Deliver(RetryDue(|c.pending|))).out + (Apply(c2, Deliver(Opened(now))).out + []))
  {
    var closing := Deliver(ClosingFrame(code, reason));
    var retry := Deliver(RetryDue(|c.pending|));
    var openedSig := Deliver(Opened(now));
    RunCons(c2, openedSig, [], Apply(c2, openedSig).conn);
    RunCons(c1, retry, [openedSig], c2);
    RunCons(c, closing, [retry, openedSig], c1);
    assert [closing] + [retry, openedSig] == [closing, retry, openedSig];
    assert [retry] + [openedSig] == [retry, openedSig];
    assert [openedSig] + [] == [openedSig];
  }

  lemma InThree<T>(e: T, a: seq<T>, b: seq<T>, c: seq<T>)
    ensures e in a + (b + (c + [])) <==> e in a || e in b || e in c
  {
  }

  lemma OpenStep(c: Connection, now: int)
    requires c.attempts == 1
    ensures Apply(c, Deliver(Opened(now))).conn == c.(state := Connected, attempts := 0, lastMessageTime := now)
    ensures Notify(OnReconnected(1)) in Apply(c, Deliver(Opened(now))).out <==> c.listener.Some?
    ensures Notify(OnReconnecting(1)) !in Apply(c, Deliver(Opened(now))).out
  {
    assert Apply(c, Deliver(Opened(now))) == HandleOpen(c, now);
    HandleOpenShape(c, now);
  }

  /** The first abnormal close announces attempt 1 and no reconnection. */
  lemma ClosingReportsAttempt(c: Connection, code: int, reason: string)
    requires c.attempts == 0 && code != NormalClosureStatus
    ensures Notify(OnReconnecting(1)) in Apply(c, Deliver(ClosingFrame(code, reason))).out <==> c.listener.Some?
    ensures Notify(OnReconnected(1)) !in Apply(c, Deliver(ClosingFrame(code, reason))).out
  {
    var closing := HandleClosing(c, code, reason);
    assert closing.out == Emit(c, OnDisconnected(code, reason)) + [Invoke(ClosingCallback(reason))] + EnterReconnecting(c).out;
  }

  /** A retry timer announces only the move to CONNECTING. */
  lemma RetryReportsNoAttempt(c: Connection, index: int)
    ensures forall e :: e in Apply(c, Deliver(RetryDue(index))).out ==> !e.Notify? || e == Notify(OnConnectionStateChanged(Connecting))
  {
    var r := FireRetry(c, index);
    if 0 <= index < |c.pending| && c.state == Reconnecting {
      var c0 := c.(pending := RemoveAt(c.pending, index));
      var out0 := if c0.hasSession then [CloseSession(NormalClosureStatus, Some("Reconnecting"))] else [];
      var s := ChangeState(c0.(hasSession := false), Connecting);
      assert r.out == out0 + s.out + [OpenSession];
    }
  }

  // ---------------------------------------------------------------------
  // The server is down: every reconnect fails with a ConnectException

  const ServerDown := TransportError("ConnectException", None)

  /** One failed attempt: the connect fails with `error`, the retry timer
      fires and opens the next session. */
  function FailedRetryCycleInputs(error: TransportError): seq<Input>
  {
    [Deliver(TransportFailure(error, None)), Deliver(RetryDue(0))]
  }

  /** `n` failed cycles in a row. */
  function FailedRetries(error: TransportError, n: nat): (r: seq<Input>)
    ensures |r| == 2 * n
  {
    seq(2 * n, k => if k % 2 == 0 then Deliver(TransportFailure(error, None)) else Deliver(RetryDue(0)))
  }

  lemma FailedRetriesUnfold(error: TransportError, n: nat)
    requires n > 0
    ensures FailedRetries(error, n) == FailedRetryCycleInputs(error) + FailedRetries(error, n - 1)
  {
    var a := FailedRetries(error, n);
    var b := FailedRetryCycleInputs(error) + FailedRetries(error, n - 1);
    assert |a| == |b|;
    forall k | 0 <= k < |a| ensures a[k] == b[k] {
      if k >= 2 {
        assert (k - 2) % 2 == k % 2;
      }
    }
  }

  lemma ServerDownIsRetryable(attempts: int)
    ensures ShouldReconnect(ServerDown, attempts) <==> attempts < MaxReconnectAttempts
    ensures IsRetryableError(ServerDown)
  {
    RetryableExamples();
  }

  /** Each failed cycle counts one attempt and leaves the connection
      CONNECTING with a fresh session and no timer queued. */
  lemma FailedRetryCycle(c: Connection, error: TransportError, rest: seq<Input>)
    requires c.state == Connecting && c.hasSession && !c.released && c.pending == []
    requires 0 <= c.attempts < MaxReconnectAttempts && IsRetryableError(error)
    ensures Run(c, FailedRetryCycleInputs(error) + rest).conn == Run(Counted(c, 1), rest).conn
  {
    var failure := Deliver(TransportFailure(error, None));
    var retry := Deliver(RetryDue(0));
    var c1 := c.(attempts := c.attempts + 1, state := Reconnecting,
                 pending := [RetryTask(c.attempts + 1, ReconnectDelay(c.attempts + 1))]);
    FailureStep(c, error);
    RetryStep(c1);
    RunCons(c1, retry, rest, Counted(c, 1));
    RunCons(c, failure, [retry] + rest, c1);
    assert FailedRetryCycleInputs(error) + rest == [failure] + ([retry] + rest);
  }

  lemma FailureStep(c: Connection, error: TransportError)
    requires c.state == Connecting && !c.released && c.pending == []
    requires 0 <= c.attempts < MaxReconnectAttempts && IsRetryableError(error)
    ensures Apply(c, Deliver(TransportFailure(error, None))).conn ==
      c.(attempts := c.attempts + 1, state := Reconnecting,
         pending := [RetryTask(c.attempts + 1, ReconnectDelay(c.attempts + 1))])
  {
    RetryableErrorMeaning(error);
    var s1 := ChangeState(c, Failed);
    assert HandleFailure(c, error, None).conn == EnterReconnecting(s1.conn).conn;
  }

  /** `c` with `n` more attempts counted. */
  function Counted(c: Connection, n: nat): Connection
  {
    c.(attempts := c.attempts + n)
  }

  /** While the counter stays within the maximum, each failed cycle counts
      exactly one attempt. */
  lemma {:induction false} ServerDownCounts(c: Connection, error: TransportError, n: nat)
    requires c.state == Connecting && c.hasSession && !c.released && c.pending == []
    requires 0 <= c.attempts && c.attempts + n <= MaxReconnectAttempts && IsRetryableError(error)
    ensures Run(c, FailedRetries(error, n)).conn == Counted(c, n)
    decreases n
  {
    if n == 0 {
      assert FailedRetries(error, 0) == [];
    } else {
      FailedRetriesCons(c, error, n);
      ServerDownCounts(Counted(c, 1), error, n - 1);
      assert Counted(Counted(c, 1), n - 1) == Counted(c, n);
    }
  }

  lemma FailedRetriesCons(c: Connection, error: TransportError, n: nat)
    requires c.state == Connecting && c.hasSession && !c.released && c.pending == []
    requires 0 <= c.attempts < MaxReconnectAttempts && IsRetryableError(error) && n > 0
    ensures Run(c, FailedRetries(error, n)).conn == Run(Counted(c, 1), FailedRetries(error, n - 1)).conn
  {
    FailedRetriesUnfold(error, n);
    FailedRetryCycle(c, error, FailedRetries(error, n - 1));
  }

  /** Where a fresh connection stands after connecting and ten failed retries. */
  function AfterTenFailedRetries(id: int, l: ListenerRef, now: int): Connection
  {
    Run(NewConnection(id, Some(l), now), [ConnectCall] + FailedRetries(ServerDown, MaxReconnectAttempts)).conn
  }

  lemma AfterTenFailedRetriesState(id: int, l: ListenerRef, now: int)
    ensures AfterTenFailedRetries(id, l, now) ==
      NewConnection(id, Some(l), now).(state := Connecting, hasSession := true, attempts := MaxReconnectAttempts)
  {
    var c := NewConnection(id, Some(l), now);
    var c1 := c.(state := Connecting, hasSession := true);
    assert Apply(c, ConnectCall).conn == c1;
    RunCons(c, ConnectCall, FailedRetries(ServerDown, MaxReconnectAttempts), c1);
    ServerDownIsRetryable(0);
    ServerDownCounts(c1, ServerDown, MaxReconnectAttempts);
  }

  /** As written, the eleventh ConnectException ends the connection in
      FAILED and the listener never hears onReconnectFailed. */
  lemma SilentGiveUpAsWritten(id: int, l: ListenerRef, now: int)
    ensures var r := HandleFailureAsWritten(AfterTenFailedRetries(id, l, now), ServerDown, None);
      && r.conn.state == Failed
      && Notify(OnReconnectFailed(MaxReconnectAttempts)) !in r.out
  {
    var c := AfterTenFailedRetries(id, l, now);
    AfterTenFailedRetriesState(id, l, now);
    ServerDownIsRetryable(c.attempts);
    var r := HandleFailureAsWritten(c, ServerDown, None);
    assert r.out == ChangeState(c, Failed).out + Emit(c, OnError(ServerDown, None)) + [Invoke(FailureCallback)];
  }

  /** Corrected, the same run reports the give-up. */
  lemma GiveUpReported(id: int, l: ListenerRef, now: int)
    ensures var r := HandleFailure(AfterTenFailedRetries(id, l, now), ServerDown, None);
      && r.conn.state == Failed
      && Notify(OnReconnectFailed(MaxReconnectAttempts)) in r.out
  {
    var c := AfterTenFailedRetries(id, l, now);
    AfterTenFailedRetriesState(id, l, now);
    ServerDownIsRetryable(c.attempts);
  }
}
