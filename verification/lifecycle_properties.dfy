/**
 Properties of the connection lifecycle that hold for every input and over
 every run of inputs: well-formed counters and timers, the listener's view
 of state changes, the single-session discipline, and the independence of
 the reconnect machinery from whether a listener is present.
 */
module LifecycleProperties {
  import opened Wrappers
  import opened Listener
  import opened ReconnectPolicy
  import opened Lifecycle

  // ---------------------------------------------------------------------
  // Well-formed connections and events

  /** A queued retry belongs to one of the permitted attempts and waits the backoff for it. */
  predicate ValidTask(t: RetryTask)
  {
    1 <= t.attempt <= MaxReconnectAttempts && t.delay == ReconnectDelay(t.attempt)
  }

  predicate Valid(c: Connection)
  {
    c.attempts >= 0 && forall k :: 0 <= k < |c.pending| ==> ValidTask(c.pending[k])
  }

  /** Attempt numbers shown to the listener start at 1 and stay within the
      maximum; a reconnection reports a positive count; giving up reports the
      maximum, not the counter. */
  predicate WellFormedEvent(e: Event)
  {
    match e
    case OnReconnecting(a) => 1 <= a <= MaxReconnectAttempts
    case OnReconnected(a) => a >= 1
    case OnReconnectFailed(m) => m == MaxReconnectAttempts
    case _ => true
  }

  predicate WellFormedEvents(out: seq<Effect>)
  {
    forall k :: 0 <= k < |out| && out[k].Notify? ==> WellFormedEvent(out[k].event)
  }

  // ---------------------------------------------------------------------
  // The listener's view of state changes

  /** The states announced through onConnectionStateChanged, in order. */
  function StateChanges(out: seq<Effect>): seq<ConnectionState>
  {
    if out == [] then []
    else
      (if out[0].Notify? && out[0].event.OnConnectionStateChanged? then [out[0].event.newState] else [])
      + StateChanges(out[1..])
  }

  lemma {:induction false} StateChangesAppend(a: seq<Effect>, b: seq<Effect>)
    ensures StateChanges(a + b) == StateChanges(a) + StateChanges(b)
    decreases |a|
  {
    if a == [] {
      assert a + b == b;
    } else {
      assert (a + b)[1..] == a[1..] + b;
      StateChangesAppend(a[1..], b);
    }
  }

  predicate AnnouncesState(e: Effect)
  {
    e.Notify? && e.event.OnConnectionStateChanged?
  }

  lemma {:induction false} StateChangesQuiet(out: seq<Effect>)
    requires forall k :: 0 <= k < |out| ==> !AnnouncesState(out[k])
    ensures StateChanges(out) == []
    decreases |out|
  {
    if out != [] {
      StateChangesQuiet(out[1..]);
    }
  }

  predicate StutterFree(chain: seq<ConnectionState>)
  {
    forall i :: 0 < i < |chain| ==> chain[i - 1] != chain[i]
  }

  /** What a listener learns over a stretch of effects that takes the
      connection from state `from` to state `to`: each announced state
      differs from the one before it (never a self-transition) and the last
      one announced is `to` (no change goes unreported). Without a listener
      nothing is announced. */
  predicate Reports(listening: bool, from: ConnectionState, out: seq<Effect>, to: ConnectionState)
  {
    var chain := [from] + StateChanges(out);
    if listening then StutterFree(chain) && chain[|chain| - 1] == to
    else StateChanges(out) == []
  }

  lemma ReportsQuiet(listening: bool, s: ConnectionState, out: seq<Effect>)
    requires forall k :: 0 <= k < |out| ==> !AnnouncesState(out[k])
    ensures Reports(listening, s, out, s)
  {
    StateChangesQuiet(out);
  }

  lemma ReportsCompose(listening: bool, a: ConnectionState, o1: seq<Effect>, b: ConnectionState,
                       o2: seq<Effect>, c: ConnectionState)
    requires Reports(listening, a, o1, b) && Reports(listening, b, o2, c)
    ensures Reports(listening, a, o1 + o2, c)
  {
    StateChangesAppend(o1, o2);
    if listening {
      var left := [a] + StateChanges(o1);
      var y := StateChanges(o2);
      assert [a] + StateChanges(o1 + o2) == left + y;
      StutterFreeJoin(left, y);
    }
  }

  /** Two stutter-free chains that meet at a shared state join into one. */
  lemma StutterFreeJoin(left: seq<ConnectionState>, y: seq<ConnectionState>)
    requires |left| > 0 && StutterFree(left) && StutterFree([left[|left| - 1]] + y)
    ensures StutterFree(left + y)
    ensures (left + y)[|left + y| - 1] == ([left[|left| - 1]] + y)[|y|]
  {
    var chain := left + y;
    var right := [left[|left| - 1]] + y;
    forall i | 0 < i < |chain|
      ensures chain[i - 1] != chain[i]
    {
      if i < |left| {
        assert chain[i - 1] == left[i - 1] && chain[i] == left[i];
      } else {
        assert chain[i - 1] == right[i - |left|] && chain[i] == right[i - |left| + 1];
      }
    }
  }

  lemma ChangeStateReports(c: Connection, s: ConnectionState)
    ensures Reports(c.listener.Some?, c.state, ChangeState(c, s).out, s)
  {
    var out := ChangeState(c, s).out;
    if out != [] {
      assert StateChanges(out) == [s] + StateChanges(out[1..]);
      assert out[1..] == [];
    }
  }

  // ---------------------------------------------------------------------
  // At most one session

  /** Reading the effects in order from `had`: a session is opened only
      when none is held and closed only when one is held, ending at `has`. */
  predicate SessionDiscipline(had: bool, out: seq<Effect>, has: bool)
    decreases |out|
  {
    if out == [] then had == has
    else match out[0]
      case OpenSession => !had && SessionDiscipline(true, out[1..], has)
      case CloseSession(_, _) => had && SessionDiscipline(false, out[1..], has)
      case _ => SessionDiscipline(had, out[1..], has)
  }

  predicate TouchesSession(e: Effect)
  {
    e.OpenSession? || e.CloseSession?
  }

  lemma {:induction false} SessionQuiet(h: bool, out: seq<Effect>)
    requires forall k :: 0 <= k < |out| ==> !TouchesSession(out[k])
    ensures SessionDiscipline(h, out, h)
    decreases |out|
  {
    if out != [] {
      SessionQuiet(h, out[1..]);
    }
  }

  lemma {:induction false} SessionCompose(a: bool, o1: seq<Effect>, b: bool, o2: seq<Effect>, c: bool)
    requires SessionDiscipline(a, o1, b) && SessionDiscipline(b, o2, c)
    ensures SessionDiscipline(a, o1 + o2, c)
    decreases |o1|
  {
    if o1 == [] {
      assert o1 + o2 == o2;
    } else {
      assert (o1 + o2)[0] == o1[0];
      assert (o1 + o2)[1..] == o1[1..] + o2;
      var next := match o1[0] case OpenSession => true case CloseSession(_, _) => false case _ => a;
      SessionCompose(next, o1[1..], b, o2, c);
    }
  }

  // ---------------------------------------------------------------------
  // The listener only observes

  /** The effects other than listener calls. */
  function Plain(out: seq<Effect>): seq<Effect>
  {
    if out == [] then []
    else (if out[0].Notify? then [] else [out[0]]) + Plain(out[1..])
  }

  lemma {:induction false} PlainAppend(a: seq<Effect>, b: seq<Effect>)
    ensures Plain(a + b) == Plain(a) + Plain(b)
    decreases |a|
  {
    if a == [] {
      assert a + b == b;
    } else {
      assert (a + b)[1..] == a[1..] + b;
      PlainAppend(a[1..], b);
    }
  }

  lemma {:induction false} PlainOfNotifications(out: seq<Effect>)
    requires forall k :: 0 <= k < |out| ==> out[k].Notify?
    ensures Plain(out) == []
    decreases |out|
  {
    if out != [] {
      PlainOfNotifications(out[1..]);
    }
  }

  lemma {:induction false} PlainKeepsOthers(out: seq<Effect>)
    requires forall k :: 0 <= k < |out| ==> !out[k].Notify?
    ensures Plain(out) == out
    decreases |out|
  {
    if out != [] {
      PlainKeepsOthers(out[1..]);
    }
  }

  /** No listener calls at all. */
  predicate Silent(out: seq<Effect>)
  {
    forall k :: 0 <= k < |out| ==> !out[k].Notify?
  }

  // ---------------------------------------------------------------------
  // Sound steps

  /** A step from `c` to `r.conn` that keeps the listener, keeps a
      well-formed connection well formed with well-formed events, reports its
      state changes faithfully, obeys the single-session discipline, and
      makes no listener call when there is no listener. */
  predicate Sound(c: Connection, r: Step)
  {
    && r.conn.listener == c.listener
    && (Valid(c) ==> Valid(r.conn) && WellFormedEvents(r.out))
    && Reports(c.listener.Some?, c.state, r.out, r.conn.state)
    && SessionDiscipline(c.hasSession, r.out, r.conn.hasSession)
    && (c.listener.None? ==> Silent(r.out))
  }

  lemma SoundCompose(c: Connection, r1: Step, r2: Step)
    requires Sound(c, r1) && Sound(r1.conn, r2)
    ensures Sound(c, Step(r2.conn, r1.out + r2.out))
  {
    var out := r1.out + r2.out;
    ReportsCompose(c.listener.Some?, c.state, r1.out, r1.conn.state, r2.out, r2.conn.state);
    SessionCompose(c.hasSession, r1.out, r1.conn.hasSession, r2.out, r2.conn.hasSession);
    forall k | 0 <= k < |out|
      ensures out[k] == (if k < |r1.out| then r1.out[k] else r2.out[k - |r1.out|])
    {
    }
  }

  /** A stretch that neither changes state nor touches the session. */
  lemma QuietSound(c: Connection, r: Step)
    requires r.conn.listener == c.listener && r.conn.state == c.state && r.conn.hasSession == c.hasSession
    requires Valid(c) ==> Valid(r.conn)
    requires forall k :: 0 <= k < |r.out| ==>
      && !AnnouncesState(r.out[k]) && !TouchesSession(r.out[k])
      && (r.out[k].Notify? ==> c.listener.Some? && (Valid(c) ==> WellFormedEvent(r.out[k].event)))
    ensures Sound(c, r)
  {
    ReportsQuiet(c.listener.Some?, c.state, r.out);
    SessionQuiet(c.hasSession, r.out);
  }

  /** Soundness depends on the starting record only through its listener,
      state, session flag and well-formedness. */
  lemma SoundFrom(c: Connection, c': Connection, r: Step)
    requires c'.listener == c.listener && c'.state == c.state && c'.hasSession == c.hasSession
    requires Valid(c) ==> Valid(c')
    requires Sound(c', r)
    ensures Sound(c, r)
  {
  }

  lemma ChangeStateSound(c: Connection, s: ConnectionState)
    ensures Sound(c, ChangeState(c, s))
  {
    var r := ChangeState(c, s);
    ChangeStateReports(c, s);
    SessionQuiet(c.hasSession, r.out);
  }

  lemma OpenSound(c: Connection)
    requires !c.hasSession
    ensures Sound(c, Step(c.(hasSession := true), [OpenSession]))
  {
    ReportsQuiet(c.listener.Some?, c.state, [OpenSession]);
    assert SessionDiscipline(false, [OpenSession], true);
  }

  /** Closing the held session, if any. */
  lemma DropSound(c: Connection, reason: Option<string>)
    ensures Sound(c, Step(c.(hasSession := false), if c.hasSession then [CloseSession(NormalClosureStatus, reason)] else []))
  {
    var out := if c.hasSession then [CloseSession(NormalClosureStatus, reason)] else [];
    ReportsQuiet(c.listener.Some?, c.state, out);
    assert SessionDiscipline(c.hasSession, out, false);
  }

  lemma ScheduleReconnectSound(c: Connection)
    ensures Sound(c, ScheduleReconnect(c))
  {
    var attempts := c.attempts + 1;
    var c1 := c.(attempts := attempts);
    if attempts > MaxReconnectAttempts {
      var s := ChangeState(c1, Failed);
      ChangeStateSound(c1, Failed);
      SoundFrom(c, c1, s);
      QuietSound(s.conn, Step(s.conn, Emit(c, OnReconnectFailed(MaxReconnectAttempts))));
      SoundCompose(c, s, Step(s.conn, Emit(c, OnReconnectFailed(MaxReconnectAttempts))));
    } else {
      assert ScheduleReconnect(c).out == Emit(c, OnReconnecting(attempts));
      QuietSound(c, ScheduleReconnect(c));
    }
  }

  lemma EnterReconnectingSound(c: Connection)
    ensures Sound(c, EnterReconnecting(c))
  {
    var s1 := ChangeState(c, Reconnecting);
    ChangeStateSound(c, Reconnecting);
    ScheduleReconnectSound(s1.conn);
    SoundCompose(c, s1, ScheduleReconnect(s1.conn));
  }

  lemma ConnectSound(c: Connection)
    ensures Sound(c, Connect(c))
  {
    if c.hasSession {
      QuietSound(c, Connect(c));
    } else {
      var s := ChangeState(c, Connecting);
      ChangeStateSound(c, Connecting);
      OpenSound(s.conn);
      SoundCompose(c, s, Step(s.conn.(hasSession := true), [OpenSession]));
    }
  }

  lemma ShutdownSound(c: Connection)
    ensures Sound(c, Shutdown(c))
  {
    QuietSound(c, Shutdown(c));
  }

  lemma CloseSound(c: Connection, isReconnect: bool)
    ensures Sound(c, Close(c, isReconnect))
  {
    var c0 := c.(hasSession := false);
    var d := Step(c0, if c.hasSession then [CloseSession(NormalClosureStatus, None)] else []);
    DropSound(c, None);
    if !isReconnect {
      var s1 := ChangeState(c0, Disconnected);
      ChangeStateSound(c0, Disconnected);
      SoundCompose(c, d, s1);
      var d1 := Step(s1.conn, d.out + s1.out);
      ShutdownSound(s1.conn);
      SoundCompose(c, d1, Shutdown(s1.conn));
    }
  }

  lemma ReconnectSound(c: Connection)
    ensures Sound(c, Reconnect(c))
  {
    EnterReconnectingSound(c.(attempts := 0));
    SoundFrom(c, c.(attempts := 0), Reconnect(c));
  }

  /** The notification part of an open, after the state change. */
  function OpenTail(c: Connection): seq<Effect>
  {
    (if c.attempts > 0 then Emit(c, OnReconnected(c.attempts)) else Emit(c, OnConnected)) + [Invoke(OpenCallback)]
  }

  lemma HandleOpenShape(c: Connection, now: int)
    ensures HandleOpen(c, now) == Step(ChangeState(c, Connected).conn.(attempts := 0, lastMessageTime := now),
                                       ChangeState(c, Connected).out + OpenTail(c))
  {
  }

  lemma HandleOpenSound(c: Connection, now: int)
    ensures Sound(c, HandleOpen(c, now))
  {
    var s := ChangeState(c, Connected);
    ChangeStateSound(c, Connected);
    var tail := OpenTail(c);
    var rest := Step(s.conn.(attempts := 0, lastMessageTime := now), tail);
    QuietSound(s.conn, rest);
    SoundCompose(c, s, rest);
    HandleOpenShape(c, now);
  }

  lemma HandleClosingSound(c: Connection, code: int, reason: string)
    ensures Sound(c, HandleClosing(c, code, reason))
  {
    var first := Step(c, Emit(c, OnDisconnected(code, reason)) + [Invoke(ClosingCallback(reason))]);
    QuietSound(c, first);
    if code != NormalClosureStatus {
      EnterReconnectingSound(c);
      SoundCompose(c, first, EnterReconnecting(c));
    }
  }

  lemma HandleMessageSound(c: Connection, text: string, now: int)
    ensures Sound(c, HandleMessage(c, text, now))
  {
    QuietSound(c, HandleMessage(c, text, now));
  }

  /** onFailure is sound, and a listener hears FAILED before anything else:
      a retried failure passes through FAILED on its way to RECONNECTING. */
  lemma HandleFailureSound(c: Connection, error: TransportError, response: Option<string>)
    ensures Sound(c, HandleFailure(c, error, response))
    ensures c.state != Failed && c.listener.Some? ==>
      |StateChanges(HandleFailure(c, error, response).out)| > 0 &&
      StateChanges(HandleFailure(c, error, response).out)[0] == Failed
  {
    var s1 := ChangeState(c, Failed);
    ChangeStateSound(c, Failed);
    var report := Step(s1.conn, Emit(c, OnError(error, response)) + [Invoke(FailureCallback)]);
    QuietSound(s1.conn, report);
    SoundCompose(c, s1, report);
    var first := Step(s1.conn, s1.out + report.out);
    FailureRestSound(c, error);
    SoundCompose(c, first, FailureRest(c, error));
    HandleFailureShape(c, error, response);
    if c.state != Failed && c.listener.Some? {
      HandleFailureAnnouncesFailedFirst(c, error, response);
    }
  }

  lemma HandleFailureAnnouncesFailedFirst(c: Connection, error: TransportError, response: Option<string>)
    requires c.state != Failed && c.listener.Some?
    ensures |StateChanges(HandleFailure(c, error, response).out)| > 0
    ensures StateChanges(HandleFailure(c, error, response).out)[0] == Failed
  {
    var out := HandleFailure(c, error, response).out;
    assert out == [out[0]] + out[1..];
    StateChangesAppend([out[0]], out[1..]);
  }

  /** The code as written is sound too; what it lacks is a report, not a
      consistent history. */
  lemma HandleFailureAsWrittenSound(c: Connection, error: TransportError, response: Option<string>)
    ensures Sound(c, HandleFailureAsWritten(c, error, response))
  {
    var s1 := ChangeState(c, Failed);
    ChangeStateSound(c, Failed);
    var report := Step(s1.conn, Emit(c, OnError(error, response)) + [Invoke(FailureCallback)]);
    QuietSound(s1.conn, report);
    SoundCompose(c, s1, report);
    var first := Step(s1.conn, s1.out + report.out);
    var rest := FailureRestAsWritten(c, error);
    if ShouldReconnect(error, c.attempts) {
      EnterReconnectingSound(c.(state := Failed));
    } else {
      QuietSound(c.(state := Failed), rest);
    }
    SoundCompose(c, first, rest);
    HandleFailureAsWrittenShape(c, error, response);
  }

  lemma FailureRestSound(c: Connection, error: TransportError)
    ensures Sound(c.(state := Failed), FailureRest(c, error))
  {
    if ShouldReconnect(error, c.attempts) {
      EnterReconnectingSound(c.(state := Failed));
    } else {
      QuietSound(c.(state := Failed), FailureRest(c, error));
    }
  }

  lemma HeartbeatCheckSound(c: Connection, now: int)
    ensures Sound(c, HeartbeatCheck(c, now))
  {
    if IsStale(c, now) {
      EnterReconnectingSound(c);
    } else {
      QuietSound(c, HeartbeatCheck(c, now));
    }
  }

  lemma FireRetrySound(c: Connection, index: int)
    ensures Sound(c, FireRetry(c, index))
  {
    if 0 <= index < |c.pending| {
      var c0 := c.(pending := RemoveAt(c.pending, index));
      assert Valid(c) ==> Valid(c0);
      if c.state != Reconnecting {
        QuietSound(c, FireRetry(c, index));
      } else {
        var d := Step(c0.(hasSession := false), if c0.hasSession then [CloseSession(NormalClosureStatus, Some("Reconnecting"))] else []);
        DropSound(c0, Some("Reconnecting"));
        SoundFrom(c, c0, d);
        var s := ChangeState(c0.(hasSession := false), Connecting);
        ChangeStateSound(c0.(hasSession := false), Connecting);
        SoundCompose(c, d, s);
        var mid := Step(s.conn, d.out + s.out);
        OpenSound(s.conn);
        SoundCompose(c, mid, Step(s.conn.(hasSession := true), [OpenSession]));
      }
    } else {
      QuietSound(c, FireRetry(c, index));
    }
  }

  lemma HandleSound(c: Connection, s: Signal)
    ensures Sound(c, Handle(c, s))
  {
    match s
    case Opened(now) => HandleOpenSound(c, now);
    case ClosingFrame(code, reason) => HandleClosingSound(c, code, reason);
    case MessageArrived(text, now) => HandleMessageSound(c, text, now);
    case TransportFailure(error, response) => HandleFailureSound(c, error, response);
    case HeartbeatDue(now) => HeartbeatCheckSound(c, now);
    case RetryDue(index) => FireRetrySound(c, index);
  }

  lemma ApplySound(c: Connection, i: Input)
    ensures Sound(c, Apply(c, i))
  {
    match i
    case ConnectCall => ConnectSound(c);
    case CloseCall(isReconnect) => CloseSound(c, isReconnect);
    case ShutdownCall => ShutdownSound(c);
    case ReconnectCall => ReconnectSound(c);
    case Deliver(s) => HandleSound(c, s);
  }

  /** Over any run of inputs:
      - a well-formed connection stays well formed: the counter is never
        negative and every queued retry is for attempt 1..10 with its backoff
        delay; the listener sees attempt numbers from 1, never 0, up to 10,
        and a give-up carrying the maximum;
      - a listener sees every change of state once and never a repeated
        state: the announced states, preceded by the initial one, have no two
        equal neighbours and end in the current state;
      - sessions strictly alternate between opened and closed, so at most one
        is ever held;
      - without a listener no listener call is made. */
  lemma {:induction false} RunSound(c: Connection, inputs: seq<Input>)
    ensures Valid(c) ==> Valid(Run(c, inputs).conn) && WellFormedEvents(Run(c, inputs).out)
    ensures Reports(c.listener.Some?, c.state, Run(c, inputs).out, Run(c, inputs).conn.state)
    ensures SessionDiscipline(c.hasSession, Run(c, inputs).out, Run(c, inputs).conn.hasSession)
    ensures c.listener.None? ==> Silent(Run(c, inputs).out)
    decreases |inputs|
  {
    if inputs == [] {
      QuietSound(c, Step(c, []));
    } else {
      var s := Apply(c, inputs[0]);
      ApplySound(c, inputs[0]);
      RunSound(s.conn, inputs[1..]);
      SoundCompose(c, s, Run(s.conn, inputs[1..]));
    }
  }

  // ---------------------------------------------------------------------
  // Listener presence changes only the listener calls

  /** `rd` is `rc` taken with listener `l` instead: the same record apart
      from the listener, and the same effects once listener calls are dropped. */
  predicate SameBut(rd: Step, rc: Step, l: Option<ListenerRef>)
  {
    rd.conn == rc.conn.(listener := l) && Plain(rd.out) == Plain(rc.out)
  }

  lemma SameButCompose(rd1: Step, rc1: Step, rd2: Step, rc2: Step, l: Option<ListenerRef>)
    requires SameBut(rd1, rc1, l) && SameBut(rd2, rc2, l)
    ensures SameBut(Step(rd2.conn, rd1.out + rd2.out), Step(rc2.conn, rc1.out + rc2.out), l)
  {
    PlainAppend(rd1.out, rd2.out);
    PlainAppend(rc1.out, rc2.out);
  }

  lemma NotifyOnlySameBut(rd: Step, rc: Step, l: Option<ListenerRef>)
    requires rd.conn == rc.conn.(listener := l)
    requires forall k :: 0 <= k < |rd.out| ==> rd.out[k].Notify?
    requires forall k :: 0 <= k < |rc.out| ==> rc.out[k].Notify?
    ensures SameBut(rd, rc, l)
  {
    PlainOfNotifications(rd.out);
    PlainOfNotifications(rc.out);
  }

  lemma ChangeStateSameBut(c: Connection, s: ConnectionState, l: Option<ListenerRef>)
    ensures SameBut(ChangeState(c.(listener := l), s), ChangeState(c, s), l)
  {
    NotifyOnlySameBut(ChangeState(c.(listener := l), s), ChangeState(c, s), l);
  }

  lemma EnterReconnectingSameBut(c: Connection, l: Option<ListenerRef>)
    ensures SameBut(EnterReconnecting(c.(listener := l)), EnterReconnecting(c), l)
  {
    NotifyOnlySameBut(EnterReconnecting(c.(listener := l)), EnterReconnecting(c), l);
  }

  lemma ConnectSameBut(c: Connection, l: Option<ListenerRef>)
    ensures SameBut(Connect(c.(listener := l)), Connect(c), l)
  {
    if !c.hasSession {
      var d := c.(listener := l);
      var sd := ChangeState(d, Connecting);
      var sc := ChangeState(c, Connecting);
      ChangeStateSameBut(c, Connecting, l);
      SameButCompose(sd, sc, Step(sd.conn.(hasSession := true), [OpenSession]), Step(sc.conn.(hasSession := true), [OpenSession]), l);
    }
  }

  lemma CloseSameBut(c: Connection, isReconnect: bool, l: Option<ListenerRef>)
    ensures SameBut(Close(c.(listener := l), isReconnect), Close(c, isReconnect), l)
  {
    if !isReconnect {
      var d := c.(listener := l);
      var out0 := if c.hasSession then [CloseSession(NormalClosureStatus, None)] else [];
      var sd := ChangeState(d.(hasSession := false), Disconnected);
      var sc := ChangeState(c.(hasSession := false), Disconnected);
      ChangeStateSameBut(c.(hasSession := false), Disconnected, l);
      SameButCompose(Step(d.(hasSession := false), out0), Step(c.(hasSession := false), out0), sd, sc, l);
      SameButCompose(Step(sd.conn, out0 + sd.out), Step(sc.conn, out0 + sc.out), Shutdown(sd.conn), Shutdown(sc.conn), l);
    }
  }

  lemma HandleOpenSameBut(c: Connection, now: int, l: Option<ListenerRef>)
    ensures SameBut(HandleOpen(c.(listener := l), now), HandleOpen(c, now), l)
  {
    var d := c.(listener := l);
    var sd := ChangeState(d, Connected);
    var sc := ChangeState(c, Connected);
    ChangeStateSameBut(c, Connected, l);
    OpenTailSameBut(sd.conn.(attempts := 0, lastMessageTime := now), sc.conn.(attempts := 0, lastMessageTime := now), d, c, l);
    SameButCompose(sd, sc, Step(sd.conn.(attempts := 0, lastMessageTime := now), OpenTail(d)),
                   Step(sc.conn.(attempts := 0, lastMessageTime := now), OpenTail(c)), l);
    HandleOpenShape(d, now);
    HandleOpenShape(c, now);
  }

  lemma OpenTailSameBut(xd: Connection, xc: Connection, d: Connection, c: Connection, l: Option<ListenerRef>)
    requires xd == xc.(listener := l) && d == c.(listener := l)
    ensures SameBut(Step(xd, OpenTail(d)), Step(xc, OpenTail(c)), l)
  {
    var noteD := if d.attempts > 0 then Emit(d, OnReconnected(d.attempts)) else Emit(d, OnConnected);
    var noteC := if c.attempts > 0 then Emit(c, OnReconnected(c.attempts)) else Emit(c, OnConnected);
    PlainAppend(noteD, [Invoke(OpenCallback)]);
    PlainAppend(noteC, [Invoke(OpenCallback)]);
    PlainOfNotifications(noteD);
    PlainOfNotifications(noteC);
  }

  /** Listener calls followed by one simple-callback call. */
  lemma EmitThenInvokeSameBut(cd: Connection, cc: Connection, e: Event, cb: Callback, l: Option<ListenerRef>)
    requires cd == cc.(listener := l)
    ensures SameBut(Step(cd, Emit(cd, e) + [Invoke(cb)]), Step(cc, Emit(cc, e) + [Invoke(cb)]), l)
  {
    PlainAppend(Emit(cd, e), [Invoke(cb)]);
    PlainAppend(Emit(cc, e), [Invoke(cb)]);
    PlainOfNotifications(Emit(cd, e));
    PlainOfNotifications(Emit(cc, e));
  }

  lemma HandleClosingSameBut(c: Connection, code: int, reason: string, l: Option<ListenerRef>)
    ensures SameBut(HandleClosing(c.(listener := l), code, reason), HandleClosing(c, code, reason), l)
  {
    var d := c.(listener := l);
    EmitThenInvokeSameBut(d, c, OnDisconnected(code, reason), ClosingCallback(reason), l);
    if code != NormalClosureStatus {
      EnterReconnectingSameBut(c, l);
      SameButCompose(Step(d, Emit(d, OnDisconnected(code, reason)) + [Invoke(ClosingCallback(reason))]),
                     Step(c, Emit(c, OnDisconnected(code, reason)) + [Invoke(ClosingCallback(reason))]),
                     EnterReconnecting(d), EnterReconnecting(c), l);
    }
  }

  lemma HandleMessageSameBut(c: Connection, text: string, now: int, l: Option<ListenerRef>)
    ensures SameBut(HandleMessage(c.(listener := l), text, now), HandleMessage(c, text, now), l)
  {
    var d := c.(listener := l);
    EmitThenInvokeSameBut(d.(lastMessageTime := now), c.(lastMessageTime := now), OnMessage(text), MessageCallback(text), l);
  }

  /** What onFailure does after reporting the error. */
  function FailureRest(c: Connection, error: TransportError): Step
  {
    if ShouldReconnect(error, c.attempts) then EnterReconnecting(c.(state := Failed))
    else if IsRetryableError(error) && c.attempts == MaxReconnectAttempts then
      Step(c.(state := Failed), Emit(c, OnReconnectFailed(MaxReconnectAttempts)))
    else Step(c.(state := Failed), [])
  }

  lemma HandleFailureShape(c: Connection, error: TransportError, response: Option<string>)
    ensures HandleFailure(c, error, response) ==
      Step(FailureRest(c, error).conn,
           ChangeState(c, Failed).out + (Emit(c, OnError(error, response)) + [Invoke(FailureCallback)]) + FailureRest(c, error).out)
  {
  }

  /** What onFailure as written does after reporting the error. */
  function FailureRestAsWritten(c: Connection, error: TransportError): Step
  {
    if ShouldReconnect(error, c.attempts) then EnterReconnecting(c.(state := Failed))
    else Step(c.(state := Failed), [])
  }

  lemma HandleFailureAsWrittenShape(c: Connection, error: TransportError, response: Option<string>)
    ensures HandleFailureAsWritten(c, error, response) ==
      Step(FailureRestAsWritten(c, error).conn,
           ChangeState(c, Failed).out + (Emit(c, OnError(error, response)) + [Invoke(FailureCallback)]) + FailureRestAsWritten(c, error).out)
  {
  }

  lemma FailureRestSameBut(c: Connection, error: TransportError, l: Option<ListenerRef>)
    ensures SameBut(FailureRest(c.(listener := l), error), FailureRest(c, error), l)
  {
    if ShouldReconnect(error, c.attempts) {
      EnterReconnectingSameBut(c.(state := Failed), l);
      assert c.(listener := l).(state := Failed) == c.(state := Failed).(listener := l);
    } else {
      NotifyOnlySameBut(FailureRest(c.(listener := l), error), FailureRest(c, error), l);
    }
  }

  lemma HandleFailureSameBut(c: Connection, error: TransportError, response: Option<string>, l: Option<ListenerRef>)
    ensures SameBut(HandleFailure(c.(listener := l), error, response), HandleFailure(c, error, response), l)
  {
    var d := c.(listener := l);
    var sd := ChangeState(d, Failed);
    var sc := ChangeState(c, Failed);
    ChangeStateSameBut(c, Failed, l);
    EmitThenInvokeSameBut(d, c, OnError(error, response), FailureCallback, l);
    var rd := Step(d, Emit(d, OnError(error, response)) + [Invoke(FailureCallback)]);
    var rc := Step(c, Emit(c, OnError(error, response)) + [Invoke(FailureCallback)]);
    SameButCompose(sd, sc, Step(sd.conn, rd.out), Step(sc.conn, rc.out), l);
    FailureRestSameBut(c, error, l);
    SameButCompose(Step(sd.conn, sd.out + rd.out), Step(sc.conn, sc.out + rc.out),
                   FailureRest(d, error), FailureRest(c, error), l);
    HandleFailureShape(d, error, response);
    HandleFailureShape(c, error, response);
  }

  lemma HeartbeatCheckSameBut(c: Connection, now: int, l: Option<ListenerRef>)
    ensures SameBut(HeartbeatCheck(c.(listener := l), now), HeartbeatCheck(c, now), l)
  {
    if IsStale(c, now) {
      EnterReconnectingSameBut(c, l);
    }
  }

  lemma FireRetrySameBut(c: Connection, index: int, l: Option<ListenerRef>)
    ensures SameBut(FireRetry(c.(listener := l), index), FireRetry(c, index), l)
  {
    if 0 <= index < |c.pending| && c.state == Reconnecting {
      var d := c.(listener := l);
      var out0 := if c.hasSession then [CloseSession(NormalClosureStatus, Some("Reconnecting"))] else [];
      var c0 := c.(pending := RemoveAt(c.pending, index), hasSession := false);
      var d0 := d.(pending := RemoveAt(d.pending, index), hasSession := false);
      var sd := ChangeState(d0, Connecting);
      var sc := ChangeState(c0, Connecting);
      ChangeStateSameBut(c0, Connecting, l);
      SameButCompose(Step(d0, out0), Step(c0, out0), sd, sc, l);
      SameButCompose(Step(sd.conn, out0 + sd.out), Step(sc.conn, out0 + sc.out),
                     Step(sd.conn.(hasSession := true), [OpenSession]), Step(sc.conn.(hasSession := true), [OpenSession]), l);
    }
  }

  lemma ApplySameBut(c: Connection, i: Input, l: Option<ListenerRef>)
    ensures SameBut(Apply(c.(listener := l), i), Apply(c, i), l)
  {
    match i
    case ConnectCall => ConnectSameBut(c, l);
    case CloseCall(isReconnect) => CloseSameBut(c, isReconnect, l);
    case ShutdownCall =>
    case ReconnectCall => EnterReconnectingSameBut(c.(attempts := 0), l);
    case Deliver(s) => HandleSameBut(c, s, l);
  }

  lemma HandleSameBut(c: Connection, s: Signal, l: Option<ListenerRef>)
    ensures SameBut(Handle(c.(listener := l), s), Handle(c, s), l)
  {
    match s
    case Opened(now) => HandleOpenSameBut(c, now, l);
    case ClosingFrame(code, reason) => HandleClosingSameBut(c, code, reason, l);
    case MessageArrived(text, now) => HandleMessageSameBut(c, text, now, l);
    case TransportFailure(error, response) => HandleFailureSameBut(c, error, response, l);
    case HeartbeatDue(now) => HeartbeatCheckSameBut(c, now, l);
    case RetryDue(index) => FireRetrySameBut(c, index, l);
  }

  /** Reconnection runs the same with or without a listener (or with a
      different one): over any run, the records differ only in the listener
      and the effects differ only in the listener calls. */
  lemma {:induction false} RunListenerIndependent(c: Connection, inputs: seq<Input>, l: Option<ListenerRef>)
    ensures Run(c.(listener := l), inputs).conn == Run(c, inputs).conn.(listener := l)
    ensures Plain(Run(c.(listener := l), inputs).out) == Plain(Run(c, inputs).out)
    decreases |inputs|
  {
    if inputs != [] {
      var d := c.(listener := l);
      var sd := Apply(d, inputs[0]);
      var sc := Apply(c, inputs[0]);
      ApplySameBut(c, inputs[0], l);
      RunListenerIndependent(sc.conn, inputs[1..], l);
      assert sd.conn == sc.conn.(listener := l);
      SameButCompose(sd, sc, Run(sd.conn, inputs[1..]), Run(sc.conn, inputs[1..]), l);
    }
  }
}
