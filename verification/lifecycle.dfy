/**
 One reconnecting connection as an immutable record, and one pure step
 function per thing that can happen to it: the caller's operations
 (connect, close, shutdown, manual reconnect) and the signals delivered by
 the transport and the connection's own timers (open, closing frame,
 message, failure, heartbeat check, retry timer).

 Each step returns the new record together with the effects it had, in
 order: calls into the rich listener (only when one is present), calls into
 the four simple callbacks (always), and the opening, closing and release of
 the transport session and client.
 */
module Lifecycle {
  import opened Wrappers
  import opened Listener
  import opened ReconnectPolicy

  /** The simple callbacks kept for compatibility; always present. */
  datatype Callback = OpenCallback | MessageCallback(text: string) | ClosingCallback(reason: string) | FailureCallback

  datatype Effect =
    | Notify(event: Event)                           // a call into the rich listener
    | Invoke(callback: Callback)                     // a call into a simple callback
    | OpenSession                                    // a new socket through the dedicated client
    | CloseSession(code: int, reason: Option<string>) // the current socket is closed and dropped
    | ReleaseResources                               // scheduler and dedicated client shut down

  /** A queued one-shot retry timer: the attempt it belongs to and its delay. */
  datatype RetryTask = RetryTask(attempt: int, delay: int)

  datatype Connection = Connection(
    id: int,
    listener: Option<ListenerRef>,
    state: ConnectionState,
    attempts: int,          // the reconnect-attempt counter
    hasSession: bool,       // a socket handle is held
    lastMessageTime: int,   // milliseconds
    released: bool,         // shutdown() has run
    pending: seq<RetryTask>)

  datatype Step = Step(conn: Connection, out: seq<Effect>)

  /** A freshly constructed connection; `now` is the construction time. */
  function NewConnection(id: int, listener: Option<ListenerRef>, now: int): (c: Connection)
    ensures c.state == Disconnected && c.attempts == 0 && !c.hasSession && !c.released && c.pending == []
    ensures c.id == id && c.listener == listener && c.lastMessageTime == now
  {
    Connection(id, listener, Disconnected, 0, false, now, false, [])
  }

  /** The event as delivered to the listener: nothing when there is none. */
  function Emit(c: Connection, e: Event): seq<Effect>
  {
    if c.listener.Some? then [Notify(e)] else []
  }

  function RemoveAt<T>(s: seq<T>, i: int): (r: seq<T>)
    requires 0 <= i < |s|
    ensures |r| == |s| - 1
    ensures forall k :: 0 <= k < |r| ==> r[k] == (if k < i then s[k] else s[k + 1])
  {
    s[..i] + s[i + 1..]
  }

  /** Sets the state; tells the listener only about a real change. */
  function ChangeState(c: Connection, newState: ConnectionState): (r: Step)
    ensures r.conn == c.(state := newState)
    ensures r.out == [] || r.out == [Notify(OnConnectionStateChanged(newState))]
    ensures r.out != [] <==> c.state != newState && c.listener.Some?
  {
    Step(c.(state := newState), if c.state != newState then Emit(c, OnConnectionStateChanged(newState)) else [])
  }

  /** Counts one more attempt; gives up past the maximum, otherwise queues a
      retry timer with the backoff delay. A released connection's scheduler
      rejects the timer, so nothing is queued then. */
  function ScheduleReconnect(c: Connection): (r: Step)
    ensures r.conn.attempts == c.attempts + 1
    ensures r.conn == c.(attempts := r.conn.attempts, state := r.conn.state, pending := r.conn.pending)
    ensures forall e :: e in r.out ==> e.Notify?
    ensures c.attempts + 1 > MaxReconnectAttempts ==>
      && r.conn.state == Failed
      && r.conn.pending == c.pending
      && (Notify(OnReconnectFailed(MaxReconnectAttempts)) in r.out <==> c.listener.Some?)
      && Notify(OnReconnecting(c.attempts + 1)) !in r.out
    ensures c.attempts + 1 <= MaxReconnectAttempts ==>
      && r.conn.state == c.state
      && r.conn.pending == c.pending + (if c.released then [] else [RetryTask(c.attempts + 1, ReconnectDelay(c.attempts + 1))])
      && (Notify(OnReconnecting(c.attempts + 1)) in r.out <==> c.listener.Some?)
      && |r.out| <= 1
  {
    var attempts := c.attempts + 1;
    var c1 := c.(attempts := attempts);
    if attempts > MaxReconnectAttempts then
      var s := ChangeState(c1, Failed);
      Step(s.conn, s.out + Emit(c, OnReconnectFailed(MaxReconnectAttempts)))
    else
      var queued := if c.released then [] else [RetryTask(attempts, ReconnectDelay(attempts))];
      Step(c1.(pending := c.pending + queued), Emit(c, OnReconnecting(attempts)))
  }

  /** The retry path shared by an abnormal close, a heartbeat timeout, a
      retryable failure and a manual reconnect: RECONNECTING, then schedule. */
  function EnterReconnecting(c: Connection): (r: Step)
    ensures r.conn.attempts == c.attempts + 1
    ensures r.conn.state == (if c.attempts + 1 > MaxReconnectAttempts then Failed else Reconnecting)
    ensures r.conn.hasSession == c.hasSession && r.conn.released == c.released
    ensures r.conn.id == c.id && r.conn.listener == c.listener && r.conn.lastMessageTime == c.lastMessageTime
    ensures c.attempts + 1 <= MaxReconnectAttempts ==>
      && r.conn.pending == c.pending + (if c.released then [] else [RetryTask(c.attempts + 1, ReconnectDelay(c.attempts + 1))])
      && (Notify(OnReconnecting(c.attempts + 1)) in r.out <==> c.listener.Some?)
    ensures c.attempts + 1 > MaxReconnectAttempts ==>
      && r.conn.pending == c.pending
      && (Notify(OnReconnectFailed(MaxReconnectAttempts)) in r.out <==> c.listener.Some?)
    ensures forall e :: e in r.out ==> e.Notify?
  {
    var s1 := ChangeState(c, Reconnecting);
    var s2 := ScheduleReconnect(s1.conn);
    Step(s2.conn, s1.out + s2.out)
  }

  /** Opens a session unless one is already held. */
  function Connect(c: Connection): (r: Step)
    ensures r.conn.hasSession
    ensures c.hasSession ==> r == Step(c, [])
    ensures !c.hasSession ==> r.conn.state == Connecting && |r.out| > 0 && r.out[|r.out| - 1] == OpenSession
    ensures r.conn == c.(state := r.conn.state, hasSession := true)
    ensures forall k :: 0 <= k < |r.out| - 1 ==> r.out[k].Notify?
  {
    if c.hasSession then Step(c, [])
    else
      var s := ChangeState(c, Connecting);
      Step(s.conn.(hasSession := true), s.out + [OpenSession])
  }

  /** Releases the scheduler and the dedicated client; nothing else changes. */
  function Shutdown(c: Connection): (r: Step)
    ensures r.conn.released
    ensures r.conn.state == c.state && r.conn.hasSession == c.hasSession && r.conn.pending == c.pending
    ensures r.conn.attempts == c.attempts && r.conn.id == c.id && r.conn.listener == c.listener
    ensures r.conn.lastMessageTime == c.lastMessageTime
    ensures r.out == [ReleaseResources]
  {
    Step(c.(released := true), [ReleaseResources])
  }

  /** Drops the session with a normal-closure code; a close that is not part
      of a reconnect is terminal: DISCONNECTED, then shutdown. */
  function Close(c: Connection, isReconnect: bool): (r: Step)
    ensures !r.conn.hasSession
    ensures CloseSession(NormalClosureStatus, None) in r.out <==> c.hasSession
    ensures isReconnect ==> r.conn == c.(hasSession := false) && forall e :: e in r.out ==> e.CloseSession?
    ensures !isReconnect ==> r.conn.state == Disconnected && r.conn.released && |r.out| > 0 && r.out[|r.out| - 1] == ReleaseResources
    ensures r.conn.attempts == c.attempts && r.conn.pending == c.pending
    ensures r.conn.id == c.id && r.conn.listener == c.listener && r.conn.lastMessageTime == c.lastMessageTime
    ensures c.released ==> r.conn.released
  {
    var out0 := if c.hasSession then [CloseSession(NormalClosureStatus, None)] else [];
    var c0 := c.(hasSession := false);
    if isReconnect then Step(c0, out0)
    else
      var s1 := ChangeState(c0, Disconnected);
      var s2 := Shutdown(s1.conn);
      Step(s2.conn, out0 + s1.out + s2.out)
  }

  /** The session opened: CONNECTED, counter reset, liveness clock refreshed. */
  function HandleOpen(c: Connection, now: int): (r: Step)
    ensures r.conn.state == Connected && r.conn.attempts == 0 && r.conn.lastMessageTime == now
    ensures r.conn == c.(state := Connected, attempts := 0, lastMessageTime := now)
    ensures Notify(OnReconnected(c.attempts)) in r.out <==> c.listener.Some? && c.attempts > 0
    ensures Notify(OnConnected) in r.out <==> c.listener.Some? && c.attempts <= 0
    ensures |r.out| > 0 && r.out[|r.out| - 1] == Invoke(OpenCallback)
    ensures forall k :: 0 <= k < |r.out| - 1 ==> r.out[k].Notify?
  {
    var s := ChangeState(c, Connected);
    var previous := c.attempts;
    var note := if previous > 0 then Emit(c, OnReconnected(previous)) else Emit(c, OnConnected);
    Step(s.conn.(attempts := 0, lastMessageTime := now), s.out + note + [Invoke(OpenCallback)])
  }

  /** The peer started the closing handshake. Only a non-normal code retries. */
  function HandleClosing(c: Connection, code: int, reason: string): (r: Step)
    ensures Invoke(ClosingCallback(reason)) in r.out
    ensures Notify(OnDisconnected(code, reason)) in r.out <==> c.listener.Some?
    ensures code == NormalClosureStatus ==> r.conn == c && |r.out| == (if c.listener.Some? then 2 else 1)
    ensures code != NormalClosureStatus ==>
      && r.conn == EnterReconnecting(c).conn
      && r.out == Emit(c, OnDisconnected(code, reason)) + [Invoke(ClosingCallback(reason))] + EnterReconnecting(c).out
  {
    var out0 := Emit(c, OnDisconnected(code, reason)) + [Invoke(ClosingCallback(reason))];
    if code != NormalClosureStatus then
      var s := EnterReconnecting(c);
      Step(s.conn, out0 + s.out)
    else Step(c, out0)
  }

  /** A message arrived: refresh the liveness clock and forward it to both sinks. */
  function HandleMessage(c: Connection, text: string, now: int): (r: Step)
    ensures r.conn == c.(lastMessageTime := now)
    ensures Invoke(MessageCallback(text)) in r.out
    ensures Notify(OnMessage(text)) in r.out <==> c.listener.Some?
    ensures |r.out| == (if c.listener.Some? then 2 else 1)
  {
    Step(c.(lastMessageTime := now), Emit(c, OnMessage(text)) + [Invoke(MessageCallback(text))])
  }

  /** onFailure as the Java code writes it: FAILED first, report, then retry if
      the classifier allows. With the counter already at the maximum a
      retryable failure ends in FAILED without onReconnectFailed. */
  function HandleFailureAsWritten(c: Connection, error: TransportError, response: Option<string>): (r: Step)
    ensures r.conn.state == (if ShouldReconnect(error, c.attempts) then Reconnecting else Failed)
    ensures ShouldReconnect(error, c.attempts) ==> r.conn == EnterReconnecting(c.(state := Failed)).conn
    ensures !ShouldReconnect(error, c.attempts) ==> r.conn == c.(state := Failed)
    ensures Invoke(FailureCallback) in r.out
    ensures Notify(OnError(error, response)) in r.out <==> c.listener.Some?
  {
    var s1 := ChangeState(c, Failed);
    var out0 := s1.out + Emit(c, OnError(error, response)) + [Invoke(FailureCallback)];
    if ShouldReconnect(error, c.attempts) then
      var s2 := EnterReconnecting(s1.conn);
      Step(s2.conn, out0 + s2.out)
    else Step(s1.conn, out0)
  }

  /** onFailure with the exhausted-retry case reported: a retryable failure
      that finds the counter exactly at the maximum tells the listener
      onReconnectFailed, as every other way of giving up does. Past the
      maximum the give-up has already been reported by the schedule that
      counted it, so it is not reported again. */
  function HandleFailure(c: Connection, error: TransportError, response: Option<string>): (r: Step)
    ensures r.conn.state == (if ShouldReconnect(error, c.attempts) then Reconnecting else Failed)
    ensures ShouldReconnect(error, c.attempts) ==> r.conn == EnterReconnecting(c.(state := Failed)).conn
    ensures !ShouldReconnect(error, c.attempts) ==> r.conn == c.(state := Failed)
    ensures Invoke(FailureCallback) in r.out
    ensures Notify(OnError(error, response)) in r.out <==> c.listener.Some?
    ensures Notify(OnReconnectFailed(MaxReconnectAttempts)) in r.out <==>
      c.listener.Some? && IsRetryableError(error) && c.attempts == MaxReconnectAttempts
    ensures c.state != Failed && c.listener.Some? ==> |r.out| > 0 && r.out[0] == Notify(OnConnectionStateChanged(Failed))
  {
    var s1 := ChangeState(c, Failed);
    var out0 := s1.out + Emit(c, OnError(error, response)) + [Invoke(FailureCallback)];
    if ShouldReconnect(error, c.attempts) then
      var s2 := EnterReconnecting(s1.conn);
      Step(s2.conn, out0 + s2.out)
    else if IsRetryableError(error) && c.attempts == MaxReconnectAttempts then
      Step(s1.conn, out0 + Emit(c, OnReconnectFailed(MaxReconnectAttempts)))
    else Step(s1.conn, out0)
  }

  /** The connection is CONNECTED, not released, and has been silent for
      strictly longer than the liveness timeout. */
  predicate IsStale(c: Connection, now: int)
  {
    !c.released && c.state == Connected && now - c.lastMessageTime > ConnectionTimeout
  }

  /** One run of the periodic heartbeat check. The periodic task is cancelled
      by shutdown, so a released connection is never checked. */
  function HeartbeatCheck(c: Connection, now: int): (r: Step)
    ensures !IsStale(c, now) ==> r == Step(c, [])
    ensures IsStale(c, now) ==> r.conn.attempts == c.attempts + 1 && r.conn.state != Connected
  {
    if IsStale(c, now) then EnterReconnecting(c) else Step(c, [])
  }

  /** The retry timer at `index` fires. It is never cancelled; instead it
      acts only while the state is still RECONNECTING: then it drops any
      stale session, moves to CONNECTING and opens exactly one new session.
      Timers queued before a shutdown still fire. */
  function FireRetry(c: Connection, index: int): (r: Step)
    ensures !(0 <= index < |c.pending|) ==> r == Step(c, [])
    ensures 0 <= index < |c.pending| && c.state != Reconnecting ==>
      r == Step(c.(pending := RemoveAt(c.pending, index)), [])
    ensures 0 <= index < |c.pending| && c.state == Reconnecting ==>
      && r.conn == c.(pending := RemoveAt(c.pending, index), state := Connecting, hasSession := true)
      && |r.out| > 0 && r.out[|r.out| - 1] == OpenSession
      && (forall k :: 0 <= k < |r.out| - 1 ==> r.out[k] != OpenSession)
      && (CloseSession(NormalClosureStatus, Some("Reconnecting")) in r.out <==> c.hasSession)
  {
    if !(0 <= index < |c.pending|) then Step(c, [])
    else
      var c0 := c.(pending := RemoveAt(c.pending, index));
      if c0.state != Reconnecting then Step(c0, [])
      else
        var out0 := if c0.hasSession then [CloseSession(NormalClosureStatus, Some("Reconnecting"))] else [];
        var s := ChangeState(c0.(hasSession := false), Connecting);
        Step(s.conn.(hasSession := true), out0 + s.out + [OpenSession])
  }

  /** Manual reconnect: the counter restarts, so this is attempt 1. */
  function Reconnect(c: Connection): (r: Step)
    ensures r.conn.attempts == 1 && r.conn.state == Reconnecting
    ensures Notify(OnReconnecting(1)) in r.out <==> c.listener.Some?
    ensures r.conn.pending == c.pending + (if c.released then [] else [RetryTask(1, InitialReconnectDelay)])
    ensures r.conn.hasSession == c.hasSession && r.conn.released == c.released
  {
    EnterReconnecting(c.(attempts := 0))
  }

  /** What the transport and the connection's own timers deliver. */
  datatype Signal =
    | Opened(now: int)
    | ClosingFrame(code: int, reason: string)
    | MessageArrived(text: string, now: int)
    | TransportFailure(error: TransportError, response: Option<string>)
    | HeartbeatDue(now: int)
    | RetryDue(index: int)

  /** Everything that can happen to a connection. */
  datatype Input =
    | ConnectCall
    | CloseCall(isReconnect: bool)
    | ShutdownCall
    | ReconnectCall
    | Deliver(signal: Signal)

  /** Signals never change the identity or listener of a connection and
      never release it. */
  function Handle(c: Connection, s: Signal): (r: Step)
    ensures r.conn.id == c.id && r.conn.listener == c.listener && r.conn.released == c.released
  {
    match s
    case Opened(now) => HandleOpen(c, now)
    case ClosingFrame(code, reason) => HandleClosing(c, code, reason)
    case MessageArrived(text, now) => HandleMessage(c, text, now)
    case TransportFailure(error, response) => HandleFailure(c, error, response)
    case HeartbeatDue(now) => HeartbeatCheck(c, now)
    case RetryDue(index) => FireRetry(c, index)
  }

  function Apply(c: Connection, i: Input): (r: Step)
    ensures r.conn.id == c.id && r.conn.listener == c.listener
    ensures c.released ==> r.conn.released
  {
    match i
    case ConnectCall => Connect(c)
    case CloseCall(isReconnect) => Close(c, isReconnect)
    case ShutdownCall => Shutdown(c)
    case ReconnectCall => Reconnect(c)
    case Deliver(s) => Handle(c, s)
  }

  /** Inputs applied one after another; the effects are concatenated. */
  function Run(c: Connection, inputs: seq<Input>): (r: Step)
    ensures r.conn.id == c.id && r.conn.listener == c.listener
    ensures c.released ==> r.conn.released
    decreases |inputs|
  {
    if inputs == [] then Step(c, [])
    else
      var s := Apply(c, inputs[0]);
      var rest := Run(s.conn, inputs[1..]);
      Step(rest.conn, s.out + rest.out)
  }
}
