/**
 The client-side registry of connections: a map from connection id to
 connection, the auto-reconnect switch with its listener, and the
 operations that create, close, close all, reconnect and inspect
 connections. Every operation returns the new registry together with the
 effects it had, each tagged with the id of the connection that had it.

 The id counter is process-wide in the Java code (shared by every registry);
 here it is a field of the registry, and a new registry starts from the
 value the process-wide counter has at that moment.
 */
module Registry {
  import opened Wrappers
  import opened Listener
  import opened ReconnectPolicy
  import opened Lifecycle
  import LifecycleProperties

  datatype Client = Client(
    connections: map<int, Connection>,
    counter: int,                          // the last id handed out
    autoReconnect: bool,
    reconnectListener: Option<ListenerRef>) // used for new connections while auto-reconnect is on

  /** An effect together with the connection it belongs to. */
  datatype Tagged = Tagged(id: int, effect: Effect)

  datatype Created = Created(client: Client, id: int, out: seq<Tagged>)
  datatype Closed = Closed(client: Client, closed: Option<Connection>, out: seq<Tagged>)
  datatype Triggered = Triggered(client: Client, ok: bool, out: seq<Tagged>)

  function Tag(id: int, out: seq<Effect>): (r: seq<Tagged>)
    ensures |r| == |out|
    ensures forall k :: 0 <= k < |r| ==> r[k] == Tagged(id, out[k])
  {
    seq(|out|, k requires 0 <= k < |out| => Tagged(id, out[k]))
  }

  /** The counter starts at zero or above; every registered connection sits
      under its own id, which the counter has already handed out; none has been shut down; each is valid. */
  predicate Valid(cl: Client)
  {
    && cl.counter >= 0
    && forall k :: k in cl.connections ==>
      && 1 <= k <= cl.counter
      && cl.connections[k].id == k
      && !cl.connections[k].released
      && LifecycleProperties.Valid(cl.connections[k])
  }

  /** A new registry: no connections, auto-reconnect off, the built-in
      logging listener ready for when it is turned on. */
  function NewClient(counter: nat): (cl: Client)
    ensures Valid(cl) && cl.connections == map[] && !cl.autoReconnect
    ensures cl.reconnectListener == Some(BuiltIn)
  {
    Client(map[], counter, false, Some(BuiltIn))
  }

  function EnableAutoReconnect(cl: Client): (r: Client)
    ensures r.autoReconnect && r.reconnectListener == cl.reconnectListener
    ensures r.connections == cl.connections && r.counter == cl.counter
  {
    cl.(autoReconnect := true)
  }

  /** Turns auto-reconnect on with a caller-supplied listener, which replaces
      the current one for good (turning auto-reconnect off does not restore it). */
  function EnableAutoReconnectWith(cl: Client, listener: Option<ListenerRef>): (r: Client)
    ensures r.autoReconnect && r.reconnectListener == listener
    ensures r.connections == cl.connections && r.counter == cl.counter
  {
    cl.(autoReconnect := true, reconnectListener := listener)
  }

  function DisableAutoReconnect(cl: Client): (r: Client)
    ensures !r.autoReconnect && r.reconnectListener == cl.reconnectListener
    ensures r.connections == cl.connections && r.counter == cl.counter
  {
    cl.(autoReconnect := false)
  }

  function ActiveConnectionCount(cl: Client): (n: nat)
    ensures n == |cl.connections.Keys|
    ensures n == 0 <==> cl.connections.Keys == {}
  {
    |cl.connections|
  }

  /** The state name of every registered connection, under its id. */
  function AllConnectionStates(cl: Client): (states: map<int, string>)
    ensures states.Keys == cl.connections.Keys
    ensures forall k :: k in states ==> states[k] == StateName(cl.connections[k].state)
  {
    map k | k in cl.connections :: StateName(cl.connections[k].state)
  }

  /** Registers a connection with the next id and connects it. */
  function Register(cl: Client, listener: Option<ListenerRef>, now: int): (r: Created)
    ensures r.id == cl.counter + 1 && r.client.counter == r.id
    ensures r.id in r.client.connections
    ensures r.client.connections[r.id].state == Connecting && r.client.connections[r.id].hasSession
    ensures r.client.connections[r.id].listener == listener
    ensures forall k :: k != r.id ==> (k in r.client.connections <==> k in cl.connections)
    ensures forall k :: k in cl.connections && k != r.id ==> r.client.connections[k] == cl.connections[k]
    ensures r.client.autoReconnect == cl.autoReconnect && r.client.reconnectListener == cl.reconnectListener
  {
    var id := cl.counter + 1;
    var s := Connect(NewConnection(id, listener, now));
    Created(cl.(connections := cl.connections[id := s.conn], counter := id), id, Tag(id, s.out))
  }

  /** A stream connection: with auto-reconnect on it gets the registry's
      listener, otherwise none. */
  function CreateConnection(cl: Client, now: int): (r: Created)
    ensures r.id == cl.counter + 1 && r.id in r.client.connections
    ensures r.client.connections[r.id].listener == (if cl.autoReconnect then cl.reconnectListener else None)
  {
    Register(cl, if cl.autoReconnect then cl.reconnectListener else None, now)
  }

  /** A stream connection with a caller-supplied listener, whatever the
      auto-reconnect switch says. */
  function CreateEnhancedConnection(cl: Client, listener: Option<ListenerRef>, now: int): (r: Created)
    ensures r.id == cl.counter + 1 && r.id in r.client.connections
    ensures r.client.connections[r.id].listener == listener
  {
    Register(cl, listener, now)
  }

  /** Closes one connection for good and forgets it; an unknown id changes nothing. */
  function CloseConnection(cl: Client, id: int): (r: Closed)
    ensures id !in cl.connections ==> r == Closed(cl, None, [])
    ensures id in cl.connections ==>
      && r.closed.Some?
      && r.closed.value.state == Disconnected && r.closed.value.released && !r.closed.value.hasSession
      && r.client.connections == cl.connections - {id}
      && (forall k :: 0 <= k < |r.out| ==> r.out[k].id == id)
      && |r.out| > 0 && r.out[|r.out| - 1] == Tagged(id, ReleaseResources)
    ensures r.client.counter == cl.counter && r.client.autoReconnect == cl.autoReconnect
    ensures r.client.reconnectListener == cl.reconnectListener
  {
    if id in cl.connections then
      var s := Close(cl.connections[id], false);
      Closed(cl.(connections := cl.connections - {id}), Some(s.conn), Tag(id, s.out))
    else Closed(cl, None, [])
  }

  /** Manual reconnect of one connection. A released connection's scheduler
      rejects the retry timer; `triggerReconnect` catches that and reports failure,
      after the counter and the state have already changed. */
  function TriggerReconnect(cl: Client, id: int): (r: Triggered)
    ensures id !in cl.connections ==> r == Triggered(cl, false, [])
    ensures id in cl.connections ==>
      && r.ok == !cl.connections[id].released
      && r.client.connections == cl.connections[id := Reconnect(cl.connections[id]).conn]
      && r.client.connections[id].attempts == 1 && r.client.connections[id].state == Reconnecting
    ensures r.client.counter == cl.counter && r.client.connections.Keys == cl.connections.Keys
  {
    if id in cl.connections then
      var c := cl.connections[id];
      var s := Reconnect(c);
      Triggered(cl.(connections := cl.connections[id := s.conn]), !c.released, Tag(id, s.out))
    else Triggered(cl, false, [])
  }

  /** A transport or timer signal reaching a registered connection. */
  function Dispatch(cl: Client, id: int, signal: Signal): (r: Closed)
    ensures r.closed == None
    ensures r.client.connections.Keys == cl.connections.Keys && r.client.counter == cl.counter
    ensures id !in cl.connections ==> r.client == cl && r.out == []
    ensures id in cl.connections ==> r.client.connections[id] == Handle(cl.connections[id], signal).conn
    ensures forall k :: k in cl.connections && k != id ==> r.client.connections[k] == cl.connections[k]
  {
    if id in cl.connections then
      var s := Handle(cl.connections[id], signal);
      Closed(cl.(connections := cl.connections[id := s.conn]), None, Tag(id, s.out))
    else Closed(cl, None, [])
  }

  lemma HasMember(s: set<int>)
    requires s != {}
    ensures exists k :: k in s
  {
    if forall k :: k !in s {
      assert false;
    }
  }

  /** Where the loop of CloseAllConnections stands: `released` and `out`
      cover exactly the ids no longer `remaining`, each once. */
  predicate ShutdownProgress(cl: Client, remaining: set<int>, released: map<int, Connection>, out: seq<Tagged>)
  {
    && remaining <= cl.connections.Keys
    && released.Keys == cl.connections.Keys - remaining
    && (forall k :: k in released ==> released[k] == Shutdown(cl.connections[k]).conn)
    && |out| + |remaining| == |cl.connections.Keys|
    && (forall i :: 0 <= i < |out| ==> out[i].effect == ReleaseResources && out[i].id in released)
    && (forall k :: k in released ==> Tagged(k, ReleaseResources) in out)
    && (forall i, j :: 0 <= i < j < |out| ==> out[i].id != out[j].id)
  }

  lemma ShutdownProgressStep(cl: Client, remaining: set<int>, released: map<int, Connection>, out: seq<Tagged>, k: int)
    requires ShutdownProgress(cl, remaining, released, out) && k in remaining
    ensures ShutdownProgress(cl, remaining - {k}, released[k := Shutdown(cl.connections[k]).conn],
                             out + [Tagged(k, ReleaseResources)])
  {
    assert k !in released;
  }

  /** Shuts every registered connection down and empties the registry.
      Shutdown releases the scheduler and the dedicated client only: the
      sockets are not closed and no state changes. `released` holds the
      connections as they were left. */
  method CloseAllConnections(cl: Client) returns (r: Client, released: map<int, Connection>, out: seq<Tagged>)
    ensures r == cl.(connections := map[])
    ensures released.Keys == cl.connections.Keys
    ensures forall k :: k in released ==> released[k] == Shutdown(cl.connections[k]).conn
    ensures |out| == |cl.connections|
    ensures forall i :: 0 <= i < |out| ==> out[i].effect == ReleaseResources && out[i].id in cl.connections
    ensures forall k :: k in cl.connections ==> Tagged(k, ReleaseResources) in out
    ensures forall i, j :: 0 <= i < j < |out| ==> out[i].id != out[j].id
  {
    var remaining := cl.connections.Keys;
    released := map[];
    out := [];
    while remaining != {}
      invariant ShutdownProgress(cl, remaining, released, out)
      decreases remaining
    {
      HasMember(remaining);
      var k :| k in remaining;
      ShutdownProgressStep(cl, remaining, released, out, k);
      released := released[k := Shutdown(cl.connections[k]).conn];
      out := out + [Tagged(k, ReleaseResources)];
      remaining := remaining - {k};
    }
    r := cl.(connections := map[]);
  }

  // ---------------------------------------------------------------------
  // Properties

  /** Ids are never reused: each creation hands out a larger id than any
      registered one and than the one before it. */
  lemma CreatedIdsIncrease(cl: Client, l: Option<ListenerRef>, m: Option<ListenerRef>, t: int, u: int)
    requires Valid(cl)
    ensures forall k :: k in cl.connections ==> k < Register(cl, l, t).id
    ensures Register(Register(cl, l, t).client, m, u).id == Register(cl, l, t).id + 1
  {
  }

  lemma RegisterValid(cl: Client, listener: Option<ListenerRef>, now: int)
    requires Valid(cl)
    ensures Valid(Register(cl, listener, now).client)
    ensures Register(cl, listener, now).id !in cl.connections
    ensures |Register(cl, listener, now).client.connections| == |cl.connections| + 1
  {
    var r := Register(cl, listener, now);
    var c := r.client.connections[r.id];
    assert c == Connect(NewConnection(r.id, listener, now)).conn;
    assert c.pending == [] && c.attempts == 0 && !c.released;
    assert r.client.connections.Keys == cl.connections.Keys + {r.id};
  }

  /** A connection created and then closed leaves the registry's map as it
      was; only the counter has moved on. */
  lemma CreateThenCloseRestores(cl: Client, listener: Option<ListenerRef>, now: int)
    requires Valid(cl)
    ensures var created := Register(cl, listener, now);
      && CloseConnection(created.client, created.id).client == cl.(counter := cl.counter + 1)
  {
    var created := Register(cl, listener, now);
    assert created.client.connections - {created.id} == cl.connections;
  }

  lemma CloseConnectionValid(cl: Client, id: int)
    requires Valid(cl)
    ensures Valid(CloseConnection(cl, id).client)
    ensures id in cl.connections ==> |CloseConnection(cl, id).client.connections| == |cl.connections| - 1
  {
  }

  /** The state report follows the registry: one entry per active
      connection, a new connection listed as CONNECTING, a closed one gone,
      and a dispatched signal changing only its own connection's entry. */
  lemma AllConnectionStatesTrack(cl: Client, listener: Option<ListenerRef>, now: int, id: int, signal: Signal)
    requires Valid(cl)
    ensures |AllConnectionStates(cl)| == ActiveConnectionCount(cl)
    ensures var created := Register(cl, listener, now);
      AllConnectionStates(created.client) == AllConnectionStates(cl)[created.id := StateName(Connecting)]
    ensures AllConnectionStates(CloseConnection(cl, id).client) == AllConnectionStates(cl) - {id}
    ensures id in cl.connections ==>
      AllConnectionStates(Dispatch(cl, id, signal).client) ==
        AllConnectionStates(cl)[id := StateName(Handle(cl.connections[id], signal).conn.state)]
  {
    StatesAfterRegister(cl, listener, now);
    StatesAfterClose(cl, id);
    if id in cl.connections {
      StatesAfterDispatch(cl, id, signal);
    }
  }

  lemma StatesAfterRegister(cl: Client, listener: Option<ListenerRef>, now: int)
    ensures var created := Register(cl, listener, now);
      AllConnectionStates(created.client) == AllConnectionStates(cl)[created.id := StateName(Connecting)]
  {
    var created := Register(cl, listener, now);
    var before := AllConnectionStates(cl);
    var after := AllConnectionStates(created.client);
    assert after.Keys == before[created.id := StateName(Connecting)].Keys;
  }

  lemma StatesAfterClose(cl: Client, id: int)
    ensures AllConnectionStates(CloseConnection(cl, id).client) == AllConnectionStates(cl) - {id}
  {
  }

  lemma StatesAfterDispatch(cl: Client, id: int, signal: Signal)
    requires id in cl.connections
    ensures AllConnectionStates(Dispatch(cl, id, signal).client) ==
      AllConnectionStates(cl)[id := StateName(Handle(cl.connections[id], signal).conn.state)]
  {
    var after := AllConnectionStates(Dispatch(cl, id, signal).client);
    var expected := AllConnectionStates(cl)[id := StateName(Handle(cl.connections[id], signal).conn.state)];
    assert after.Keys == expected.Keys;
  }

  /** On a valid registry the caught-exception branch never runs: the
      reconnect succeeds exactly when the id is registered, and queues the
      first retry timer with the initial delay. */
  lemma TriggerReconnectValid(cl: Client, id: int)
    requires Valid(cl)
    ensures TriggerReconnect(cl, id).ok <==> id in cl.connections
    ensures Valid(TriggerReconnect(cl, id).client)
    ensures id in cl.connections ==>
      TriggerReconnect(cl, id).client.connections[id].pending ==
        cl.connections[id].pending + [RetryTask(1, InitialReconnectDelay)]
  {
    if id in cl.connections {
      var c := cl.connections[id];
      LifecycleProperties.ApplySound(c, ReconnectCall);
    }
  }

  lemma DispatchValid(cl: Client, id: int, signal: Signal)
    requires Valid(cl)
    ensures Valid(Dispatch(cl, id, signal).client)
  {
    if id in cl.connections {
      LifecycleProperties.HandleSound(cl.connections[id], signal);
    }
  }

  /** With auto-reconnect turned on with a custom listener, turned off and
      turned on again, new connections still get the custom listener. */
  lemma CustomListenerSticks(cl: Client, custom: Option<ListenerRef>, now: int)
    ensures var again := EnableAutoReconnect(DisableAutoReconnect(EnableAutoReconnectWith(cl, custom)));
      CreateConnection(again, now).client.connections[CreateConnection(again, now).id].listener == custom
  {
  }

  /** With auto-reconnect off, a stream connection has no listener, so
      nothing it does reaches a listener. */
  lemma PlainConnectionSilent(cl: Client, now: int, inputs: seq<Input>)
    requires !cl.autoReconnect
    ensures var r := CreateConnection(cl, now);
      LifecycleProperties.Silent(Run(r.client.connections[r.id], inputs).out)
  {
    var r := CreateConnection(cl, now);
    LifecycleProperties.RunSound(r.client.connections[r.id], inputs);
  }
}
