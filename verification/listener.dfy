/**
 The vocabulary of the rich lifecycle listener: the five connection states,
 the errors a transport reports, and the events a listener can observe.
 Only message receipt is mandatory for a listener; every other event has a
 no-op default, so an absent listener is modelled as one that observes nothing.
 */
module Listener {
  import opened Wrappers

  datatype ConnectionState = Disconnected | Connecting | Connected | Reconnecting | Failed

  /** Every state, in declaration order. */
  const AllStates: seq<ConnectionState> := [Disconnected, Connecting, Connected, Reconnecting, Failed]

  /** The name `toString()` gives an enum constant. */
  function StateName(s: ConnectionState): string
  {
    match s
    case Disconnected => "DISCONNECTED"
    case Connecting => "CONNECTING"
    case Connected => "CONNECTED"
    case Reconnecting => "RECONNECTING"
    case Failed => "FAILED"
  }

  /** The enumeration has exactly five distinct values, each with its own name. */
  lemma ExactlyFiveStates()
    ensures |AllStates| == 5
    ensures forall s: ConnectionState :: s in AllStates
    ensures forall i, j :: 0 <= i < j < |AllStates| ==> StateName(AllStates[i]) != StateName(AllStates[j])
  {
    forall s: ConnectionState ensures s in AllStates {
      match s
      case Disconnected => assert AllStates[0] == s;
      case Connecting => assert AllStates[1] == s;
      case Connected => assert AllStates[2] == s;
      case Reconnecting => assert AllStates[3] == s;
      case Failed => assert AllStates[4] == s;
    }
  }

  /** A state name identifies the state. */
  lemma StateNameInjective(s: ConnectionState, t: ConnectionState)
    ensures StateName(s) == StateName(t) ==> s == t
  {
  }

  /** A transport error as seen by the classifier: the simple name of the
      exception's class and its (nullable) message. */
  datatype TransportError = TransportError(className: string, message: Option<string>)

  /** Which listener object a connection holds: the client's built-in logging
      listener or one the caller supplied. */
  datatype ListenerRef = BuiltIn | Supplied(tag: nat)

  /** One call into the rich listener. */
  datatype Event =
    | OnConnected
    | OnMessage(text: string)
    | OnDisconnected(code: int, reason: string)
    | OnError(error: TransportError, response: Option<string>)
    | OnReconnecting(attempt: int)
    | OnReconnected(attempt: int)
    | OnReconnectFailed(maxAttempts: int)
    | OnConnectionStateChanged(newState: ConnectionState)
}
