# Reconnecting WebSocket connections: a Dafny model

This project models three parts of the futures connector's stream client:

- the lifecycle of one reconnecting WebSocket connection (`WebSocketConnection`);
- the client-side registry that owns the connections (`WebsocketClientImpl`);
- the vocabulary of the rich lifecycle listener (`EnhancedWebSocketListener`).

Properties of the model are proved in Dafny.

A connection is an immutable record. It holds:

- its state;
- the reconnect-attempt counter;
- whether a socket is held;
- the time of the last message;
- which listener it has, if any;
- whether its scheduler and dedicated client have been released;
- the queue of one-shot retry timers, each with its attempt number and delay.

There is one pure step function per thing that can happen to a connection:

- `connect`, `close(isReconnect)`, `shutdown` and `reconnect`;
- `onOpen`, `onClosing`, `onMessage` and `onFailure`;
- one run of the heartbeat check;
- the firing of a retry timer.

Each step returns the new record and the effects it had, in order:

- calls into the listener, made only when one is present;
- calls into the four simple callbacks;
- opening and closing of the socket;
- release of the scheduler and the client.

The registry is a `map<int, Connection>` with the auto-reconnect switch and its listener. Its operations return the new registry together with the effects, each tagged with its connection id.

Modules:

| file | module | contents |
|---|---|---|
| `wrappers.dfy` | `Wrappers` | `Option` |
| `listener.dfy` | `Listener` | states, state names, transport errors, listener events |
| `reconnect_policy.dfy` | `ReconnectPolicy` | constants, the backoff delay, substring search, the retryable-error classifier |
| `lifecycle.dfy` | `Lifecycle` | the connection record and its step functions, `Apply` and `Run` |
| `lifecycle_properties.dfy` | `LifecycleProperties` | invariants of every step and every run, and independence from the listener |
| `scenarios.dfy` | `LifecycleScenarios` | whole runs: backoff, exhaustion, timers after close, recovery, the server-down run |
| `registry.dfy` | `Registry` | the registry and its operations |

Two facts about the Java executor shape the model:

- `scheduler.shutdown()` cancels the periodic heartbeat task. Retry timers already queued still fire, and a later `schedule` call is rejected. So after a shutdown a retry step still counts the attempt and still reports `onReconnecting`, but it queues nothing.
- A retry timer is never cancelled. When it fires, it acts only if the connection is still RECONNECTING.

Three behaviours of the code that are easy to get wrong:

- `closeAllConnections` calls `shutdown()` on each connection, not the terminal `close()`. No state changes and no socket is closed.
- A closing frame with code 1000 leaves the state as it was.
- With at most ten attempts, give-up happens on the eleventh scheduled attempt.

Code 1000 is the "normal closure" code of section 7.4.1 of RFC 6455.

## Model

| member | source | states |
|---|---|---|
| Listener.ExactlyFiveStates | src/main/java/com/binance/connector/futures/client/utils/EnhancedWebSocketListener.java:61-67 | There are exactly five connection states, every state is among them, and no two share a name. |
| Listener.StateNameInjective | src/main/java/com/binance/connector/futures/client/utils/EnhancedWebSocketListener.java:61-67 | The name reported for a state identifies that state. |
| ReconnectPolicy.ReconnectDelay | src/main/java/com/binance/connector/futures/client/utils/WebSocketConnection.java:300-308 | Every backoff delay lies between the initial 1000 ms and the 300000 ms ceiling. |
| ReconnectPolicy.ReconnectDelayClosedForm | src/main/java/com/binance/connector/futures/client/utils/WebSocketConnection.java:300-308 | The delay is 1000 for attempts up to 1. For attempts 2 to 9 it is 1000·2^(n-1). From attempt 9 on it is 256000. |
| ReconnectPolicy.ReconnectDelayDoubles | src/main/java/com/binance/connector/futures/client/utils/WebSocketConnection.java:305-306 | Up to the shift cap, each attempt waits exactly twice as long as the one before. |
| ReconnectPolicy.ReconnectDelayMonotone | src/main/java/com/binance/connector/futures/client/utils/WebSocketConnection.java:300-308 | The backoff never shrinks as the attempt number grows. |
| ReconnectPolicy.ReconnectDelayBelowCeiling | src/main/java/com/binance/connector/futures/client/utils/WebSocketConnection.java:306-307 | No delay exceeds 256000 ms, so the 300000 ms ceiling never binds. |
| ReconnectPolicy.ReconnectDelaySchedule | src/main/java/com/binance/connector/futures/client/utils/WebSocketConnection.java:300-308 | The ten permitted attempts wait 1, 2, 4, 8, 16, 32, 64, 128, 256 and 256 seconds. |
| ReconnectPolicy.ContainsIffOccurs | src/main/java/com/binance/connector/futures/client/utils/WebSocketConnection.java:234-244 | The scanning `contains` is true exactly when the substring occurs at some index. |
| ReconnectPolicy.ContainsAnyIffMentions | src/main/java/com/binance/connector/futures/client/utils/WebSocketConnection.java:234-245 | The chain of `contains` tests joined by `\|\|` is true exactly when some marker occurs in the string. |
| ReconnectPolicy.RetryableErrorMeaning | src/main/java/com/binance/connector/futures/client/utils/WebSocketConnection.java:231-245 | An error is retryable exactly when its class name mentions one of the five exception names, or its non-null message mentions one of the five phrases. |
| ReconnectPolicy.ShouldReconnect | src/main/java/com/binance/connector/futures/client/utils/WebSocketConnection.java:225-246 | A retry is allowed exactly when fewer than 10 attempts were counted and the error is retryable. At 10 or more it is never allowed. |
| ReconnectPolicy.RetryableExamples | src/main/java/com/binance/connector/futures/client/utils/WebSocketConnection.java:225-246 | A ConnectException is retried at counter 0 but not at 10. An IOException whose message says "Connection reset by peer" is retried at counter 9. |
| Lifecycle.NewConnection | src/main/java/com/binance/connector/futures/client/utils/WebSocketConnection.java:69-91 | A new connection is DISCONNECTED, with counter 0, no socket, no queued retry and nothing released. |
| Lifecycle.ChangeState | src/main/java/com/binance/connector/futures/client/utils/WebSocketConnection.java:215-220 | The state always becomes the new one. `onConnectionStateChanged(new)` is sent exactly when the state really changes and a listener is present, and nothing else is sent. |
| Lifecycle.ScheduleReconnect | src/main/java/com/binance/connector/futures/client/utils/WebSocketConnection.java:251-295 | The counter goes up by exactly one. Past 10: FAILED, `onReconnectFailed(10)` if a listener is present, and no timer. Otherwise: state kept, `onReconnecting(n)` if a listener is present, and one timer for attempt n with delay(n), unless the scheduler was released. |
| Lifecycle.EnterReconnecting | src/main/java/com/binance/connector/futures/client/utils/WebSocketConnection.java:174-178 | The shared retry path counts one attempt. Within the maximum it ends RECONNECTING, queues one timer unless the scheduler was released, and reports the attempt to a listener if there is one. Past the maximum it ends FAILED, queues nothing, and reports the give-up to a listener if there is one. It emits only listener calls. |
| Lifecycle.Connect | src/main/java/com/binance/connector/futures/client/utils/WebSocketConnection.java:93-103 | With a socket held nothing happens. Otherwise the state becomes CONNECTING and exactly one socket is opened, as the last effect. |
| Lifecycle.Shutdown | src/main/java/com/binance/connector/futures/client/utils/WebSocketConnection.java:137-141 | Only the release flag changes, and the only effect is the release. |
| Lifecycle.Close | src/main/java/com/binance/connector/futures/client/utils/WebSocketConnection.java:118-132 | The socket is closed with code 1000 exactly when one is held. `close(true)` changes nothing else. `close(false)` leaves the connection DISCONNECTED and released, with the release as the last effect. |
| Lifecycle.HandleOpen | src/main/java/com/binance/connector/futures/client/utils/WebSocketConnection.java:144-161 | The open makes the connection CONNECTED, resets the counter to 0 and refreshes the clock. It reports `onReconnected(previous)` exactly when the previous count was positive, and `onConnected` otherwise, both only with a listener. It ends with exactly one open callback. |
| Lifecycle.HandleClosing | src/main/java/com/binance/connector/futures/client/utils/WebSocketConnection.java:164-179 | The closing callback always runs and `onDisconnected` is sent with a listener. Code 1000 changes nothing else. Any other code takes the shared retry path. |
| Lifecycle.HandleMessage | src/main/java/com/binance/connector/futures/client/utils/WebSocketConnection.java:182-191 | A message refreshes the liveness clock only. It reaches the message callback and, if there is a listener, `onMessage`. |
| Lifecycle.HandleFailureAsWritten | src/main/java/com/binance/connector/futures/client/utils/WebSocketConnection.java:194-210 | onFailure as written: it ends RECONNECTING, as the retry path leaves a FAILED connection, exactly when the classifier allows a retry. Otherwise it ends FAILED and is otherwise unchanged. The failure callback always runs, and `onError` reaches a listener. |
| Lifecycle.HandleFailure | src/main/java/com/binance/connector/futures/client/utils/WebSocketConnection.java:194-210 | The corrected onFailure announces FAILED first. When a retry is allowed it ends as the retry path leaves a FAILED connection; otherwise the connection is FAILED and otherwise unchanged. `onReconnectFailed(10)` is reported exactly when a listener sees a retryable failure with the counter at 10, the one case where giving up would otherwise go unreported. |
| Lifecycle.HeartbeatCheck | src/main/java/com/binance/connector/futures/client/utils/WebSocketConnection.java:313-327 | A check does nothing unless the connection is CONNECTED, not released, and silent for strictly more than 600000 ms. A stale connection counts an attempt and leaves CONNECTED. |
| Lifecycle.FireRetry | src/main/java/com/binance/connector/futures/client/utils/WebSocketConnection.java:270-294 | A fired timer leaves the queue. It does anything else only if the state is still RECONNECTING. Then it closes the old socket with "Reconnecting" exactly when one is held, moves to CONNECTING and opens exactly one new socket, as the last effect. |
| Lifecycle.Reconnect | src/main/java/com/binance/connector/futures/client/utils/WebSocketConnection.java:346-351 | A manual reconnect always starts again from attempt 1. It ends RECONNECTING, queues one timer with the initial delay unless released, and reports `onReconnecting(1)` with a listener. |
| Lifecycle.Handle | src/main/java/com/binance/connector/futures/client/utils/WebSocketConnection.java:143-210 | No transport or timer signal changes a connection's id or listener, or releases it. |
| Lifecycle.Run | src/main/java/com/binance/connector/futures/client/utils/WebSocketConnection.java:36-41 | No run of inputs changes the final id and listener, and a released connection stays released. |
| LifecycleProperties.ChangeStateReports | src/main/java/com/binance/connector/futures/client/utils/WebSocketConnection.java:215-220 | The listener's view of a state change is faithful: it sees no self-transition and ends at the current state. |
| LifecycleProperties.ReportsCompose | src/main/java/com/binance/connector/futures/client/utils/WebSocketConnection.java:215-220 | Two faithful stretches of state announcements that meet at a shared state join into one faithful stretch. |
| LifecycleProperties.ScheduleReconnectSound | src/main/java/com/binance/connector/futures/client/utils/WebSocketConnection.java:251-295 | Scheduling keeps the counter non-negative and every queued timer at attempt 1..10 with its backoff delay. It reports attempts 1..10 and gives up with 10. |
| LifecycleProperties.EnterReconnectingSound | src/main/java/com/binance/connector/futures/client/utils/WebSocketConnection.java:174-178 | The shared retry path is sound: well-formedness, faithful state reports, session discipline, and silence without a listener. |
| LifecycleProperties.ConnectSound | src/main/java/com/binance/connector/futures/client/utils/WebSocketConnection.java:93-103 | `connect` opens a socket only when none is held. |
| LifecycleProperties.ShutdownSound | src/main/java/com/binance/connector/futures/client/utils/WebSocketConnection.java:137-141 | `shutdown` is a sound step. |
| LifecycleProperties.CloseSound | src/main/java/com/binance/connector/futures/client/utils/WebSocketConnection.java:118-132 | `close` closes only a held socket and reports the move to DISCONNECTED faithfully. |
| LifecycleProperties.ReconnectSound | src/main/java/com/binance/connector/futures/client/utils/WebSocketConnection.java:346-351 | A manual reconnect is a sound step. |
| LifecycleProperties.HandleOpenSound | src/main/java/com/binance/connector/futures/client/utils/WebSocketConnection.java:144-161 | onOpen is a sound step. A reported reconnection carries a positive count. |
| LifecycleProperties.HandleClosingSound | src/main/java/com/binance/connector/futures/client/utils/WebSocketConnection.java:164-179 | onClosing is a sound step. |
| LifecycleProperties.HandleMessageSound | src/main/java/com/binance/connector/futures/client/utils/WebSocketConnection.java:182-191 | onMessage is a sound step. |
| LifecycleProperties.HandleFailureSound | src/main/java/com/binance/connector/futures/client/utils/WebSocketConnection.java:194-210 | onFailure is a sound step. A listener on a connection not already FAILED hears FAILED as the first state change, so a retried failure passes through FAILED before RECONNECTING. |
| LifecycleProperties.HandleFailureAnnouncesFailedFirst | src/main/java/com/binance/connector/futures/client/utils/WebSocketConnection.java:194-196 | On a connection not already FAILED, the first state change a listener hears from onFailure is FAILED. |
| LifecycleProperties.HandleFailureAsWrittenSound | src/main/java/com/binance/connector/futures/client/utils/WebSocketConnection.java:194-210 | onFailure as written is a sound step too: its fault is a missing report, not an inconsistent history. |
| LifecycleProperties.HeartbeatCheckSound | src/main/java/com/binance/connector/futures/client/utils/WebSocketConnection.java:313-327 | The heartbeat check is a sound step. |
| LifecycleProperties.FireRetrySound | src/main/java/com/binance/connector/futures/client/utils/WebSocketConnection.java:270-294 | A firing timer closes the stale socket before it opens the new one, so at most one socket is held. |
| LifecycleProperties.HandleSound | src/main/java/com/binance/connector/futures/client/utils/WebSocketConnection.java:143-210 | Every transport or timer signal is a sound step. |
| LifecycleProperties.ApplySound | src/main/java/com/binance/connector/futures/client/utils/WebSocketConnection.java:93-141 | Every input is a sound step. |
| LifecycleProperties.RunSound | src/main/java/com/binance/connector/futures/client/utils/WebSocketConnection.java:93-351 | Over any run: the counter stays non-negative and every queued timer has attempt 1..10 with its backoff delay; listener attempt numbers start at 1, and a give-up carries 10; the listener sees every state change once, never a self-transition, and ends at the current state; sockets alternate between opened and closed, so at most one is held; without a listener no listener call is made. |
| LifecycleProperties.ChangeStateSameBut | src/main/java/com/binance/connector/futures/client/utils/WebSocketConnection.java:215-220 | With another listener or none, a state change differs only in listener calls. |
| LifecycleProperties.EnterReconnectingSameBut | src/main/java/com/binance/connector/futures/client/utils/WebSocketConnection.java:257-268 | The retry path counts, queues and gives up alike with any listener or none. |
| LifecycleProperties.ConnectSameBut | src/main/java/com/binance/connector/futures/client/utils/WebSocketConnection.java:93-103 | `connect` does the same with any listener or none, apart from listener calls. |
| LifecycleProperties.CloseSameBut | src/main/java/com/binance/connector/futures/client/utils/WebSocketConnection.java:118-132 | `close` does the same with any listener or none, apart from listener calls. |
| LifecycleProperties.HandleOpenSameBut | src/main/java/com/binance/connector/futures/client/utils/WebSocketConnection.java:150-154 | onOpen resets and calls back alike with any listener or none. |
| LifecycleProperties.HandleClosingSameBut | src/main/java/com/binance/connector/futures/client/utils/WebSocketConnection.java:168-178 | onClosing retries alike with any listener or none. |
| LifecycleProperties.HandleMessageSameBut | src/main/java/com/binance/connector/futures/client/utils/WebSocketConnection.java:187-190 | onMessage refreshes and calls back alike with any listener or none. |
| LifecycleProperties.HandleFailureSameBut | src/main/java/com/binance/connector/futures/client/utils/WebSocketConnection.java:199-209 | onFailure retries or stops alike with any listener or none. |
| LifecycleProperties.HeartbeatCheckSameBut | src/main/java/com/binance/connector/futures/client/utils/WebSocketConnection.java:313-327 | The heartbeat check acts alike with any listener or none. |
| LifecycleProperties.FireRetrySameBut | src/main/java/com/binance/connector/futures/client/utils/WebSocketConnection.java:270-294 | A firing timer reopens alike with any listener or none. |
| LifecycleProperties.HandleSameBut | src/main/java/com/binance/connector/futures/client/utils/WebSocketConnection.java:143-210 | Every signal acts alike with any listener or none. |
| LifecycleProperties.ApplySameBut | src/main/java/com/binance/connector/futures/client/utils/WebSocketConnection.java:93-141 | Every input acts alike with any listener or none. |
| LifecycleProperties.RunListenerIndependent | src/main/java/com/binance/connector/futures/client/impl/WebsocketClientImpl.java:903-913 | Reconnection runs the same with or without a listener. Over any run, the records differ only in the listener, and the effects differ only in listener calls. |
| LifecycleScenarios.AbnormalCloseStep | src/main/java/com/binance/connector/futures/client/utils/WebSocketConnection.java:174-178 | An abnormal close on a live connection below the maximum counts one attempt, goes RECONNECTING and queues the timer for that attempt with its delay. |
| LifecycleScenarios.RetryStep | src/main/java/com/binance/connector/futures/client/utils/WebSocketConnection.java:270-294 | When the newest timer fires on a RECONNECTING connection, it leaves the queue and the connection is CONNECTING with a socket. |
| LifecycleScenarios.BackoffEntries | src/main/java/com/binance/connector/futures/client/utils/WebSocketConnection.java:263-270 | The k-th timer queued by consecutive attempts is attempt from+k+1 with its backoff delay. |
| LifecycleScenarios.FirstTenDelays | src/main/java/com/binance/connector/futures/client/utils/WebSocketConnection.java:300-308 | From counter 0, the ten queued timers wait 1, 2, 4, 8, 16, 32, 64, 128, 256 and 256 seconds. |
| LifecycleScenarios.AbnormalClosesBackOff | src/main/java/com/binance/connector/futures/client/utils/WebSocketConnection.java:164-179 | n abnormal closes in a row, within the maximum: the counter goes up by n, the next n backoff timers are queued, the connection ends RECONNECTING, and nothing else changes. |
| LifecycleScenarios.AbnormalClosesUntilExhausted | src/main/java/com/binance/connector/futures/client/utils/WebSocketConnection.java:254-260 | The close that takes the counter past 10 leaves the connection FAILED at 11 with no new timer. It reports the give-up when there is a listener. |
| LifecycleScenarios.ExhaustingClose | src/main/java/com/binance/connector/futures/client/utils/WebSocketConnection.java:254-260 | One abnormal close at counter 10 gives up. |
| LifecycleScenarios.AbnormalClosesExhaust | src/main/java/com/binance/connector/futures/client/utils/WebSocketConnection.java:251-295 | From counter 0, eleven abnormal closes give FAILED with exactly the ten backoff timers queued. `onReconnectFailed(10)` is reported exactly when there is a listener. |
| LifecycleScenarios.TimersInert | src/main/java/com/binance/connector/futures/client/utils/WebSocketConnection.java:270-294 | Timer signals never revive a connection that is neither CONNECTED nor RECONNECTING: there are no effects and only the timer queue shrinks. |
| LifecycleScenarios.CloseDisarmsPendingRetries | src/main/java/com/binance/connector/futures/client/utils/WebSocketConnection.java:118-132 | After `close()`, timers still fire but the connection stays DISCONNECTED, released and without a socket, and nothing is emitted. |
| LifecycleScenarios.HeartbeatTimeoutTakesAbnormalClosePath | src/main/java/com/binance/connector/futures/client/utils/WebSocketConnection.java:313-327 | A heartbeat timeout leads to the same record as an abnormal close, with the same effects apart from the disconnect report and the closing callback. |
| LifecycleScenarios.AbnormalCloseRecovers | src/main/java/com/binance/connector/futures/client/utils/WebSocketConnection.java:144-179 | An abnormal close, its timer and the new open bring a connection back to CONNECTED with counter 0. `onReconnecting(1)` and `onReconnected(1)` are reported exactly when there is a listener. |
| LifecycleScenarios.ClosingReportsAttempt | src/main/java/com/binance/connector/futures/client/utils/WebSocketConnection.java:164-179 | The first abnormal close announces attempt 1 and no reconnection. |
| LifecycleScenarios.RetryReportsNoAttempt | src/main/java/com/binance/connector/futures/client/utils/WebSocketConnection.java:270-294 | A firing timer tells the listener nothing but the move to CONNECTING. |
| LifecycleScenarios.ServerDownIsRetryable | src/main/java/com/binance/connector/futures/client/utils/WebSocketConnection.java:225-246 | A ConnectException is retryable, and is retried exactly while the counter is below 10. |
| LifecycleScenarios.FailureStep | src/main/java/com/binance/connector/futures/client/utils/WebSocketConnection.java:194-210 | A retryable failure while CONNECTING below the maximum counts one attempt, goes RECONNECTING and queues its timer. |
| LifecycleScenarios.FailedRetryCycle | src/main/java/com/binance/connector/futures/client/utils/WebSocketConnection.java:194-210 | A failed connect followed by its timer counts exactly one attempt and leaves the connection CONNECTING again, with no timer left. |
| LifecycleScenarios.ServerDownCounts | src/main/java/com/binance/connector/futures/client/utils/WebSocketConnection.java:194-210 | n failed cycles count exactly n attempts, while within the maximum. |
| LifecycleScenarios.AfterTenFailedRetriesState | src/main/java/com/binance/connector/futures/client/utils/WebSocketConnection.java:93-103 | After `connect` and ten failed cycles, a new connection is CONNECTING with a socket and counter 10. |
| LifecycleScenarios.SilentGiveUpAsWritten | src/main/java/com/binance/connector/futures/client/utils/WebSocketConnection.java:206-209 | As written, the next ConnectException leaves the connection FAILED, and the listener never hears `onReconnectFailed`. |
| LifecycleScenarios.GiveUpReported | src/main/java/com/binance/connector/futures/client/utils/WebSocketConnection.java:254-259 | Corrected, the same run ends FAILED with `onReconnectFailed(10)` reported. |
| Registry.NewClient | src/main/java/com/binance/connector/futures/client/impl/WebsocketClientImpl.java:36-85 | A new registry is valid and empty, with auto-reconnect off and the built-in listener in place. |
| Registry.EnableAutoReconnect | src/main/java/com/binance/connector/futures/client/impl/WebsocketClientImpl.java:93-97 | Turns the switch on and keeps the current listener and the connections. |
| Registry.EnableAutoReconnectWith | src/main/java/com/binance/connector/futures/client/impl/WebsocketClientImpl.java:105-110 | Turns the switch on and replaces the listener. |
| Registry.DisableAutoReconnect | src/main/java/com/binance/connector/futures/client/impl/WebsocketClientImpl.java:118-122 | Turns the switch off and keeps the listener for later. |
| Registry.ActiveConnectionCount | src/main/java/com/binance/connector/futures/client/impl/WebsocketClientImpl.java:138-140 | The count is the number of registered ids. It is 0 exactly when none is registered. |
| Registry.AllConnectionStates | src/main/java/com/binance/connector/futures/client/impl/WebsocketClientImpl.java:147-154 | The state map has exactly the registry's ids, each with its connection's state name. |
| Registry.AllConnectionStatesTrack | src/main/java/com/binance/connector/futures/client/impl/WebsocketClientImpl.java:138-154 | The state map has one entry per active connection. Registering adds the new id as CONNECTING, closing removes the id, and a dispatched signal changes only that id's entry, to its connection's new state. |
| Registry.Register | src/main/java/com/binance/connector/futures/client/impl/WebsocketClientImpl.java:915-918 | A new connection gets the next id, is connected (CONNECTING with a socket) and is inserted. No other entry changes. |
| Registry.CreateConnection | src/main/java/com/binance/connector/futures/client/impl/WebsocketClientImpl.java:894-919 | With auto-reconnect on, the new connection gets the registry's listener. With it off, it gets none. |
| Registry.CreateEnhancedConnection | src/main/java/com/binance/connector/futures/client/impl/WebsocketClientImpl.java:924-938 | The new connection gets the caller's listener, whatever the switch says. |
| Registry.CloseConnection | src/main/java/com/binance/connector/futures/client/impl/WebsocketClientImpl.java:862-870 | An unknown id changes nothing. A known id is closed for good (DISCONNECTED, released, no socket) and only that key is removed. All effects are that connection's and end with its release. |
| Registry.TriggerReconnect | src/main/java/com/binance/connector/futures/client/impl/WebsocketClientImpl.java:162-177 | An unknown id gives false and changes nothing. A known id restarts only that connection at attempt 1, RECONNECTING, and answers whether it was not released. |
| Registry.Dispatch | src/main/java/com/binance/connector/futures/client/impl/WebsocketClientImpl.java:32-32 | A transport or timer signal for an id changes only that connection, as the connection's own handler does. An unknown id changes nothing. |
| Registry.CloseAllConnections | src/main/java/com/binance/connector/futures/client/impl/WebsocketClientImpl.java:876-892 | Every registered connection is shut down exactly once, with one release each and distinct ids. The map ends empty. On an empty registry nothing happens. |
| Registry.CreatedIdsIncrease | src/main/java/com/binance/connector/futures/client/utils/WebSocketConnection.java:82-82 | A new id is larger than every registered id, and the next creation gets exactly the next id. |
| Registry.RegisterValid | src/main/java/com/binance/connector/futures/client/impl/WebsocketClientImpl.java:915-918 | Creation keeps the registry valid, uses an id that was not registered, and grows the map by exactly one. |
| Registry.CreateThenCloseRestores | src/main/java/com/binance/connector/futures/client/impl/WebsocketClientImpl.java:862-870 | Creating a connection and then closing it restores the map. Only the counter has moved. |
| Registry.CloseConnectionValid | src/main/java/com/binance/connector/futures/client/impl/WebsocketClientImpl.java:862-870 | Closing keeps the registry valid and shrinks a map holding the id by exactly one. |
| Registry.TriggerReconnectValid | src/main/java/com/binance/connector/futures/client/impl/WebsocketClientImpl.java:162-177 | On a valid registry the caught-exception branch never runs: the reconnect succeeds exactly when the id is registered, and queues the 1000 ms timer for attempt 1. |
| Registry.DispatchValid | src/main/java/com/binance/connector/futures/client/impl/WebsocketClientImpl.java:32-32 | Delivering any signal keeps the registry valid. |
| Registry.CustomListenerSticks | src/main/java/com/binance/connector/futures/client/impl/WebsocketClientImpl.java:105-122 | After a custom listener is set, turning auto-reconnect off and on again still gives new connections the custom listener. |
| Registry.PlainConnectionSilent | src/main/java/com/binance/connector/futures/client/impl/WebsocketClientImpl.java:903-913 | With auto-reconnect off, a new stream connection makes no listener call over any run. |

## Left out

- The per-stream subscribe methods (`WebsocketClientImpl.java` lines 202-854) are left out. They only build a URL; the request is opaque here, and the URL builders are not part of this model.
- `HttpClientSingleton` is not part of this model. The dedicated client is reduced to the `released` flag.
- `ReliableForceOrderClient` is not part of this model. It is a thin adapter.
- The mutex, the atomics and the executor threads are left out. Events are modelled as sequential inputs. A retry timer's firing is the input `RetryDue(index)`: the caller picks which queued timer fires, and its delay is recorded, not waited for.
- The 500 ms pause in the retry timer and its interrupt branch are left out. `shutdown()` uses `shutdown`, not `shutdownNow`, so the interrupt branch cannot run.
- Clocks are parameters: `now` for opens, messages and heartbeat checks, and for the construction time. The heartbeat period (30000 ms) only limits how often checks run; any check time may be supplied.
- Logging is left out, and so are the payloads of the callbacks. The open and failure callbacks receive `null`, and the HTTP response is reduced to an optional string.
- Java `int` overflow of the id counter and the attempt counter is not modelled: integers are unbounded. Overflow would need 2^31 connections or attempts.
- The id counter is process-wide in the Java code. Here it is a field of the registry, and `NewClient` takes its starting value.
- After shutdown, the `RejectedExecutionException` from `scheduler.schedule` is modelled as "nothing queued". The exception itself is not modelled. `schedule` is the last statement of every handler that calls it, so no other effect is lost. `triggerReconnect` turns it into `false`.
- Exceptions thrown by listeners or callbacks are not modelled.
- Trivial field reads are not modelled: `isAutoReconnectEnabled`, `getConnectionState`, `getReconnectAttempts`, `getConnectionId`, `getNoopCallback` and `getBaseUrl`. `close()` is `close(false)`.
- Lifecycle.HeartbeatCheck: its own contract says only that a stale connection counts an attempt and leaves CONNECTED. The full effect is stated by `LifecycleScenarios.HeartbeatTimeoutTakesAbnormalClosePath` and `LifecycleProperties.HeartbeatCheckSound`.
- Lifecycle.HandleFailureAsWritten: its contract does not describe the effects beyond the callback, `onError` and the resulting connection. Its soundness is stated by `LifecycleProperties.HandleFailureAsWrittenSound`; it is kept to exhibit the finding below.
- Lifecycle.Handle: its contract states only what no signal changes. Each signal's behaviour is stated by its own step function and by `LifecycleProperties.HandleSound`.
- Lifecycle.Run: its contract states only what no run changes. What every run keeps is stated by `LifecycleProperties.RunSound` and `LifecycleProperties.RunListenerIndependent`.

## Findings

| source | as written | input that shows it | evidently intended | confidence | as-written member | corrected member |
|---|---|---|---|---|---|---|
| src/main/java/com/binance/connector/futures/client/utils/WebSocketConnection.java:206-209 | `onFailure` retries only through `shouldReconnect`, which refuses once the counter is 10. A retryable failure at counter 10 therefore ends in FAILED without `onReconnectFailed`. | The server is down. After `connect`, ten failures with `ConnectException` are each followed by their retry timer, which leaves the counter at 10. The eleventh `ConnectException` arrives. | Giving up is reported with `onReconnectFailed(10)`, as `scheduleReconnect` does (lines 254-259) and as the listener contract promises for exhausted attempts. It is not added past 10, where `scheduleReconnect` has already reported the give-up. | medium; not executed | LifecycleScenarios.SilentGiveUpAsWritten | LifecycleScenarios.GiveUpReported |

`Lifecycle.HandleFailureAsWritten` models the code as written. `Lifecycle.HandleFailure` is the corrected step that `Lifecycle.Handle` uses. Its contract proves that the give-up is reported exactly when a listener sees a retryable failure with the counter at 10.
