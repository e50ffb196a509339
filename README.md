# pyRofex WebSocket client, modelled in Dafny

This project models `WebSocketClient`, the Primary/ROFEX market WebSocket client of pyRofex
(`src/pyRofex/clients/websocket_rfx.py`). It covers:

- the handler registry: market-data, order-report and error handler lists, and the exception handler;
- inbound dispatch (`on_message`): classify a decoded frame and call one category's handlers in
  registration order;
- the subscription ledger (`active_subscriptions`): deduplicated market-data and order-report records,
  and their replay after a reconnection;
- outbound order requests: `cancel_order`, and `send_order` with its optional fragments;
- connection handling: `connect()` with its five-second wait loop, `on_open`, `on_close`, `on_error`,
  `on_exception`, `close_connection` and `is_connected`;
- the reconnection supervisor `_attempt_reconnection`: at most `max_reconnect_attempts` attempts with
  exponential backoff, a token refresh on an attempt after the first when a REST client is associated
  with this socket client and the backoff sleep did not raise, and a report to the exception handler
  when every attempt fails.

The client is the class `WebSocketRfx.WebSocketClient` (`client.dfy`). Its fields are the Python
instance variables. The one addition is `trace`, an append-only list of everything the client does to
the outside world, one `Wire.Event` per action:

- a message written to the socket;
- a handler called with a payload;
- the exception handler called with a fault;
- a backoff sleep, a listener thread started, a token refreshed, or a close requested.

Each method's contract gives its effect on the fields and on `trace`. Where that effect is a plain field
update, the contract states the new fields directly. Where it is more, the method is proved against a
specification function. The listed properties of the client are then proved as lemmas about those
functions.

Threads, sockets, the clock and the REST client are not executed. What they decide is a parameter (an
oracle):

- `Connect` takes `listenerRunning`: whether the old listener thread is alive.
- `Connect` also takes `probe(t)`: whether the listener is alive and the socket is open at poll second `t`.
- `OnMessage` takes the decoded frame (or `Undecodable`) and the set of handlers that raise on it.
- `AttemptReconnection` takes `env(k)` for attempt `k`. It says whether `update_token()` ran, did
  nothing or raised, whether `connect()` raised, and how the new socket behaved.

Modules:

| file | module | contents |
|---|---|---|
| `wire.dfy` | `Wire` | messages, frames, faults, events, `Notify` (`on_exception`) |
| `ordered_sets.dfy` | `OrderedSets` | lists used as insertion-ordered sets: append-if-absent and `list.remove` |
| `dispatch.dfy` | `Dispatch` | classification and ordered delivery of inbound frames |
| `orders.dfy` | `Orders` | the optional fragments of `send_order` |
| `ledger.dfy` | `Ledger` | subscription request messages and the replay |
| `supervisor.dfy` | `Supervisor` | the `connect()` wait and the reconnection run, as functions of the oracles |
| `client.dfy` | `WebSocketRfx` | the class `WebSocketClient` |

## Model

| member | source | states |
|---|---|---|
| WebSocketRfx.WebSocketClient.constructor | src/pyRofex/clients/websocket_rfx.py:31-64 | starts with empty handler lists and ledgers, no exception handler, disconnected, auto-reconnect on with 3 attempts and base delay 2 |
| WebSocketRfx.WebSocketClient.AddMarketDataHandler | src/pyRofex/clients/websocket_rfx.py:65-72 | a present handler leaves the list unchanged; an absent one is appended at the end; the list stays duplicate-free and no other field changes |
| WebSocketRfx.WebSocketClient.RemoveMarketDataHandler | src/pyRofex/clients/websocket_rfx.py:74-81 | the handler is gone and every other handler keeps its relative order; removing an absent handler changes nothing |
| WebSocketRfx.WebSocketClient.AddOrderReportHandler | src/pyRofex/clients/websocket_rfx.py:83-90 | same as the market-data list, for order-report handlers |
| WebSocketRfx.WebSocketClient.RemoveOrderReportHandler | src/pyRofex/clients/websocket_rfx.py:92-99 | same as the market-data list, for order-report handlers |
| WebSocketRfx.WebSocketClient.AddErrorHandler | src/pyRofex/clients/websocket_rfx.py:101-108 | same as the market-data list, for error handlers |
| WebSocketRfx.WebSocketClient.RemoveErrorHandler | src/pyRofex/clients/websocket_rfx.py:110-117 | same as the market-data list, for error handlers |
| WebSocketRfx.WebSocketClient.SetExceptionHandler | src/pyRofex/clients/websocket_rfx.py:119-125 | last writer wins; `None` unsets the handler |
| WebSocketRfx.WebSocketClient.Connect | src/pyRofex/clients/websocket_rfx.py:127-161 | the poll loop ends where `WaitSteps` says; the effect on `connected` and on the trace is `ConnectOutcome` |
| WebSocketRfx.WebSocketClient.OnOpen | src/pyRofex/clients/websocket_rfx.py:229-232 | sets `connected` |
| WebSocketRfx.WebSocketClient.OnClose | src/pyRofex/clients/websocket_rfx.py:218-227 | clears `connected`; the supervisor is started exactly when the close code is 1008 |
| WebSocketRfx.WebSocketClient.OnError | src/pyRofex/clients/websocket_rfx.py:200-207 | requests a close, then reports the error to the exception handler if one is set |
| WebSocketRfx.WebSocketClient.OnException | src/pyRofex/clients/websocket_rfx.py:209-216 | the fault reaches the exception handler when one is set and is dropped otherwise |
| WebSocketRfx.WebSocketClient.CloseConnection | src/pyRofex/clients/websocket_rfx.py:234-237 | requests a close of the socket and changes nothing else |
| WebSocketRfx.WebSocketClient.IsConnected | src/pyRofex/clients/websocket_rfx.py:239-245 | reports the `connected` flag |
| WebSocketRfx.WebSocketClient.OnMessage | src/pyRofex/clients/websocket_rfx.py:163-198 | the delivery loop appends exactly `MessageEvents`: the routed handlers in order up to the first that raises, then that fault to the exception handler |
| WebSocketRfx.WebSocketClient.MarketDataSubscription | src/pyRofex/clients/websocket_rfx.py:247-300 | the linear scan finds an equal record exactly when one exists; the record is appended only when new and is held afterwards; the request is sent in both cases; the ledger stays duplicate-free |
| WebSocketRfx.WebSocketClient.OrderReportSubscription | src/pyRofex/clients/websocket_rfx.py:302-333 | same as market data, keyed on (account, snapshot) |
| WebSocketRfx.WebSocketClient.RestoreSubscriptions | src/pyRofex/clients/websocket_rfx.py:502-543 | the two loops send exactly `Replay`: market data in ledger order, then order reports in ledger order; the ledger is not changed |
| WebSocketRfx.WebSocketClient.ClearSubscriptions | src/pyRofex/clients/websocket_rfx.py:545-551 | both ledgers become empty |
| WebSocketRfx.WebSocketClient.GetActiveSubscriptions | src/pyRofex/clients/websocket_rfx.py:553-555 | returns both ledgers as they are and changes nothing |
| WebSocketRfx.WebSocketClient.CancelOrder | src/pyRofex/clients/websocket_rfx.py:335-347 | sends one cancel request with the given id and proprietary |
| WebSocketRfx.WebSocketClient.SendOrder | src/pyRofex/clients/websocket_rfx.py:349-418 | the four guarded appends build exactly `OptionalParams(ticket)`; one request is sent |
| WebSocketRfx.WebSocketClient.SetAutoReconnect | src/pyRofex/clients/websocket_rfx.py:482-495 | stores the flag, the attempt limit and the base delay, which default to on, 3 and 2 |
| WebSocketRfx.WebSocketClient.DisableAutoReconnect | src/pyRofex/clients/websocket_rfx.py:497-500 | clears the auto-reconnect flag and nothing else |
| WebSocketRfx.WebSocketClient.BackoffAndRefresh | src/pyRofex/clients/websocket_rfx.py:435-459 | the sleep, then the token refresh on attempts after the first; its effect is `AttemptPrelude` |
| WebSocketRfx.WebSocketClient.ConnectAndRestore | src/pyRofex/clients/websocket_rfx.py:440-447 | `connect()`, then on success the replay of the ledger |
| WebSocketRfx.WebSocketClient.ReconnectOnce | src/pyRofex/clients/websocket_rfx.py:431-472 | one attempt does exactly what `Attempt` says and is followed by the replay exactly when it reconnects |
| WebSocketRfx.WebSocketClient.RunAttempts | src/pyRofex/clients/websocket_rfx.py:425-480 | the attempt loop with delay doubling ends in the state `RunOnto` gives |
| WebSocketRfx.WebSocketClient.AttemptReconnection | src/pyRofex/clients/websocket_rfx.py:420-480 | nothing happens when auto-reconnect is off; otherwise the trace, `connected` and the result are those of the run `Supervise` defines |
| OrderedSets.AddedKeepsOrderAndDistinct | src/pyRofex/clients/websocket_rfx.py:71-72 | append-if-absent keeps the list duplicate-free, puts a new element last, and adds exactly that element |
| OrderedSets.RemoveAbsentIsNoop | src/pyRofex/clients/websocket_rfx.py:80-81 | the model's `RemoveFirst` of an absent element is the identity, so it agrees with the source, whose `in` guard skips `list.remove` (which would raise) for an absent handler |
| OrderedSets.RemoveFirstOfDistinct | src/pyRofex/clients/websocket_rfx.py:80-81 | on a duplicate-free list, `list.remove` drops exactly that element, keeps the order of the others and shortens the list by one |
| OrderedSets.WithoutAbsent | src/pyRofex/clients/websocket_rfx.py:80-81 | filtering out an absent element leaves the list unchanged |
| Dispatch.TypeTagIgnoresCase | src/pyRofex/clients/websocket_rfx.py:179-186 | the upper-cased type equals "MD" exactly for the spellings MD, Md, mD and md, and "OR" exactly for OR, Or, oR and or |
| Dispatch.RouteOf | src/pyRofex/clients/websocket_rfx.py:173-196 | each route holds exactly when its condition does: ERROR status first, whatever the type; then type MD, OR, another string, or no type; a non-string type raises |
| Dispatch.RunHandlersInOrder | src/pyRofex/clients/websocket_rfx.py:175-195 | the i-th delivery goes to the i-th handler; every handler is called when none raises; a faulting delivery ends at the handler that raised |
| Dispatch.RunHandlersFault | src/pyRofex/clients/websocket_rfx.py:169-198 | the delivery faults exactly when some handler raises, and then at the first one that does |
| Dispatch.OnlyRoutedCategoryReceives | src/pyRofex/clients/websocket_rfx.py:173-196 | only handlers of the routed category are called, with that route's payload; an ERROR frame reaches only error handlers; MD and OR frames reach only their own lists |
| Dispatch.RaisingHandlerEndsDispatch | src/pyRofex/clients/websocket_rfx.py:169-198 | when the k-th handler is the first to raise, exactly handlers 0..k are called, then its exception is reported |
| Dispatch.QuietHandlersAllRun | src/pyRofex/clients/websocket_rfx.py:173-196 | with no raising handler every routed handler is called once, in order, and nothing else happens |
| Orders.OptionalParams | src/pyRofex/clients/websocket_rfx.py:386-401 | each fragment is present exactly when its guard holds; the fragments are in template order; a price with a non-LIMIT order is dropped |
| Orders.SameMembersSameList | src/pyRofex/clients/websocket_rfx.py:386-401 | two fragment lists in template order with the same members are equal |
| Orders.OptionalParamsDetermined | src/pyRofex/clients/websocket_rfx.py:386-401 | the guards and the template order determine the fragment list completely |
| Ledger.SendEachAt | src/pyRofex/clients/websocket_rfx.py:506-535 | one send per record, the i-th for the i-th record |
| Ledger.ReplayOrder | src/pyRofex/clients/websocket_rfx.py:502-536 | the replay has one message per market-data record in ledger order, then one per order-report record in ledger order, and nothing else |
| Ledger.SubscribedRecordIsReplayed | src/pyRofex/clients/websocket_rfx.py:269-281 | any market-data record held by the ledger is resent by every replay of that ledger, at its ledger position; with `MarketDataSubscription` (the record is held afterwards, and the ledger only grows until cleared) every later replay resends it |
| Ledger.SubscribedReportIsReplayed | src/pyRofex/clients/websocket_rfx.py:317-326 | any order-report record held by the ledger is resent by every replay of that ledger, after all market-data records, at its ledger position |
| Supervisor.WaitStepsBounds | src/pyRofex/clients/websocket_rfx.py:152-158 | the wait lasts at most the timeout, waits through every pending second, and stops at the first second that is not pending |
| Supervisor.ConnectReportsIffNotOpen | src/pyRofex/clients/websocket_rfx.py:134-161 | the wait lasts at most five polls; `connect()` reports `ConnectionFailed` to the exception handler, when one is set, exactly when it started a listener and the socket is not open at the end, and reports nothing when none is set; it connects exactly when it was connected or the socket opened |
| Supervisor.AttemptPrelude | src/pyRofex/clients/websocket_rfx.py:435-459 | an attempt raises exactly when the delay is negative or a later attempt's `update_token()` raises; the token is refreshed exactly on later attempts whose delay is not negative, for which a REST client is found and its `update_token()` returns; a sleep comes first |
| Supervisor.RunOntoIsRunFrom | src/pyRofex/clients/websocket_rfx.py:430-480 | the loop's accumulated trace is the prior trace followed by the run's events; the flags agree |
| Supervisor.BackoffIsExponential | src/pyRofex/clients/websocket_rfx.py:474-475 | attempt i (from 0) waits `delay * 2^i` |
| Supervisor.RunNumbering | src/pyRofex/clients/websocket_rfx.py:427-475 | attempts are numbered consecutively from 1, and attempt i (from 0) waits the doubled delay `Backoff(delay, i)` |
| Supervisor.RunRecordsAttempts | src/pyRofex/clients/websocket_rfx.py:431-472 | each recorded attempt is the step for its own number, delay and starting flag |
| Supervisor.RunAttemptCount | src/pyRofex/clients/websocket_rfx.py:430 | no more than `max_reconnect_attempts` attempts; at least one when any is allowed; all of them when the run does not reconnect |
| Supervisor.RunStopsAtFirstSuccess | src/pyRofex/clients/websocket_rfx.py:442-469 | no attempt but the last succeeds; the run reconnects exactly when its last attempt succeeded |
| Supervisor.AttemptRefreshRule | src/pyRofex/clients/websocket_rfx.py:438-459 | attempt 1 never refreshes the token; a later attempt refreshes it exactly when it slept and a REST client updated it; attempts send nothing and never report exhaustion |
| Supervisor.RunRefreshRule | src/pyRofex/clients/websocket_rfx.py:438-459 | over a whole run, attempt i refreshes the token exactly when it is not the first, its delay is not negative, and a REST client is found and its `update_token()` returns |
| Supervisor.RunEvents | src/pyRofex/clients/websocket_rfx.py:430-480 | a run's events are its attempts' events in order, then the replay if it reconnected, otherwise the exhaustion report |
| Supervisor.AttemptEventsQuiet | src/pyRofex/clients/websocket_rfx.py:431-472 | the attempts together send nothing and never report exhaustion |
| Supervisor.ExhaustionReportedOnce | src/pyRofex/clients/websocket_rfx.py:478-480 | when an exception handler is set, a run that fails ends with exactly one `ReconnectionFailed(max_attempts)` report, as its last event |
| Supervisor.ExhaustionReportedIffAllFail | src/pyRofex/clients/websocket_rfx.py:430-480 | the exception handler hears `ReconnectionFailed` exactly when every attempt failed and a handler is set |
| Supervisor.DefaultBackoffWhenAllFail | src/pyRofex/clients/websocket_rfx.py:55-57 | with the defaults, the attempts made wait 2, 4 and 8 seconds in order; a run that does not reconnect, whatever made its attempts fail, makes all 3; when every `connect()` raises it does not reconnect |
| Supervisor.TransientFailureIsReported | src/pyRofex/clients/websocket_rfx.py:160-161 | a timed-out `connect()` inside a recovery run reports `ConnectionFailed` even when a later attempt reconnects |

## Left out

- Threads: the listener thread and the supervisor thread are not modelled as concurrent. `OnClose` returns
  whether it starts the supervisor. `AttemptReconnection` is a separate call that runs the supervisor to
  completion. No interleaving of callbacks with other methods is considered.
- Sleeps: the one-second poll sleeps of `connect()` are poll steps. The 1-second stabilisation sleep before
  `_restore_subscriptions` and the 0.1-second pauses between replayed messages leave no event. Only the
  backoff sleep is recorded.
- Socket writes never fail in the model:
  - A send before any `connect()` raises `AttributeError` on `None` in the source; the model does not.
  - A write on a closed socket may raise; the model does not.
  - The source updates the ledger before it sends, so a failed send still leaves its record behind.
  - `_restore_subscriptions` would swallow a send failure and skip the rest of the replay.
  - A `close_connection()` before any `connect()` also raises `AttributeError`, because there is no socket
    app yet; the model does not.
- JSON decoding is an oracle. `Undecodable` stands for a `simplejson` failure. A frame is decoded only as
  its `status` and `type` fields. Non-object JSON values, such as a top-level list where `in` would test
  list membership, are not modelled.
- Message templates and formatting are not modelled. Requests are structured `Outbound` values. Float
  formatting of prices, the lower-cased `snapshot` text and the instrument and entry string templates are
  not rendered.
- Dispatch.Upper: folds ASCII letters only. Python's `str.upper` also maps non-ASCII letters, and some of
  them to several characters.
- The environment lookup (`globals.environment_config`), headers and `update_token()` are the oracle
  `RefreshOutcome`.
- GetActiveSubscriptions: the source returns a shallow copy of the dictionary, so the returned lists alias
  the client's own lists. The model returns values, so that aliasing is not captured.
- WebSocketRfx.WebSocketClient.Connect: an exception raised while constructing the socket app or starting
  the thread is not modelled outside the supervisor. Inside a reconnection attempt it is the
  `connectRaises` oracle.
- `Connect` treats an open socket at the end of the wait as meaning the listener has already run `on_open`.
  The race between `sock.connected` and `on_open` is not modelled.
- WebSocketRfx.WebSocketClient.MarketDataSubscription: the source's record holds the caller's own `tickers`
  and `entries` list objects, and the duplicate scan reads them as they are at scan time. The model stores
  values. A caller that mutates a list after subscribing can make the source skip a new subscription or
  hold two equal records; the model's duplicate-freedom and replay guarantees hold only for callers that
  do not mutate lists they passed in.
- WebSocketRfx.WebSocketClient.OnMessage: a handler that calls back into the client is not modelled. The
  source iterates over the live handler list, so a handler that removes itself makes the next handler be
  skipped for that frame, and a handler that adds one makes the new one run for the same frame. The model
  delivers to the list as it was when the frame arrived.
- An exception handler that itself raises is not modelled. Handler calls are events that cannot fail,
  except for the raising handlers `OnMessage` is given.
- Logging calls leave no trace.

The model follows the code where it departs from the client's described behaviour:

- Subscription deduplication compares tickers and entries as ordered lists, as `==` on Python lists does.
  The same instruments in another order make a second record.
- Handler faults are not isolated per handler. The whole dispatch is one `try`, so the first raising
  handler ends the delivery to the later handlers of its list.
- A `connect()` inside a reconnection attempt that times out reports `ConnectionFailed` to the exception
  handler. Recovery is therefore not silent when an attempt fails this way (`TransientFailureIsReported`).
- A frame without `type` is sent to the error handlers wrapped in the text "Message Supported". The
  payload kind `NotSupported` stands for that wrapping, whatever its wording.
