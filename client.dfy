/** `WebSocketClient`: handler registry, subscription ledger, inbound
    dispatch, order requests, connection and the reconnection supervisor.

    Everything the client does to the outside world is appended to `trace`:
    messages written to the socket, handler calls, exception-handler calls,
    backoff sleeps, listener starts, token refreshes and close requests.
    Callbacks the listener thread makes (`on_open`, `on_message`, `on_close`,
    `on_error`) are methods the environment calls one at a time. */
module WebSocketRfx {
  import opened Wire
  import opened OrderedSets
  import opened Dispatch
  import opened Orders
  import opened Ledger
  import opened Supervisor

  class WebSocketClient {
    var marketDataHandlers: seq<HandlerRef>
    var orderReportHandlers: seq<HandlerRef>
    var errorHandlers: seq<HandlerRef>
    var exceptionHandler: Option<HandlerRef>

    var connected: bool

    var autoReconnect: bool
    var maxReconnectAttempts: int
    var reconnectDelay: int

    /** `active_subscriptions['market_data']` and `['order_report']` */
    var marketDataSubs: seq<MarketDataSub>
    var orderReportSubs: seq<OrderReportSub>

    var trace: seq<Event>

    /** No handler list and no ledger holds an element twice. */
    ghost predicate Valid()
      reads this
    {
      && NoDuplicates(marketDataHandlers)
      && NoDuplicates(orderReportHandlers)
      && NoDuplicates(errorHandlers)
      && NoDuplicates(marketDataSubs)
      && NoDuplicates(orderReportSubs)
    }

    constructor ()
      ensures Valid()
      ensures marketDataHandlers == [] && orderReportHandlers == [] && errorHandlers == []
      ensures exceptionHandler == None && !connected
      ensures autoReconnect && maxReconnectAttempts == 3 && reconnectDelay == 2
      ensures marketDataSubs == [] && orderReportSubs == []
      ensures trace == []
    {
      marketDataHandlers, orderReportHandlers, errorHandlers := [], [], [];
      exceptionHandler := None;
      connected := false;
      autoReconnect, maxReconnectAttempts, reconnectDelay := true, 3, 2;
      marketDataSubs, orderReportSubs := [], [];
      trace := [];
    }

    // ---------------------------------------------------------------- handlers

    method AddMarketDataHandler(h: HandlerRef)
      requires Valid()
      modifies this`marketDataHandlers
      ensures Valid()
      ensures old(h in marketDataHandlers) ==> marketDataHandlers == old(marketDataHandlers)
      ensures old(h !in marketDataHandlers) ==> marketDataHandlers == old(marketDataHandlers) + [h]
    {
      AddedKeepsOrderAndDistinct(marketDataHandlers, h);
      if h !in marketDataHandlers {
        marketDataHandlers := marketDataHandlers + [h];
      }
    }

    method RemoveMarketDataHandler(h: HandlerRef)
      requires Valid()
      modifies this`marketDataHandlers
      ensures Valid()
      ensures marketDataHandlers == Without(old(marketDataHandlers), h)
      ensures h !in marketDataHandlers
      ensures old(h !in marketDataHandlers) ==> marketDataHandlers == old(marketDataHandlers)
    {
      RemoveFirstOfDistinct(marketDataHandlers, h);
      if h !in marketDataHandlers {
        WithoutAbsent(marketDataHandlers, h);
      }
      if h in marketDataHandlers {
        marketDataHandlers := RemoveFirst(marketDataHandlers, h);
      }
    }

    method AddOrderReportHandler(h: HandlerRef)
      requires Valid()
      modifies this`orderReportHandlers
      ensures Valid()
      ensures old(h in orderReportHandlers) ==> orderReportHandlers == old(orderReportHandlers)
      ensures old(h !in orderReportHandlers) ==> orderReportHandlers == old(orderReportHandlers) + [h]
    {
      AddedKeepsOrderAndDistinct(orderReportHandlers, h);
      if h !in orderReportHandlers {
        orderReportHandlers := orderReportHandlers + [h];
      }
    }

    method RemoveOrderReportHandler(h: HandlerRef)
      requires Valid()
      modifies this`orderReportHandlers
      ensures Valid()
      ensures orderReportHandlers == Without(old(orderReportHandlers), h)
      ensures h !in orderReportHandlers
      ensures old(h !in orderReportHandlers) ==> orderReportHandlers == old(orderReportHandlers)
    {
      RemoveFirstOfDistinct(orderReportHandlers, h);
      if h !in orderReportHandlers {
        WithoutAbsent(orderReportHandlers, h);
      }
      if h in orderReportHandlers {
        orderReportHandlers := RemoveFirst(orderReportHandlers, h);
      }
    }

    method AddErrorHandler(h: HandlerRef)
      requires Valid()
      modifies this`errorHandlers
      ensures Valid()
      ensures old(h in errorHandlers) ==> errorHandlers == old(errorHandlers)
      ensures old(h !in errorHandlers) ==> errorHandlers == old(errorHandlers) + [h]
    {
      AddedKeepsOrderAndDistinct(errorHandlers, h);
      if h !in errorHandlers {
        errorHandlers := errorHandlers + [h];
      }
    }

    method RemoveErrorHandler(h: HandlerRef)
      requires Valid()
      modifies this`errorHandlers
      ensures Valid()
      ensures errorHandlers == Without(old(errorHandlers), h)
      ensures h !in errorHandlers
      ensures old(h !in errorHandlers) ==> errorHandlers == old(errorHandlers)
    {
      RemoveFirstOfDistinct(errorHandlers, h);
      if h !in errorHandlers {
        WithoutAbsent(errorHandlers, h);
      }
      if h in errorHandlers {
        errorHandlers := RemoveFirst(errorHandlers, h);
      }
    }

    /** Last writer wins; `None` unsets the handler. */
    method SetExceptionHandler(h: Option<HandlerRef>)
      modifies this`exceptionHandler
      ensures exceptionHandler == h
    {
      exceptionHandler := h;
    }

    // -------------------------------------------------------------- connection

    /** `connect()`. `listenerRunning` is whether the previous listener thread
        is still alive; `probe(t)` is what the wait loop sees at second t. */
    method Connect(listenerRunning: bool, probe: nat -> SocketProbe)
      modifies this`connected, this`trace
      ensures var c := ConnectOutcome(old(connected), listenerRunning, probe, exceptionHandler);
        connected == c.connected && trace == old(trace) + c.events
    {
      if listenerRunning {
        return;
      }
      trace := trace + [ListenerStarted];
      var timeout: nat := ConnectTimeout;
      var t: nat := 0;
      while Pending(probe(t)) && timeout > 0
        invariant WaitSteps(probe, t, timeout) == WaitSteps(probe, 0, ConnectTimeout)
      {
        t := t + 1;
        timeout := timeout - 1;
      }
      if probe(t).socketOpen {
        // the listener has opened the socket and run on_open
        OnOpen();
      } else {
        OnException(ConnectionFailed);
      }
    }

    method OnOpen()
      modifies this`connected
      ensures connected
    {
      connected := true;
    }

    /** `on_close`: the client is disconnected; a close with code 1008 starts
        the reconnection supervisor (`AttemptReconnection`) on its own thread,
        which is what the returned flag says. */
    method OnClose(code: Option<int>) returns (startsReconnection: bool)
      modifies this`connected
      ensures !connected
      ensures startsReconnection <==> code == Some(1008)
    {
      connected := false;
      startsReconnection := code == Some(1008);
    }

    /** `on_error`: close the socket, then report the error. */
    method OnError(fault: Fault)
      modifies this`trace
      ensures trace == old(trace) + [CloseRequested] + Notify(exceptionHandler, fault)
    {
      CloseConnection();
      OnException(fault);
    }

    method OnException(fault: Fault)
      modifies this`trace
      ensures trace == old(trace) + Notify(exceptionHandler, fault)
    {
      if exceptionHandler.Some? {
        trace := trace + [ExceptionNotified(exceptionHandler.value, fault)];
      }
    }

    method CloseConnection()
      modifies this`trace
      ensures trace == old(trace) + [CloseRequested]
    {
      trace := trace + [CloseRequested];
    }

    function IsConnected(): (r: bool)
      reads this
      ensures r <==> connected
    {
      connected
    }

    // ---------------------------------------------------------------- dispatch

    /** `on_message`. `raising` is the set of handlers that raise when called
        with this frame. */
    method OnMessage(m: Inbound, raising: set<HandlerRef>)
      modifies this`trace
      ensures trace == old(trace) + MessageEvents(m, marketDataHandlers, orderReportHandlers, errorHandlers,
                                                  raising, exceptionHandler)
    {
      match m
      case Undecodable =>
        OnException(DecodeFailed);
      case Decoded(f) =>
        match RouteOf(f)
        case Rejected(fault) =>
          OnException(fault);
        case ToHandlers(c, p) =>
          var hs := HandlersFor(c, marketDataHandlers, orderReportHandlers, errorHandlers);
          var faulted: Option<HandlerRef> := None;
          var i := 0;
          ghost var before := trace;
          ghost var whole := RunHandlers(hs, p, raising);
          while i < |hs| && faulted.None?
            invariant 0 <= i <= |hs|
            invariant faulted.None? ==>
              before + whole.events == trace + RunHandlers(hs[i..], p, raising).events
              && whole.faulted == RunHandlers(hs[i..], p, raising).faulted
            invariant faulted.Some? ==> before + whole.events == trace && whole.faulted == faulted
          {
            assert hs[i..][0] == hs[i] && hs[i..][1..] == hs[i + 1..];
            trace := trace + [Delivered(hs[i], p)];
            if hs[i] in raising {
              faulted := Some(hs[i]);
            }
            i := i + 1;
          }
          if faulted.None? {
            assert hs[i..] == [];
            assert trace == before + whole.events;
          } else {
            OnException(HandlerRaised(faulted.value));
            assert trace == before + whole.events + Notify(exceptionHandler, HandlerRaised(whole.faulted.value));
          }
          assert MessageEvents(m, marketDataHandlers, orderReportHandlers, errorHandlers, raising, exceptionHandler)
            == whole.events + (if whole.faulted.Some? then Notify(exceptionHandler, HandlerRaised(whole.faulted.value)) else []);
    }

    // ----------------------------------------------------------- subscriptions

    /** `market_data_subscription`: record the subscription unless an equal
        record exists (a linear scan), then send its request in every case. */
    method MarketDataSubscription(tickers: seq<string>, entries: seq<Entry>, market: Market, depth: int)
      requires Valid()
      modifies this`marketDataSubs, this`trace
      ensures Valid()
      ensures var sub := MarketDataSub(tickers, entries, market, depth);
        && (sub in old(marketDataSubs) ==> marketDataSubs == old(marketDataSubs))
        && (sub !in old(marketDataSubs) ==> marketDataSubs == old(marketDataSubs) + [sub])
        && sub in marketDataSubs
        && trace == old(trace) + [Sent(MarketDataMessage(sub))]
    {
      var sub := MarketDataSub(tickers, entries, market, depth);
      var existing: Option<MarketDataSub> := None;
      var i := 0;
      while i < |marketDataSubs|
        invariant 0 <= i <= |marketDataSubs|
        invariant existing.None? ==> sub !in marketDataSubs[..i]
        invariant existing == None || existing == Some(sub)
        invariant existing == Some(sub) ==> sub in marketDataSubs
      {
        if marketDataSubs[i] == sub {
          existing := Some(marketDataSubs[i]);
          break;
        }
        i := i + 1;
      }
      if existing.None? {
        assert marketDataSubs[..i] == marketDataSubs;
        AddedKeepsOrderAndDistinct(marketDataSubs, sub);
        marketDataSubs := marketDataSubs + [sub];
      }
      trace := trace + [Sent(MarketDataMessage(sub))];
    }

    /** `order_report_subscription`: the same for an order-report record. */
    method OrderReportSubscription(account: string, snapshot: bool)
      requires Valid()
      modifies this`orderReportSubs, this`trace
      ensures Valid()
      ensures var sub := OrderReportSub(account, snapshot);
        && (sub in old(orderReportSubs) ==> orderReportSubs == old(orderReportSubs))
        && (sub !in old(orderReportSubs) ==> orderReportSubs == old(orderReportSubs) + [sub])
        && sub in orderReportSubs
        && trace == old(trace) + [Sent(OrderReportMessage(sub))]
    {
      var sub := OrderReportSub(account, snapshot);
      var existing: Option<OrderReportSub> := None;
      var i := 0;
      while i < |orderReportSubs|
        invariant 0 <= i <= |orderReportSubs|
        invariant existing.None? ==> sub !in orderReportSubs[..i]
        invariant existing == None || existing == Some(sub)
        invariant existing == Some(sub) ==> sub in orderReportSubs
      {
        if orderReportSubs[i] == sub {
          existing := Some(orderReportSubs[i]);
          break;
        }
        i := i + 1;
      }
      if existing.None? {
        assert orderReportSubs[..i] == orderReportSubs;
        AddedKeepsOrderAndDistinct(orderReportSubs, sub);
        orderReportSubs := orderReportSubs + [sub];
      }
      trace := trace + [Sent(OrderReportMessage(sub))];
    }

    /** `_restore_subscriptions`: resend every market-data record, then every
        order-report record, each in ledger order. */
    method RestoreSubscriptions()
      modifies this`trace
      ensures trace == old(trace) + Replay(marketDataSubs, orderReportSubs)
    {
      for i := 0 to |marketDataSubs|
        invariant trace == old(trace) + SendEach(marketDataSubs[..i], MarketDataMessage)
      {
        assert marketDataSubs[..i + 1][..i] == marketDataSubs[..i];
        trace := trace + [Sent(MarketDataMessage(marketDataSubs[i]))];
      }
      assert marketDataSubs[..|marketDataSubs|] == marketDataSubs;
      ghost var afterMarketData := trace;
      for j := 0 to |orderReportSubs|
        invariant trace == afterMarketData + SendEach(orderReportSubs[..j], OrderReportMessage)
      {
        assert orderReportSubs[..j + 1][..j] == orderReportSubs[..j];
        trace := trace + [Sent(OrderReportMessage(orderReportSubs[j]))];
      }
      assert orderReportSubs[..|orderReportSubs|] == orderReportSubs;
    }

    method ClearSubscriptions()
      requires Valid()
      modifies this`marketDataSubs, this`orderReportSubs
      ensures Valid()
      ensures marketDataSubs == [] && orderReportSubs == []
    {
      marketDataSubs, orderReportSubs := [], [];
    }

    /** A copy of both ledgers. */
    method GetActiveSubscriptions() returns (md: seq<MarketDataSub>, or: seq<OrderReportSub>)
      ensures md == marketDataSubs && or == orderReportSubs
    {
      md, or := marketDataSubs, orderReportSubs;
    }

    // ------------------------------------------------------------------ orders

    method CancelOrder(clientOrderId: string, proprietary: string)
      modifies this`trace
      ensures trace == old(trace) + [Sent(CancelRequest(clientOrderId, proprietary))]
    {
      trace := trace + [Sent(CancelRequest(clientOrderId, proprietary))];
    }

    /** `send_order`: the optional fragments are appended one guard at a time,
        then the request is sent. */
    method SendOrder(ticket: OrderTicket)
      modifies this`trace
      ensures trace == old(trace) + [Sent(NewOrderRequest(ticket, OptionalParams(ticket)))]
    {
      var opt: seq<OptionalParam> := [];
      if ticket.timeInForce == GoodTillDate {
        opt := opt + [GoodTillDateParam];
      }
      if ticket.iceberg {
        opt := opt + [IcebergParam];
      }
      if ticket.clientOrderId.Some? {
        opt := opt + [ClientOrderIdParam];
      }
      if ticket.price.Some? && ticket.orderType == Limit {
        opt := opt + [PriceParam];
      }
      assert opt == OptionalParams(ticket);
      trace := trace + [Sent(NewOrderRequest(ticket, opt))];
    }

    // ------------------------------------------------------------ reconnection

    /** The arguments default to the constructor's settings. */
    method SetAutoReconnect(enabled: bool := true, maxAttempts: int := 3, delay: int := 2)
      modifies this`autoReconnect, this`maxReconnectAttempts, this`reconnectDelay
      ensures autoReconnect == enabled && maxReconnectAttempts == maxAttempts && reconnectDelay == delay
    {
      autoReconnect, maxReconnectAttempts, reconnectDelay := enabled, maxAttempts, delay;
    }

    method DisableAutoReconnect()
      modifies this`autoReconnect
      ensures !autoReconnect
    {
      autoReconnect := false;
    }

    /** The tail of an attempt: `connect()`, then on success restore the
        subscriptions. */
    method ConnectAndRestore(e: AttemptEnv) returns (ok: bool)
      modifies this`connected, this`trace
      ensures var c := ConnectOutcome(old(connected), e.listenerRunning, e.probe, exceptionHandler);
        && ok == c.connected
        && connected == c.connected
        && trace == old(trace) + c.events + (if ok then Replay(marketDataSubs, orderReportSubs) else [])
    {
      Connect(e.listenerRunning, e.probe);
      ok := false;
      if IsConnected() {
        RestoreSubscriptions();
        ok := true;
      }
    }

    /** The start of an attempt: the backoff sleep, then, on attempts after
        the first, the token refresh through the associated REST client.
        `raised` says whether either raised. */
    method BackoffAndRefresh(attempt: nat, delay: int, refresh: RefreshOutcome) returns (raised: bool)
      modifies this`trace
      ensures var pre := AttemptPrelude(attempt, delay, refresh);
        raised == pre.raised && trace == old(trace) + pre.events
    {
      if delay < 0 {
        return true;  // time.sleep raises on a negative delay
      }
      trace := trace + [Slept(delay)];
      raised := false;
      if attempt != 1 {
        if refresh == UpdateRaised {
          raised := true;
        } else if refresh == TokenUpdated {
          trace := trace + [TokenRefreshed];
        }
      }
    }

    /** One attempt of `_attempt_reconnection` (the body of its `try`):
        sleep, refresh the token on attempts after the first, connect, and
        on success restore the subscriptions. An exception (from the sleep,
        the refresh or `connect()`) ends the attempt as failed. */
    method ReconnectOnce(attempt: nat, delay: int, e: AttemptEnv) returns (ok: bool)
      modifies this`connected, this`trace
      ensures var a := Attempt(attempt, delay, old(connected), e, exceptionHandler);
        && ok == (a.result == Reconnected)
        && connected == a.connected
        && trace == old(trace) + a.events + (if ok then Replay(marketDataSubs, orderReportSubs) else [])
    {
      var raised := BackoffAndRefresh(attempt, delay, e.refresh);
      if raised || e.connectRaises {
        return false;
      }
      ghost var mid := trace;
      ok := ConnectAndRestore(e);
      ghost var c := ConnectOutcome(old(connected), e.listenerRunning, e.probe, exceptionHandler);
      ghost var tail: seq<Event> := if ok then Replay(marketDataSubs, orderReportSubs) else [];
      assert trace == mid + c.events + tail;
      assert mid + c.events + tail == old(trace) + (mid[|old(trace)|..] + c.events) + tail;
    }

    /** `_attempt_reconnection`, run to completion. `env(k)` decides what the
        outside world does during attempt k. */
    method AttemptReconnection(env: nat -> AttemptEnv) returns (reconnected: bool)
      modifies this`connected, this`trace
      ensures var r := Supervise(autoReconnect, maxReconnectAttempts, reconnectDelay, old(connected), env,
                                 exceptionHandler, Replay(marketDataSubs, orderReportSubs));
        && trace == old(trace) + r.events
        && connected == r.connected
        && reconnected == r.reconnected
    {
      if !autoReconnect {
        return false;
      }
      ghost var replay := Replay(marketDataSubs, orderReportSubs);
      RunOntoIsRunFrom(trace, 1, maxReconnectAttempts, reconnectDelay, connected, AttemptsIn(env, exceptionHandler),
                       exceptionHandler, replay);
      reconnected := RunAttempts(maxReconnectAttempts, reconnectDelay, env);
    }

    /** The attempt loop of `_attempt_reconnection`, with exponential backoff
        from `initialDelay`. */
    method RunAttempts(maxAttempts: int, initialDelay: int, env: nat -> AttemptEnv) returns (reconnected: bool)
      modifies this`connected, this`trace
      ensures var e := RunOnto(old(trace), 1, maxAttempts, initialDelay, old(connected), AttemptsIn(env, exceptionHandler),
                               exceptionHandler, Replay(marketDataSubs, orderReportSubs));
        trace == e.trace && connected == e.connected && reconnected == e.reconnected
    {
      var attempt: nat := 1;
      var delay := initialDelay;
      ghost var replay := Replay(marketDataSubs, orderReportSubs);
      ghost var step := AttemptsIn(env, exceptionHandler);
      ghost var whole := RunOnto(trace, 1, maxAttempts, delay, connected, step, exceptionHandler, replay);
      while attempt <= maxAttempts
        invariant 1 <= attempt
        invariant whole == RunOnto(trace, attempt, maxAttempts, delay, connected, step, exceptionHandler, replay)
        decreases maxAttempts - attempt
      {
        ghost var before := trace;
        ghost var a := Attempt(attempt, delay, connected, env(attempt), exceptionHandler);
        assert step(attempt, delay, connected) == a;
        var ok := ReconnectOnce(attempt, delay, env(attempt));
        if ok {
          return true;
        }
        assert trace == before + a.events;
        attempt := attempt + 1;
        delay := delay * 2;
      }
      trace := trace + Notify(exceptionHandler, ReconnectionFailed(maxAttempts));
      return false;
    }
  }
}
