/** Values exchanged by the websocket client: handler references, subscription
    records, outbound requests, decoded inbound frames, faults reported to the
    exception handler, and the events of the client's observable trace.

    The wire text itself (the message templates and their formatting) is not
    modelled: an outbound request is the abstract value its template is
    filled from. */
module Wire {

  datatype Option<+T> = None | Some(value: T)

  /** A registered callable, up to Python's `==`: equal callables, such as
      two bound methods of the same function on the same object, are one
      `HandlerRef`. */
  datatype HandlerRef = HandlerRef(id: nat)

  /** Market identifier (the `Market` enum's value). */
  datatype Market = Market(id: string)

  /** A market-data entry type (the `MarketDataEntry` enum's value). */
  datatype Entry = Entry(code: string)

  datatype Side = Buy | Sell

  /** Only the LIMIT variant is inspected by the client. */
  datatype OrderType = Limit | OtherOrderType(name: string)

  /** Only the GoodTillDate variant is inspected by the client. */
  datatype TimeInForce = GoodTillDate | OtherTimeInForce(name: string)

  /** One market-data subscription as stored in the ledger: equality over all
      four fields, with `entries` compared as a list (order matters). */
  datatype MarketDataSub = MarketDataSub(tickers: seq<string>, entries: seq<Entry>, market: Market, depth: int)

  /** One order-report subscription as stored in the ledger. */
  datatype OrderReportSub = OrderReportSub(account: string, snapshot: bool)

  /** One `{symbol, marketId}` element of a market-data request. */
  datatype Instrument = Instrument(symbol: string, market: Market)

  /** The optional fragments of a new-order request, one per template. */
  datatype OptionalParam = GoodTillDateParam | IcebergParam | ClientOrderIdParam | PriceParam

  /** Every argument of `send_order`. */
  datatype OrderTicket = OrderTicket(
    ticker: string,
    size: int,
    side: Side,
    orderType: OrderType,
    account: string,
    price: Option<real>,
    timeInForce: TimeInForce,
    market: Market,
    cancelPrevious: bool,
    iceberg: bool,
    expireDate: Option<string>,
    displayQuantity: Option<int>,
    allOrNone: bool,
    clientOrderId: Option<string>)

  /** What one `send` call writes to the socket. */
  datatype Outbound =
    | MarketDataRequest(instruments: seq<Instrument>, entries: seq<Entry>, depth: int)
    | OrderReportRequest(account: string, snapshot: bool)
    | CancelRequest(clientOrderId: string, proprietary: string)
    | NewOrderRequest(ticket: OrderTicket, optional: seq<OptionalParam>)

  /** A JSON value as far as the dispatcher looks at it: a string, or anything
      else (a number, a list, an object, a boolean or null). */
  datatype JsonValue = JString(s: string) | JNonString

  /** A decoded inbound JSON object, reduced to the two keys the dispatcher
      reads; `None` is an absent key. */
  datatype Frame = Frame(status: Option<JsonValue>, msgType: Option<JsonValue>)

  /** An inbound text frame: either it decodes to an object or decoding raises. */
  datatype Inbound = Undecodable | Decoded(frame: Frame)

  /** What a handler is called with: the frame itself, or one of the two
      wrapper texts the error handlers receive. */
  datatype Payload =
    | FramePayload(frame: Frame)
    | TypeNotSupported(frame: Frame)
    | NotSupported(frame: Frame)

  /** Exceptions that reach the exception handler. */
  datatype Fault =
    | ConnectionFailed
    | DecodeFailed
    | TypeNotText
    | HandlerRaised(handler: HandlerRef)
    | TransportFault(reason: string)
    | ReconnectionFailed(attempts: int)

  /** Observable effects of the client, in the order they happen. */
  datatype Event =
    | Sent(msg: Outbound)
    | Delivered(handler: HandlerRef, payload: Payload)
    | ExceptionNotified(handler: HandlerRef, fault: Fault)
    | Slept(seconds: int)
    | ListenerStarted
    | TokenRefreshed
    | CloseRequested

  /** `on_exception`: the fault reaches the exception handler when one is set,
      and is dropped otherwise. */
  function Notify(sink: Option<HandlerRef>, fault: Fault): seq<Event>
  {
    match sink
    case None => []
    case Some(h) => [ExceptionNotified(h, fault)]
  }
}
