/** The subscription ledger's messages: the request each record stands for,
    and the replay `_restore_subscriptions` sends after a reconnection. */
module Ledger {
  import opened Wire

  /** The `{symbol, marketId}` list of a market-data request: one instrument
      per ticker, in ticker order, all on the subscription's market. */
  function Instruments(tickers: seq<string>, market: Market): seq<Instrument>
  {
    seq(|tickers|, i requires 0 <= i < |tickers| => Instrument(tickers[i], market))
  }

  /** The market-data request built from a record (the same for the first
      subscription and for its replay). */
  function MarketDataMessage(sub: MarketDataSub): Outbound {
    MarketDataRequest(Instruments(sub.tickers, sub.market), sub.entries, sub.depth)
  }

  function OrderReportMessage(sub: OrderReportSub): Outbound {
    OrderReportRequest(sub.account, sub.snapshot)
  }

  /** One send per record, in ledger order (stated from the last record back,
      the way a loop over the ledger extends its output). */
  function SendEach<T>(subs: seq<T>, render: T -> Outbound): seq<Event>
  {
    if subs == [] then []
    else SendEach(subs[..|subs| - 1], render) + [Sent(render(subs[|subs| - 1]))]
  }

  /** Everything `_restore_subscriptions` sends. */
  function Replay(md: seq<MarketDataSub>, or: seq<OrderReportSub>): seq<Event> {
    SendEach(md, MarketDataMessage) + SendEach(or, OrderReportMessage)
  }

  lemma {:induction false} SendEachAt<T>(subs: seq<T>, render: T -> Outbound)
    ensures |SendEach(subs, render)| == |subs|
    ensures forall i :: 0 <= i < |subs| ==> SendEach(subs, render)[i] == Sent(render(subs[i]))
  {
    if subs != [] {
      var init := subs[..|subs| - 1];
      SendEachAt(init, render);
      forall i | 0 <= i < |subs| ensures SendEach(subs, render)[i] == Sent(render(subs[i])) {
        if i < |subs| - 1 {
          assert SendEach(subs, render)[i] == SendEach(init, render)[i];
          assert init[i] == subs[i];
        }
      }
    }
  }

  /** Replay order: one message per market-data record in ledger order, then
      one per order-report record in ledger order, and nothing else. */
  lemma ReplayOrder(md: seq<MarketDataSub>, or: seq<OrderReportSub>)
    ensures |Replay(md, or)| == |md| + |or|
    ensures forall i :: 0 <= i < |md| ==> Replay(md, or)[i] == Sent(MarketDataMessage(md[i]))
    ensures forall j :: 0 <= j < |or| ==> Replay(md, or)[|md| + j] == Sent(OrderReportMessage(or[j]))
  {
    var first := SendEach(md, MarketDataMessage);
    var second := SendEach(or, OrderReportMessage);
    SendEachAt(md, MarketDataMessage);
    SendEachAt(or, OrderReportMessage);
    forall i | 0 <= i < |md| ensures Replay(md, or)[i] == Sent(MarketDataMessage(md[i])) {
      assert Replay(md, or)[i] == first[i];
    }
    forall j | 0 <= j < |or| ensures Replay(md, or)[|md| + j] == Sent(OrderReportMessage(or[j])) {
      assert Replay(md, or)[|md| + j] == second[j];
    }
  }

  /** A market-data record held by the ledger is resent by every replay of
      that ledger, at the record's position in it. Subscribing only ever
      appends to the ledger until it is cleared, so once recorded a
      subscription is part of every later replay. */
  lemma SubscribedRecordIsReplayed(md: seq<MarketDataSub>, or: seq<OrderReportSub>, sub: MarketDataSub)
    ensures sub in md ==> Sent(MarketDataMessage(sub)) in Replay(md, or)
    ensures forall k :: 0 <= k < |md| && md[k] == sub ==>
      k < |Replay(md, or)| && Replay(md, or)[k] == Sent(MarketDataMessage(sub))
  {
    ReplayOrder(md, or);
    if sub in md {
      var k :| 0 <= k < |md| && md[k] == sub;
      assert Replay(md, or)[k] == Sent(MarketDataMessage(sub));
    }
  }

  /** The same for an order-report record, which is resent after every
      market-data record. */
  lemma SubscribedReportIsReplayed(md: seq<MarketDataSub>, or: seq<OrderReportSub>, sub: OrderReportSub)
    ensures sub in or ==> Sent(OrderReportMessage(sub)) in Replay(md, or)
    ensures forall k :: 0 <= k < |or| && or[k] == sub ==>
      |md| + k < |Replay(md, or)| && Replay(md, or)[|md| + k] == Sent(OrderReportMessage(sub))
  {
    ReplayOrder(md, or);
    if sub in or {
      var k :| 0 <= k < |or| && or[k] == sub;
      assert Replay(md, or)[|md| + k] == Sent(OrderReportMessage(sub));
    }
  }
}
