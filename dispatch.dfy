/** Inbound dispatch (`on_message`): classify a decoded frame, then call the
    handlers of one category in registration order. The whole dispatch sits in
    one `try`: the first handler that raises ends the delivery, and its
    exception goes to the exception handler. */
module Dispatch {
  import opened Wire

  /** ASCII upper-casing, standing in for Python's `str.upper`. */
  function UpperChar(c: char): char {
    if 'a' <= c <= 'z' then (c as int - 32) as char else c
  }

  function Upper(s: string): (r: string)
    ensures |r| == |s|
  {
    seq(|s|, i requires 0 <= i < |s| => UpperChar(s[i]))
  }

  /** Why `on_message` upper-cases the type: the two type tags match in any
      letter case, and only in the four spellings of each. */
  lemma TypeTagIgnoresCase(t: string)
    ensures Upper(t) == "MD" <==> t in {"MD", "Md", "mD", "md"}
    ensures Upper(t) == "OR" <==> t in {"OR", "Or", "oR", "or"}
  {
    if |t| == 2 {
      assert Upper(t)[0] == UpperChar(t[0]) && Upper(t)[1] == UpperChar(t[1]);
      assert t == [t[0], t[1]];
    }
  }

  datatype Category = MarketDataHandlers | OrderReportHandlers | ErrorHandlers

  /** Where a decoded frame goes: to one handler category with a payload, or
      to the exception handler because classifying it raised. */
  datatype Route = ToHandlers(category: Category, payload: Payload) | Rejected(fault: Fault)

  /** `'status' in msg and msg['status'] == 'ERROR'` (case-sensitive). */
  predicate IsErrorStatus(f: Frame) {
    f.status == Some(JString("ERROR"))
  }

  /** The frame carries a string `type` whose upper-cased form is `tag`. */
  predicate HasType(f: Frame, tag: string) {
    f.msgType.Some? && f.msgType.value.JString? && Upper(f.msgType.value.s) == tag
  }

  /** The classification of `on_message`: the status check first, then the
      upper-cased type. A non-string `type` has no `upper()`, so classifying
      raises. */
  function RouteOf(f: Frame): (r: Route)
    ensures r == ToHandlers(ErrorHandlers, FramePayload(f)) <==> IsErrorStatus(f)
    ensures r == ToHandlers(MarketDataHandlers, FramePayload(f)) <==> !IsErrorStatus(f) && HasType(f, "MD")
    ensures r == ToHandlers(OrderReportHandlers, FramePayload(f)) <==> !IsErrorStatus(f) && HasType(f, "OR")
    ensures r == ToHandlers(ErrorHandlers, TypeNotSupported(f)) <==>
      !IsErrorStatus(f) && f.msgType.Some? && f.msgType.value.JString? && !HasType(f, "MD") && !HasType(f, "OR")
    ensures r == ToHandlers(ErrorHandlers, NotSupported(f)) <==> !IsErrorStatus(f) && f.msgType.None?
    ensures r == Rejected(TypeNotText) <==> !IsErrorStatus(f) && f.msgType == Some(JNonString)
    ensures r.ToHandlers? ==> r.payload.frame == f
  {
    if IsErrorStatus(f) then ToHandlers(ErrorHandlers, FramePayload(f))
    else match f.msgType
      case None => ToHandlers(ErrorHandlers, NotSupported(f))
      case Some(JNonString) => Rejected(TypeNotText)
      case Some(JString(t)) =>
        if Upper(t) == "MD" then ToHandlers(MarketDataHandlers, FramePayload(f))
        else if Upper(t) == "OR" then ToHandlers(OrderReportHandlers, FramePayload(f))
        else ToHandlers(ErrorHandlers, TypeNotSupported(f))
  }

  function HandlersFor(c: Category, md: seq<HandlerRef>, or: seq<HandlerRef>, err: seq<HandlerRef>): seq<HandlerRef> {
    match c
    case MarketDataHandlers => md
    case OrderReportHandlers => or
    case ErrorHandlers => err
  }

  /** The deliveries made by one `for handler in ...: handler(msg)` loop and
      the handler, if any, whose exception ended it. */
  datatype Delivery = Delivery(events: seq<Event>, faulted: Option<HandlerRef>)

  /** Call `hs` in order with `p`; a handler in `raising` raises when called. */
  function RunHandlers(hs: seq<HandlerRef>, p: Payload, raising: set<HandlerRef>): Delivery
  {
    if hs == [] then Delivery([], None)
    else if hs[0] in raising then Delivery([Delivered(hs[0], p)], Some(hs[0]))
    else
      var rest := RunHandlers(hs[1..], p, raising);
      Delivery([Delivered(hs[0], p)] + rest.events, rest.faulted)
  }

  /** Everything `on_message` does with one inbound frame. */
  function MessageEvents(m: Inbound, md: seq<HandlerRef>, or: seq<HandlerRef>, err: seq<HandlerRef>,
                         raising: set<HandlerRef>, sink: Option<HandlerRef>): seq<Event>
  {
    match m
    case Undecodable => Notify(sink, DecodeFailed)
    case Decoded(f) =>
      match RouteOf(f)
      case Rejected(fault) => Notify(sink, fault)
      case ToHandlers(c, p) =>
        var d := RunHandlers(HandlersFor(c, md, or, err), p, raising);
        d.events + (if d.faulted.Some? then Notify(sink, HandlerRaised(d.faulted.value)) else [])
  }

  /** Handlers are called in list order, each once, until the first one that
      raises; with no raising handler every handler is called. */
  lemma {:induction false} RunHandlersInOrder(hs: seq<HandlerRef>, p: Payload, raising: set<HandlerRef>)
    ensures var d := RunHandlers(hs, p, raising);
      && |d.events| <= |hs|
      && (forall i :: 0 <= i < |d.events| ==> d.events[i] == Delivered(hs[i], p))
      && (d.faulted.None? ==> |d.events| == |hs|)
      && (d.faulted.Some? ==> 1 <= |d.events| && d.faulted.value == hs[|d.events| - 1])
  {
    if hs != [] && hs[0] !in raising {
      RunHandlersInOrder(hs[1..], p, raising);
      var rest := RunHandlers(hs[1..], p, raising);
      var d := RunHandlers(hs, p, raising);
      assert d.events == [Delivered(hs[0], p)] + rest.events;
      forall i | 0 <= i < |d.events| ensures d.events[i] == Delivered(hs[i], p) {
        if i > 0 {
          assert d.events[i] == rest.events[i - 1];
        }
      }
    }
  }

  /** The delivery ends with a fault exactly when some handler raises, and
      then at the first one that does. */
  lemma {:induction false} RunHandlersFault(hs: seq<HandlerRef>, p: Payload, raising: set<HandlerRef>)
    ensures var d := RunHandlers(hs, p, raising);
      && (d.faulted.None? <==> forall i :: 0 <= i < |hs| ==> hs[i] !in raising)
      && (d.faulted.Some? ==>
            && 1 <= |d.events| <= |hs|
            && hs[|d.events| - 1] in raising
            && forall i :: 0 <= i < |d.events| - 1 ==> hs[i] !in raising)
  {
    if hs != [] && hs[0] !in raising {
      RunHandlersFault(hs[1..], p, raising);
      var rest := RunHandlers(hs[1..], p, raising);
      var d := RunHandlers(hs, p, raising);
      assert |d.events| == 1 + |rest.events|;
      if rest.faulted.None? {
        forall i | 0 <= i < |hs| ensures hs[i] !in raising {
          if i > 0 {
            assert hs[i] == hs[1..][i - 1];
          }
        }
      } else {
        assert hs[|d.events| - 1] == hs[1..][|rest.events| - 1];
        forall i | 0 <= i < |d.events| - 1 ensures hs[i] !in raising {
          if i > 0 {
            assert hs[i] == hs[1..][i - 1];
          }
        }
      }
    }
  }

  /** Only handlers of the frame's routed category are ever called, and each
      with that route's payload; in particular a frame with status ERROR
      reaches only error handlers, whatever its type. */
  lemma OnlyRoutedCategoryReceives(m: Inbound, md: seq<HandlerRef>, or: seq<HandlerRef>, err: seq<HandlerRef>,
                                   raising: set<HandlerRef>, sink: Option<HandlerRef>, e: Event)
    requires e in MessageEvents(m, md, or, err, raising, sink) && e.Delivered?
    ensures m.Decoded? && RouteOf(m.frame).ToHandlers?
    ensures e.handler in HandlersFor(RouteOf(m.frame).category, md, or, err)
    ensures e.payload == RouteOf(m.frame).payload
    ensures IsErrorStatus(m.frame) ==> e.handler in err && e.payload == FramePayload(m.frame)
    ensures HasType(m.frame, "MD") && !IsErrorStatus(m.frame) ==> e.handler in md
    ensures HasType(m.frame, "OR") && !IsErrorStatus(m.frame) ==> e.handler in or
  {
    var f := m.frame;
    var r := RouteOf(f);
    var hs := HandlersFor(r.category, md, or, err);
    var d := RunHandlers(hs, r.payload, raising);
    RunHandlersInOrder(hs, r.payload, raising);
    var evs := MessageEvents(m, md, or, err, raising, sink);
    assert evs == d.events + (if d.faulted.Some? then Notify(sink, HandlerRaised(d.faulted.value)) else []);
    var i :| 0 <= i < |evs| && evs[i] == e;
    assert i < |d.events|;
    assert e == Delivered(hs[i], r.payload);
  }

  /** The dispatch is not isolated per handler: when the k-th handler of the
      routed list is the first to raise, exactly the handlers before it and
      itself are called, and its exception is the one reported. */
  lemma RaisingHandlerEndsDispatch(f: Frame, md: seq<HandlerRef>, or: seq<HandlerRef>, err: seq<HandlerRef>,
                                   raising: set<HandlerRef>, sink: Option<HandlerRef>, k: nat)
    requires RouteOf(f).ToHandlers?
    requires var hs := HandlersFor(RouteOf(f).category, md, or, err);
      k < |hs| && hs[k] in raising && forall i :: 0 <= i < k ==> hs[i] !in raising
    ensures var hs := HandlersFor(RouteOf(f).category, md, or, err);
      MessageEvents(Decoded(f), md, or, err, raising, sink) ==
        seq(k + 1, i requires 0 <= i <= k => Delivered(hs[i], RouteOf(f).payload)) + Notify(sink, HandlerRaised(hs[k]))
  {
    var hs := HandlersFor(RouteOf(f).category, md, or, err);
    var p := RouteOf(f).payload;
    RunHandlersInOrder(hs, p, raising);
    RunHandlersFault(hs, p, raising);
    var d := RunHandlers(hs, p, raising);
    assert d.faulted.Some?;
    assert |d.events| == k + 1 by {
      var n := |d.events|;
      assert hs[n - 1] in raising;
      assert !(n - 1 < k);
    }
    assert d.events == seq(k + 1, i requires 0 <= i <= k => Delivered(hs[i], p));
  }

  /** With no raising handler in the routed list, every handler of that list
      is called once, in order, and nothing reaches the exception handler. */
  lemma QuietHandlersAllRun(f: Frame, md: seq<HandlerRef>, or: seq<HandlerRef>, err: seq<HandlerRef>,
                            raising: set<HandlerRef>, sink: Option<HandlerRef>)
    requires RouteOf(f).ToHandlers?
    requires forall h :: h in HandlersFor(RouteOf(f).category, md, or, err) ==> h !in raising
    ensures var hs := HandlersFor(RouteOf(f).category, md, or, err);
      MessageEvents(Decoded(f), md, or, err, raising, sink) ==
        seq(|hs|, i requires 0 <= i < |hs| => Delivered(hs[i], RouteOf(f).payload))
  {
    var hs := HandlersFor(RouteOf(f).category, md, or, err);
    var p := RouteOf(f).payload;
    RunHandlersInOrder(hs, p, raising);
    RunHandlersFault(hs, p, raising);
    var d := RunHandlers(hs, p, raising);
    assert forall i :: 0 <= i < |hs| ==> hs[i] !in raising by {
      forall i | 0 <= i < |hs| ensures hs[i] !in raising {
        assert hs[i] in hs;
      }
    }
    assert d.events == seq(|hs|, i requires 0 <= i < |hs| => Delivered(hs[i], p));
  }
}
