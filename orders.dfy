/** The optional-parameter part of a new-order request (`send_order`): up to
    four fragments, each under its own guard, always in the template's order. */
module Orders {
  import opened Wire

  /** Position of each fragment in the request template. */
  function Rank(p: OptionalParam): nat {
    match p
    case GoodTillDateParam => 0
    case IcebergParam => 1
    case ClientOrderIdParam => 2
    case PriceParam => 3
  }

  /** The guard under which `send_order` appends fragment `p`. */
  predicate Wanted(t: OrderTicket, p: OptionalParam) {
    match p
    case GoodTillDateParam => t.timeInForce == GoodTillDate
    case IcebergParam => t.iceberg
    case ClientOrderIdParam => t.clientOrderId.Some?
    case PriceParam => t.price.Some? && t.orderType == Limit
  }

  ghost predicate InTemplateOrder(s: seq<OptionalParam>) {
    forall i, j :: 0 <= i < j < |s| ==> Rank(s[i]) < Rank(s[j])
  }

  /** The fragments `send_order` appends for ticket `t`: each exactly when its
      guard holds, and in template order (so none twice). A price given with
      a non-LIMIT order type is left out. */
  function OptionalParams(t: OrderTicket): (r: seq<OptionalParam>)
    ensures forall p :: p in r <==> Wanted(t, p)
    ensures InTemplateOrder(r)
    ensures |r| <= 4
  {
    (if t.timeInForce == GoodTillDate then [GoodTillDateParam] else [])
    + (if t.iceberg then [IcebergParam] else [])
    + (if t.clientOrderId.Some? then [ClientOrderIdParam] else [])
    + (if t.price.Some? && t.orderType == Limit then [PriceParam] else [])
  }

  /** Two fragment lists in template order with the same members are equal. */
  lemma {:induction false} SameMembersSameList(a: seq<OptionalParam>, b: seq<OptionalParam>)
    requires InTemplateOrder(a) && InTemplateOrder(b)
    requires forall p :: p in a <==> p in b
    ensures a == b
    decreases |a|
  {
    if a == [] {
      assert forall i :: 0 <= i < |b| ==> b[i] in b;
    } else {
      assert b != [] by {
        assert a[0] in b;
      }
      assert a[0] == b[0] by {
        assert a[0] in b && b[0] in a;
      }
      forall p ensures p in a[1..] <==> p in b[1..] {
        if p in a[1..] {
          var i :| 0 <= i < |a[1..]| && a[1..][i] == p;
          assert Rank(a[0]) < Rank(a[i + 1]);
          assert p in b;
        }
        if p in b[1..] {
          var i :| 0 <= i < |b[1..]| && b[1..][i] == p;
          assert Rank(b[0]) < Rank(b[i + 1]);
          assert p in a;
        }
      }
      assert InTemplateOrder(a[1..]) by {
        forall i, j | 0 <= i < j < |a[1..]| ensures Rank(a[1..][i]) < Rank(a[1..][j]) {
          assert a[1..][i] == a[i + 1] && a[1..][j] == a[j + 1];
        }
      }
      assert InTemplateOrder(b[1..]) by {
        forall i, j | 0 <= i < j < |b[1..]| ensures Rank(b[1..][i]) < Rank(b[1..][j]) {
          assert b[1..][i] == b[i + 1] && b[1..][j] == b[j + 1];
        }
      }
      SameMembersSameList(a[1..], b[1..]);
      assert a == [a[0]] + a[1..] && b == [b[0]] + b[1..];
    }
  }

  /** The guards and the template order determine the fragment list: any list
      with both properties is the one `send_order` builds. */
  lemma OptionalParamsDetermined(t: OrderTicket, opt: seq<OptionalParam>)
    requires forall p :: p in opt <==> Wanted(t, p)
    requires InTemplateOrder(opt)
    ensures opt == OptionalParams(t)
  {
    SameMembersSameList(opt, OptionalParams(t));
  }
}
