/** The supervisor's home screen: the order list it keeps, the local update
    after an approve or reject, the pending/resolved split, an order's cost
    totals, the avatar initials and the availability toggle.

    The network is modelled by parameters: what a list fetch returned, and
    whether an action or availability request succeeded. */
module Supervisor {
  import opened Common
  import Text
  import Orders

  // ---------------------------------------------------------------------------
  // The local update after an action

  /** One entry of `orders.map(...)` after a successful action on `id`. */
  function Mark(o: Orders.Order, id: string, action: string, updatedBy: Option<string>): (r: Orders.Order)
    ensures o.id == id ==> r == o.(status := Orders.ActionStatus(action), statusUpdatedBy := updatedBy)
    ensures o.id != id ==> r == o
  {
    if o.id == id then o.(status := Orders.ActionStatus(action), statusUpdatedBy := updatedBy) else o
  }

  /** `orders.map(o => o.id === orderId ? { ...o, status, statusUpdatedBy } : o)`. */
  function MarkResolved(orders: seq<Orders.Order>, id: string, action: string, updatedBy: Option<string>): (r: seq<Orders.Order>)
    ensures |r| == |orders|
    ensures forall k :: 0 <= k < |orders| ==> r[k] == Mark(orders[k], id, action, updatedBy)
  {
    seq(|orders|, k requires 0 <= k < |orders| => Mark(orders[k], id, action, updatedBy))
  }

  /** After an action on `id`, the pending list is the old one without the
      orders carrying that id, in the same order. */
  lemma {:induction false} MarkLeavesPending(orders: seq<Orders.Order>, id: string, action: string, updatedBy: Option<string>)
    ensures Orders.Filter(Orders.IsPending, MarkResolved(orders, id, action, updatedBy))
            == Orders.Filter((o: Orders.Order) => o.id != id, Orders.Filter(Orders.IsPending, orders))
  {
    if orders != [] {
      MarkLeavesPending(orders[1..], id, action, updatedBy);
      assert MarkResolved(orders, id, action, updatedBy) == [Mark(orders[0], id, action, updatedBy)] + MarkResolved(orders[1..], id, action, updatedBy);
    }
  }

  /** The supervisor's copy agrees with the record the server stores after
      the same approve or reject, except for the server's timestamp. */
  lemma MarkMatchesServer(o: Orders.Order, action: string, name: string, now: int)
    requires o.status == Orders.Pending
    ensures Mark(o, o.id, action, Some(name))
            == Orders.ResolvedRecord(o, action, name, now).(statusUpdatedAt := o.statusUpdatedAt)
  {
  }

  // ---------------------------------------------------------------------------
  // Partition

  /** `orders.filter(o => o.status === 'pending')`. */
  function PendingOrders(orders: seq<Orders.Order>): (r: seq<Orders.Order>)
    ensures forall o :: o in r <==> o in orders && o.status == Orders.Pending
  {
    Orders.FilterSound(Orders.IsPending, orders);
    Orders.Filter(Orders.IsPending, orders)
  }

  /** `orders.filter(o => o.status !== 'pending')`. */
  function ResolvedOrders(orders: seq<Orders.Order>): (r: seq<Orders.Order>)
    ensures forall o :: o in r <==> o in orders && o.status != Orders.Pending
  {
    Orders.FilterSound(Orders.IsResolved, orders);
    Orders.Filter(Orders.IsResolved, orders)
  }

  /** The two lists split the orders: together they hold each order as often
      as `orders` does, and each order shows in exactly one of them. */
  lemma Partition(orders: seq<Orders.Order>)
    ensures multiset(PendingOrders(orders)) + multiset(ResolvedOrders(orders)) == multiset(orders)
    ensures forall o :: o in orders ==> (o in PendingOrders(orders) <==> o !in ResolvedOrders(orders))
  {
    Orders.FilterPartition(Orders.IsPending, Orders.IsResolved, orders);
  }

  // ---------------------------------------------------------------------------
  // Totals

  /** No item has a negative quantity or price. */
  predicate NonNegativeItems(items: seq<Orders.PricedItem>) {
    forall k :: 0 <= k < |items| ==> items[k].qty >= 0.0 && items[k].pricePerTon >= 0.0
  }

  /** `(order.items || []).reduce((s, i) => s + i.qty * (i.pricePerTon || 0), 0)`. */
  function MaterialTotal(items: seq<Orders.PricedItem>): (total: real)
    ensures NonNegativeItems(items) ==> total >= 0.0
  {
    if items == [] then 0.0
    else
      var init := items[..|items| - 1];
      assert NonNegativeItems(items) ==> NonNegativeItems(init) by {
        assert forall k :: 0 <= k < |init| ==> init[k] == items[k];
      }
      MaterialTotal(init) + items[|items| - 1].qty * items[|items| - 1].pricePerTon
  }

  /** The material total of two item lists is the sum of their totals. */
  lemma {:induction false} MaterialTotalAppend(a: seq<Orders.PricedItem>, b: seq<Orders.PricedItem>)
    ensures MaterialTotal(a + b) == MaterialTotal(a) + MaterialTotal(b)
    decreases |b|
  {
    if b == [] {
      assert a + b == a;
    } else {
      assert (a + b)[|a + b| - 1] == b[|b| - 1];
      assert (a + b)[..|a + b| - 1] == a + b[..|b| - 1];
      MaterialTotalAppend(a, b[..|b| - 1]);
    }
  }

  /** `total = materialTotal + (order.deliveryCostEstimate || 0)`. */
  function OrderTotal(o: Orders.Order): (total: real)
    ensures total - o.deliveryCostEstimate as real == MaterialTotal(o.items)
  {
    MaterialTotal(o.items) + o.deliveryCostEstimate as real
  }

  /** Every order the server creates costs at least the smallest delivery
      tier on top of its materials. */
  lemma NewOrderTotalIncludesDelivery(o: Orders.Order)
    requires o.deliveryCostEstimate == Orders.EstimateDeliveryCost(Orders.TotalTons(o.items))
    ensures OrderTotal(o) >= MaterialTotal(o.items) + 175.0
  {
  }

  // ---------------------------------------------------------------------------
  // Initials

  /** `parts.map(n => n[0]).join('')`: the first character of every
      non-empty part (an empty part yields `undefined`, which `join` writes
      as nothing). */
  function FirstLetters(parts: seq<string>): (r: string)
    ensures |r| <= |parts|
  {
    if parts == [] then ""
    else (if parts[0] != "" then [parts[0][0]] else "") + FirstLetters(parts[1..])
  }

  predicate Blank(s: string) {
    forall k :: 0 <= k < |s| ==> s[k] == ' '
  }

  /** A name has no initials exactly when it is only spaces. */
  lemma {:induction false} NoLettersIffBlank(s: string)
    ensures FirstLetters(Text.Split(s, ' ')) == "" <==> Blank(s)
    decreases |s|
  {
    if ' ' in s {
      var i := Text.IndexOf(s, ' ');
      var rest := s[i + 1..];
      NoLettersIffBlank(rest);
      assert Text.Split(s, ' ') == [s[..i]] + Text.Split(rest, ' ');
      assert ([s[..i]] + Text.Split(rest, ' '))[1..] == Text.Split(rest, ' ');
      if Blank(s) {
        assert s[0] == ' ';
        assert s[..i] == "";
        assert Blank(rest) by {
          forall k | 0 <= k < |rest| ensures rest[k] == ' ' {
            assert rest[k] == s[i + 1 + k];
          }
        }
      } else if s[..i] == "" {
        var k :| 0 <= k < |s| && s[k] != ' ';
        assert k != i && i == 0;
        assert rest[k - 1] == s[k];
      }
    } else {
      assert Text.Split(s, ' ') == [s];
      if s != "" {
        assert s[0] != ' ';
      }
    }
  }

  /** `user?.name?.split(' ').map(n => n[0]).join('').slice(0, 2).toUpperCase() || '?'`. */
  function Initials(name: Option<string>): (r: string)
    ensures 1 <= |r| <= 2
    ensures name.None? || Blank(name.value) ==> r == "?"
    ensures name.Some? && !Blank(name.value) ==>
              var letters := FirstLetters(Text.Split(name.value, ' '));
              letters != "" && r == Text.Upper(letters[..if |letters| < 2 then |letters| else 2])
  {
    if name.None? then "?"
    else
      var letters := FirstLetters(Text.Split(name.value, ' '));
      NoLettersIffBlank(name.value);
      if letters == "" then "?"
      else Text.Upper(letters[..if |letters| < 2 then |letters| else 2])
  }

  /** A first and last name give their two initials, upper-cased. */
  lemma TwoWordInitials(first: string, last: string)
    requires first != "" && last != "" && ' ' !in first && ' ' !in last
    ensures Initials(Some(first + " " + last)) == Text.Upper([first[0], last[0]])
  {
    var name := first + " " + last;
    Text.SplitJoin([first, last], ' ');
    assert Text.Join([first, last], ' ') == name;
    assert FirstLetters([first, last]) == [first[0], last[0]];
    assert name[0] == first[0] && name[0] != ' ';
  }

  // ---------------------------------------------------------------------------
  // The screen

  /** What a list fetch produced: the response's `orders` (absent when the
      body has none), or a failed request. */
  datatype FetchOutcome = Fetched(orders: Option<seq<Orders.Order>>) | FetchFailed

  /** `orders.find(o => o.id === id)`: the first order with the id. */
  function FindOrder(orders: seq<Orders.Order>, id: string): (r: Option<Orders.Order>)
    ensures r.Some? ==> r.value in orders && r.value.id == id
    ensures r.Some? ==> exists k :: 0 <= k < |orders| && orders[k] == r.value
                                    && forall j :: 0 <= j < k ==> orders[j].id != id
    ensures r.None? <==> forall k :: 0 <= k < |orders| ==> orders[k].id != id
  {
    if orders == [] then None
    else if orders[0].id == id then Some(orders[0])
    else
      var r := FindOrder(orders[1..], id);
      assert forall k :: 1 <= k < |orders| ==> orders[k] == orders[1..][k - 1];
      assert r.Some? ==> exists k :: 1 <= k < |orders| && orders[k] == r.value
                                     && forall j :: 0 <= j < k ==> orders[j].id != id by {
        if r.Some? {
          var k :| 0 <= k < |orders[1..]| && orders[1..][k] == r.value
                   && forall j :: 0 <= j < k ==> orders[1..][j].id != id;
          assert orders[k + 1] == r.value;
          assert forall j :: 0 <= j < k + 1 ==> orders[j].id != id;
        }
      }
      r
  }

  class SupervisorScreen {
    var orders: seq<Orders.Order>
    var ordersLoading: bool
    var selectedOrderId: Option<string>
    var isUnavailable: bool
    /** `user?.name`. */
    const userName: Option<string>

    /** `isUnavailable` starts as `user?.isAvailable === false`. */
    constructor (userName: Option<string>, isAvailable: Option<bool>)
      ensures this.userName == userName
      ensures orders == [] && ordersLoading && selectedOrderId.None?
      ensures isUnavailable <==> isAvailable == Some(false)
    {
      this.userName := userName;
      orders := [];
      ordersLoading := true;
      selectedOrderId := None;
      isUnavailable := isAvailable == Some(false);
    }

    /** `fetchOrders` once its request settles: `d.orders || []`, or
        nothing but the loading flag when it fails. */
    method OrdersFetched(outcome: FetchOutcome)
      modifies this`orders, this`ordersLoading
      ensures !ordersLoading
      ensures outcome.Fetched? ==> orders == outcome.orders.GetOr([])
      ensures outcome.FetchFailed? ==> orders == old(orders)
    {
      if outcome.Fetched? {
        orders := outcome.orders.GetOr([]);
      }
      ordersLoading := false;
    }

    /** Tapping an order in either list. */
    method SelectOrder(id: string)
      modifies this`selectedOrderId
      ensures selectedOrderId == Some(id)
    {
      selectedOrderId := Some(id);
    }

    /** The back button of the detail view. */
    method CloseDetail()
      modifies this`selectedOrderId
      ensures selectedOrderId.None?
    {
      selectedOrderId := None;
    }

    /** The detail view: the selected order, or, when it is not in the list,
        no view and the selection dropped. */
    method ShowDetail() returns (order: Option<Orders.Order>)
      requires Truthy(selectedOrderId)
      modifies this`selectedOrderId
      ensures order == FindOrder(orders, old(selectedOrderId).value)
      ensures order.None? ==> selectedOrderId.None?
      ensures order.Some? ==> selectedOrderId == old(selectedOrderId)
    {
      order := FindOrder(orders, selectedOrderId.value);
      if order.None? {
        selectedOrderId := None;
      }
    }

    /** `handleAction(orderId, action)`, offered only in the detail view of
        a pending order. `ok` is `res.ok`, false as well when the request
        throws. */
    method HandleAction(orderId: string, action: string, ok: bool)
      requires action == "approve" || action == "reject"
      requires selectedOrderId == Some(orderId)
      requires FindOrder(orders, orderId).Some? && FindOrder(orders, orderId).value.status == Orders.Pending
      modifies this`orders, this`selectedOrderId
      ensures ok ==> orders == MarkResolved(old(orders), orderId, action, userName) && selectedOrderId.None?
      ensures !ok ==> orders == old(orders) && selectedOrderId == old(selectedOrderId)
    {
      if ok {
        orders := MarkResolved(orders, orderId, action, userName);
        selectedOrderId := None;
      }
    }

    /** `toggleAvailability()`: flip first, send `isAvailable = !newVal`,
        flip back only when the request throws. */
    method ToggleAvailability(requestThrows: bool) returns (sentIsAvailable: bool)
      modifies this`isUnavailable
      ensures sentIsAvailable == old(isUnavailable)
      ensures isUnavailable == if requestThrows then old(isUnavailable) else !old(isUnavailable)
    {
      var newVal := !isUnavailable;
      isUnavailable := newVal;
      sentIsAvailable := !newVal;
      if requestThrows {
        isUnavailable := !newVal;
      }
    }
  }
}
