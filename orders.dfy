/** The order workflow of the `proportal-orders` serverless handler: the
    delivery-cost tiers, the order list a caller may see and its
    pending-first ordering, order submission with its validation and
    pricing, and the one-way approve/reject transition.

    The database is modelled as follows: the orders collection is the map
    `OrderStore.docs` from id to order; the query-and-sort of the list
    request is a parameter `find`; the project, material and supervisor
    lookups of a submission are parameters holding what the database
    returned. */
module Orders {
  import opened Common
  import Auth

  // ---------------------------------------------------------------------------
  // Delivery cost

  /** `estimateDeliveryCost(totalTons)`: a flat charge per load-size tier. */
  function EstimateDeliveryCost(totalTons: real): (cost: int)
    ensures totalTons <= 15.0 ==> cost == 175
    ensures 15.0 < totalTons <= 24.0 ==> cost == 260
    ensures 24.0 < totalTons <= 48.0 ==> cost == 520
    ensures 48.0 < totalTons <= 96.0 ==> cost == 780
    ensures 96.0 < totalTons ==> cost == 1100
  {
    if totalTons <= 15.0 then 175
    else if totalTons <= 24.0 then 260
    else if totalTons <= 48.0 then 520
    else if totalTons <= 96.0 then 780
    else 1100
  }

  /** More tons never cost less to deliver. */
  lemma DeliveryCostMonotone(a: real, b: real)
    requires a <= b
    ensures EstimateDeliveryCost(a) <= EstimateDeliveryCost(b)
  {
  }

  // ---------------------------------------------------------------------------
  // Orders

  datatype OrderStatus = Pending | Approved | Rejected

  /** An item as the foreman submits it. */
  datatype ItemIn = ItemIn(materialId: string, name: string, nameEs: string, qty: real)

  /** An item as stored, with its catalog price. */
  datatype PricedItem = PricedItem(materialId: string, name: string, nameEs: string, qty: real, pricePerTon: real)

  /** A stored order, which is also what `formatOrder` sends to clients. */
  datatype Order = Order(
    id: string,
    contractorId: string,
    projectId: string,
    projectName: string,
    po: string,
    foremanId: string,
    foremanName: string,
    supervisorId: Option<string>,
    items: seq<PricedItem>,
    deliveryDate: string,
    notes: string,
    deliveryCostEstimate: int,
    status: OrderStatus,
    statusUpdatedAt: Option<int>,
    statusUpdatedBy: Option<string>,
    createdAt: int)

  predicate IsPending(o: Order) { o.status == Pending }
  predicate IsResolved(o: Order) { o.status != Pending }

  /** `action === 'approve' ? 'approved' : 'rejected'`. */
  function ActionStatus(action: string): (s: OrderStatus)
    ensures s != Pending
    ensures s == Approved <==> action == "approve"
  {
    if action == "approve" then Approved else Rejected
  }

  // ---------------------------------------------------------------------------
  // Order-preserving filters

  /** `s.filter(p)`. */
  function Filter<T>(p: T -> bool, s: seq<T>): (r: seq<T>)
    ensures |r| <= |s|
  {
    if s == [] then []
    else if p(s[0]) then [s[0]] + Filter(p, s[1..])
    else Filter(p, s[1..])
  }

  /** A filter keeps exactly the elements of its input that pass. */
  lemma {:induction false} FilterSound<T>(p: T -> bool, s: seq<T>)
    ensures forall x :: x in Filter(p, s) <==> x in s && p(x)
  {
    if s != [] {
      FilterSound(p, s[1..]);
      assert s == [s[0]] + s[1..];
    }
  }

  lemma {:induction false} FilterConcat<T>(p: T -> bool, a: seq<T>, b: seq<T>)
    ensures Filter(p, a + b) == Filter(p, a) + Filter(p, b)
  {
    if a == [] {
      assert a + b == b;
    } else {
      assert (a + b)[0] == a[0];
      assert (a + b)[1..] == a[1..] + b;
      FilterConcat(p, a[1..], b);
      if p(a[0]) {
        assert Filter(p, a + b) == [a[0]] + Filter(p, a[1..] + b);
        assert Filter(p, a) == [a[0]] + Filter(p, a[1..]);
      }
    }
  }

  /** Filtering what already passes changes nothing. */
  lemma {:induction false} FilterOfPassing<T>(p: T -> bool, s: seq<T>)
    requires forall x :: x in s ==> p(x)
    ensures Filter(p, s) == s
  {
    if s != [] {
      FilterOfPassing(p, s[1..]);
    }
  }

  /** Filtering what all fails leaves nothing. */
  lemma {:induction false} FilterOfFailing<T>(p: T -> bool, s: seq<T>)
    requires forall x :: x in s ==> !p(x)
    ensures Filter(p, s) == []
  {
    if s != [] {
      FilterOfFailing(p, s[1..]);
    }
  }

  /** A filter and its complement split the multiset of elements. */
  lemma {:induction false} FilterPartition<T>(p: T -> bool, q: T -> bool, s: seq<T>)
    requires forall x :: q(x) == !p(x)
    ensures multiset(Filter(p, s)) + multiset(Filter(q, s)) == multiset(s)
  {
    if s != [] {
      FilterPartition(p, q, s[1..]);
      assert s == [s[0]] + s[1..];
      assert multiset(s) == multiset{s[0]} + multiset(s[1..]);
      assert q(s[0]) == !p(s[0]);
      if p(s[0]) {
        assert Filter(p, s) == [s[0]] + Filter(p, s[1..]);
        assert Filter(q, s) == Filter(q, s[1..]);
      } else {
        assert Filter(p, s) == Filter(p, s[1..]);
        assert Filter(q, s) == [s[0]] + Filter(q, s[1..]);
      }
    }
  }

  // ---------------------------------------------------------------------------
  // List request

  /** Whose orders a list request returns. */
  datatype Query = ByForeman(foremanId: string) | ByContractor(contractorId: string)

  /** `view = queryStringParameters?.view || user.role`; a foreman view or a
      foreman caller gets their own orders, anyone else their contractor's. */
  function QueryFor(view: Option<string>, user: Auth.Claims): (q: Query)
    ensures q.ByForeman? <==> (Truthy(view) && view.value == "foreman") || user.role == "foreman"
    ensures q.ByForeman? ==> q.foremanId == user.userId
    ensures q.ByContractor? ==> q.contractorId == user.contractorId
  {
    var v := if Truthy(view) then view.value else user.role;
    if v == "foreman" || user.role == "foreman" then ByForeman(user.userId)
    else ByContractor(user.contractorId)
  }

  /** The re-sort after the database query: pending orders first. It is a
      permutation of the fetched list. */
  function PendingFirst(orders: seq<Order>): (r: seq<Order>)
    ensures multiset(r) == multiset(orders)
    ensures |r| == |orders|
  {
    FilterPartition(IsPending, IsResolved, orders);
    assert |multiset(orders)| == |orders|;
    Filter(IsPending, orders) + Filter(IsResolved, orders)
  }

  /** Every pending order comes before every resolved one. */
  lemma PendingFirstOrdered(orders: seq<Order>)
    ensures forall i, j :: 0 <= i < j < |PendingFirst(orders)| && IsPending(PendingFirst(orders)[j])
              ==> IsPending(PendingFirst(orders)[i])
  {
    var a, b := Filter(IsPending, orders), Filter(IsResolved, orders);
    var r := PendingFirst(orders);
    FilterSound(IsPending, orders);
    FilterSound(IsResolved, orders);
    assert forall k :: |a| <= k < |r| ==> r[k] == b[k - |a|] && b[k - |a|] in b;
    assert forall k :: 0 <= k < |a| ==> r[k] == a[k] && a[k] in a;
  }

  /** Within each group the fetched order is kept. */
  lemma PendingFirstStable(orders: seq<Order>)
    ensures Filter(IsPending, PendingFirst(orders)) == Filter(IsPending, orders)
    ensures Filter(IsResolved, PendingFirst(orders)) == Filter(IsResolved, orders)
  {
    var a, b := Filter(IsPending, orders), Filter(IsResolved, orders);
    FilterSound(IsPending, orders);
    FilterSound(IsResolved, orders);
    FilterConcat(IsPending, a, b);
    FilterConcat(IsResolved, a, b);
    FilterOfPassing(IsPending, a);
    FilterOfFailing(IsPending, b);
    FilterOfFailing(IsResolved, a);
    FilterOfPassing(IsResolved, b);
  }

  /** The GET branch: foremen and supervisors only; the fetched list comes
      back pending first. `find` is the database query with its sort. */
  function ListOrders(header: string, decode: string -> Option<Auth.Claims>, view: Option<string>,
                      find: Query -> seq<Order>): (r: Reply<seq<Order>>)
    ensures Auth.VerifyToken(header, Some(["foreman", "supervisor"]), decode).Denied? ==>
              r == Error(401, Auth.VerifyToken(header, Some(["foreman", "supervisor"]), decode).error)
    ensures Auth.VerifyToken(header, Some(["foreman", "supervisor"]), decode).Authorized? ==>
              var user := Auth.VerifyToken(header, Some(["foreman", "supervisor"]), decode).user;
              r.Ok? && r.status == 200
              && multiset(r.value) == multiset(find(QueryFor(view, user)))
              && r.value == PendingFirst(find(QueryFor(view, user)))
  {
    match Auth.VerifyToken(header, Some(["foreman", "supervisor"]), decode)
    case Denied(e) => Error(401, e)
    case Authorized(user) =>
      Ok(200, PendingFirst(find(QueryFor(view, user))))
  }

  // ---------------------------------------------------------------------------
  // Submission

  /** The JSON body of a submission; an absent field is `None`. */
  datatype SubmitBody = SubmitBody(
    action: Option<string>,
    projectId: Option<string>,
    items: Option<seq<ItemIn>>,
    deliveryDate: Option<string>,
    notes: Option<string>)

  /** The 400 checks of a submission, in the handler's order. */
  function SubmitError(b: SubmitBody): (e: Option<string>)
    ensures e == Some("Unknown action") <==> b.action != Some("submit")
    ensures e == Some("Missing required fields") <==>
              b.action == Some("submit")
              && (!Truthy(b.projectId) || b.items.None? || b.items.value == [] || !Truthy(b.deliveryDate))
    ensures e.None? ==> Truthy(b.projectId) && b.items.Some? && b.items.value != [] && Truthy(b.deliveryDate)
  {
    if b.action != Some("submit") then Some("Unknown action")
    else if !Truthy(b.projectId) || b.items.None? || b.items.value == [] || !Truthy(b.deliveryDate) then
      Some("Missing required fields")
    else None
  }

  datatype Project = Project(name: string, po: string)

  /** A material document from the catalog query: its id and price. */
  datatype MaterialDoc = MaterialDoc(id: string, pricePerTon: real)

  /** The price the last document with `id` carries, if any. */
  function LastPrice(docs: seq<MaterialDoc>, id: string): (r: Option<real>)
    ensures r.None? <==> forall k :: 0 <= k < |docs| ==> docs[k].id != id
  {
    if docs == [] then None
    else if docs[|docs| - 1].id == id then Some(docs[|docs| - 1].pricePerTon)
    else
      var init := docs[..|docs| - 1];
      assert forall k :: 0 <= k < |init| ==> init[k] == docs[k];
      LastPrice(init, id)
  }

  /** A found price is that of the last document carrying the id. */
  lemma {:induction false} LastPriceIsLast(docs: seq<MaterialDoc>, id: string)
    requires LastPrice(docs, id).Some?
    ensures exists k :: 0 <= k < |docs| && docs[k].id == id && docs[k].pricePerTon == LastPrice(docs, id).value
                        && forall j :: k < j < |docs| ==> docs[j].id != id
  {
    var n := |docs| - 1;
    if docs[n].id != id {
      var init := docs[..n];
      LastPriceIsLast(init, id);
      var k :| 0 <= k < |init| && init[k].id == id && init[k].pricePerTon == LastPrice(init, id).value
               && forall j :: k < j < |init| ==> init[j].id != id;
      assert docs[k] == init[k];
      assert forall j :: k < j < n ==> docs[j] == init[j];
    }
  }

  /** The price map as a value: every id that occurs, with its last price. */
  function PriceMapOf(docs: seq<MaterialDoc>): (m: map<string, real>)
    ensures forall id :: id in m <==> LastPrice(docs, id).Some?
    ensures forall id :: id in m ==> m[id] == LastPrice(docs, id).value
  {
    LastPriceFoundAll(docs);
    map id | id in (set d | d in docs :: d.id) :: LastPrice(docs, id).GetOr(0.0)
  }

  lemma LastPriceFoundAll(docs: seq<MaterialDoc>)
    ensures forall id :: LastPrice(docs, id).Some? <==> id in (set d | d in docs :: d.id)
  {
    forall id ensures LastPrice(docs, id).Some? <==> id in (set d | d in docs :: d.id) {
      LastPriceFound(docs, id);
    }
  }

  lemma {:induction false} LastPriceFound(docs: seq<MaterialDoc>, id: string)
    ensures LastPrice(docs, id).Some? <==> id in (set d | d in docs :: d.id)
  {
    if docs != [] {
      var init := docs[..|docs| - 1];
      LastPriceFound(init, id);
      assert docs == init + [docs[|docs| - 1]];
      assert (set d | d in docs :: d.id) == (set d | d in init :: d.id) + {docs[|docs| - 1].id};
    }
  }

  /** `materialDocs.forEach(m => { priceMap[m._id.toString()] = m.pricePerTon })`. */
  method BuildPriceMap(docs: seq<MaterialDoc>) returns (priceMap: map<string, real>)
    ensures priceMap == PriceMapOf(docs)
    ensures forall id :: id in priceMap <==> LastPrice(docs, id).Some?
  {
    priceMap := map[];
    var i := 0;
    while i < |docs|
      invariant 0 <= i <= |docs|
      invariant forall id :: id in priceMap <==> LastPrice(docs[..i], id).Some?
      invariant forall id :: id in priceMap ==> priceMap[id] == LastPrice(docs[..i], id).value
    {
      assert docs[..i + 1][..i] == docs[..i];
      priceMap := priceMap[docs[i].id := docs[i].pricePerTon];
      i := i + 1;
    }
    assert docs[..i] == docs;
    forall id ensures id in priceMap <==> id in PriceMapOf(docs) {
      LastPriceFound(docs, id);
    }
  }

  /** One submitted item with its price: `priceMap[materialId] || 0`, and
      `nameEs || name`. */
  function PriceItem(i: ItemIn, priceMap: map<string, real>): (p: PricedItem)
    ensures p.materialId == i.materialId && p.name == i.name && p.qty == i.qty
    ensures p.nameEs == OrElse(i.nameEs, i.name)
    ensures p.pricePerTon == if i.materialId in priceMap then priceMap[i.materialId] else 0.0
  {
    var price := if i.materialId in priceMap && priceMap[i.materialId] != 0.0 then priceMap[i.materialId] else 0.0;
    PricedItem(i.materialId, i.name, OrElse(i.nameEs, i.name), i.qty, price)
  }

  /** `items.map(...)` pricing every item. */
  function PriceItems(items: seq<ItemIn>, priceMap: map<string, real>): (r: seq<PricedItem>)
    ensures |r| == |items|
    ensures forall k :: 0 <= k < |items| ==> r[k] == PriceItem(items[k], priceMap)
  {
    seq(|items|, k requires 0 <= k < |items| => PriceItem(items[k], priceMap))
  }

  /** An item's price is its catalog document's (the last one with its id),
      or 0 when the catalog query did not return it. */
  lemma PricedFromCatalog(items: seq<ItemIn>, docs: seq<MaterialDoc>, k: nat)
    requires k < |items|
    ensures PriceItems(items, PriceMapOf(docs))[k].pricePerTon
            == LastPrice(docs, items[k].materialId).GetOr(0.0)
  {
    LastPriceFound(docs, items[k].materialId);
  }

  /** `items.reduce((s, i) => s + i.qty, 0)`. */
  function TotalTons(items: seq<PricedItem>): (total: real)
    ensures (forall k :: 0 <= k < |items| ==> items[k].qty >= 0.0) ==> total >= 0.0
  {
    if items == [] then 0.0 else TotalTons(items[..|items| - 1]) + items[|items| - 1].qty
  }

  lemma {:induction false} TotalTonsAppend(a: seq<PricedItem>, b: seq<PricedItem>)
    ensures TotalTons(a + b) == TotalTons(a) + TotalTons(b)
    decreases |b|
  {
    if b == [] {
      assert a + b == a;
    } else {
      assert (a + b)[|a + b| - 1] == b[|b| - 1];
      assert (a + b)[..|a + b| - 1] == a + b[..|b| - 1];
      TotalTonsAppend(a, b[..|b| - 1]);
    }
  }

  /** The order record a valid submission inserts. */
  function NewOrder(user: Auth.Claims, body: SubmitBody, project: Project, priceMap: map<string, real>,
                    supervisorId: Option<string>, id: string, now: int): (o: Order)
    requires SubmitError(body).None?
    ensures o.id == id && o.status == Pending
    ensures o.contractorId == user.contractorId && o.foremanId == user.userId && o.foremanName == user.name
    ensures o.projectId == body.projectId.value && o.projectName == project.name && o.po == project.po
    ensures o.items == PriceItems(body.items.value, priceMap)
    ensures o.deliveryCostEstimate == EstimateDeliveryCost(TotalTons(o.items))
    ensures o.notes == OrElse(body.notes.GetOr(""), "")
    ensures o.deliveryDate == body.deliveryDate.value && o.createdAt == now
    ensures o.supervisorId == supervisorId && o.statusUpdatedAt.None? && o.statusUpdatedBy.None?
  {
    var items := PriceItems(body.items.value, priceMap);
    Order(id, user.contractorId, body.projectId.value, project.name, project.po, user.userId, user.name,
          supervisorId, items, body.deliveryDate.value, OrElse(body.notes.GetOr(""), ""),
          EstimateDeliveryCost(TotalTons(items)), Pending, None, None, now)
  }

  /** The JSON body of an approve/reject request. */
  datatype ResolveBody = ResolveBody(action: Option<string>, orderId: Option<string>)

  /** The 400 checks of an approve/reject request, in the handler's order. */
  function ResolveError(b: ResolveBody): (e: Option<string>)
    ensures e == Some("Unknown action") <==> !(b.action == Some("approve") || b.action == Some("reject"))
    ensures e == Some("orderId required") <==>
              (b.action == Some("approve") || b.action == Some("reject")) && !Truthy(b.orderId)
    ensures e.None? ==> b.action.Some? && Truthy(b.orderId)
  {
    if !(b.action == Some("approve") || b.action == Some("reject")) then Some("Unknown action")
    else if !Truthy(b.orderId) then Some("orderId required")
    else None
  }

  /** The stored order after the `$set` of an approve or reject by `name` at
      time `now`: the status, time and name change and nothing else. */
  function ResolvedRecord(o: Order, action: string, name: string, now: int): (r: Order)
    ensures r.status == ActionStatus(action) && r.statusUpdatedAt == Some(now) && r.statusUpdatedBy == Some(name)
    ensures r.(status := o.status, statusUpdatedAt := o.statusUpdatedAt, statusUpdatedBy := o.statusUpdatedBy) == o
  {
    o.(status := ActionStatus(action), statusUpdatedAt := Some(now), statusUpdatedBy := Some(name))
  }

  /** The update filter: the order exists, belongs to the caller's
      contractor and is still pending. */
  predicate Resolvable(docs: map<string, Order>, orderId: string, contractorId: string) {
    orderId in docs && docs[orderId].contractorId == contractorId && docs[orderId].status == Pending
  }

  /** The orders collection. */
  class OrderStore {
    var docs: map<string, Order>

    predicate Valid()
      reads this
    {
      forall id :: id in docs ==> docs[id].id == id
    }

    constructor ()
      ensures Valid() && docs == map[]
    {
      docs := map[];
    }

    /** POST: a foreman submits an order. `projects` holds the project
        lookup, `materialDocs` what the catalog query returned for the
        items' ids, `supervisorId` the available supervisor found (if any),
        `newId` the id the database assigns and `now` the clock. */
    method Submit(header: string, decode: string -> Option<Auth.Claims>, body: SubmitBody,
                  projects: map<string, Project>, materialDocs: seq<MaterialDoc>,
                  supervisorId: Option<string>, newId: string, now: int) returns (resp: Reply<string>)
      requires Valid() && newId !in docs
      modifies this
      ensures Valid()
      ensures var auth := Auth.VerifyToken(header, Some(["foreman"]), decode);
              if auth.Denied? then resp == Error(401, auth.error) && docs == old(docs)
              else if SubmitError(body).Some? then resp == Error(400, SubmitError(body).value) && docs == old(docs)
              else if body.projectId.value !in projects then resp == Error(404, "Project not found") && docs == old(docs)
              else resp == Ok(201, newId)
                   && docs == old(docs)[newId := NewOrder(auth.user, body, projects[body.projectId.value],
                                                          PriceMapOf(materialDocs), supervisorId, newId, now)]
    {
      var auth := Auth.VerifyToken(header, Some(["foreman"]), decode);
      if auth.Denied? {
        return Error(401, auth.error);
      }
      var err := SubmitError(body);
      if err.Some? {
        return Error(400, err.value);
      }
      if body.projectId.value !in projects {
        return Error(404, "Project not found");
      }
      var priceMap := BuildPriceMap(materialDocs);
      var order := NewOrder(auth.user, body, projects[body.projectId.value], priceMap, supervisorId, newId, now);
      docs := docs[newId := order];
      resp := Ok(201, newId);
    }

    /** PATCH: a supervisor approves or rejects a pending order of their
        contractor; anything else is refused and changes nothing. */
    method Resolve(header: string, decode: string -> Option<Auth.Claims>, body: ResolveBody, now: int)
      returns (resp: Reply<OrderStatus>)
      requires Valid()
      modifies this
      ensures Valid()
      ensures docs.Keys == old(docs).Keys
      ensures forall id :: id in old(docs) && IsResolved(old(docs)[id]) ==> docs[id] == old(docs)[id]
      ensures var auth := Auth.VerifyToken(header, Some(["supervisor"]), decode);
              if auth.Denied? then resp == Error(401, auth.error) && docs == old(docs)
              else if ResolveError(body).Some? then resp == Error(400, ResolveError(body).value) && docs == old(docs)
              else if !Resolvable(old(docs), body.orderId.value, auth.user.contractorId) then
                resp == Error(404, "Order not found or already resolved") && docs == old(docs)
              else
                var id := body.orderId.value;
                resp == Ok(200, ActionStatus(body.action.value))
                && docs == old(docs)[id := ResolvedRecord(old(docs)[id], body.action.value, auth.user.name, now)]
    {
      var auth := Auth.VerifyToken(header, Some(["supervisor"]), decode);
      if auth.Denied? {
        return Error(401, auth.error);
      }
      var err := ResolveError(body);
      if err.Some? {
        return Error(400, err.value);
      }
      var newStatus := ActionStatus(body.action.value);
      var id := body.orderId.value;
      if !Resolvable(docs, id, auth.user.contractorId) {
        return Error(404, "Order not found or already resolved");
      }
      docs := docs[id := ResolvedRecord(docs[id], body.action.value, auth.user.name, now)];
      resp := Ok(200, newStatus);
    }
  }
}
