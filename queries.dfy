/**
 * The database queries the request handlers issue: lookup of an order by
 * identifier, lookup of a driver by license plate, the two status filters
 * and the ascending sort on `orderDateTime`. Lookups return the first
 * match in collection order.
 */
module Queries {
  import opened Wrappers
  import opened Schema

  /** The position of the order with identifier `id`, if any. */
  function FindById(orders: seq<Order>, id: OrderId): (r: Option<nat>)
    ensures r.Some? ==> r.value < |orders| && orders[r.value].id == id
    ensures r.Some? ==> forall j :: 0 <= j < r.value ==> orders[j].id != id
    ensures r.None? <==> forall j :: 0 <= j < |orders| ==> orders[j].id != id
  {
    if |orders| == 0 then None
    else if orders[0].id == id then Some(0)
    else match FindById(orders[1..], id)
      case None => None
      case Some(k) => Some(k + 1)
  }

  /** With unique identifiers, the lookup finds the one order that has it. */
  lemma FindByIdUnique(orders: seq<Order>, k: nat)
    requires UniqueIds(orders) && k < |orders|
    ensures FindById(orders, orders[k].id) == Some(k)
  {
  }

  /** A driver whose license plate is `plate`, if any. */
  function FindDriver(drivers: seq<Driver>, plate: string): (r: Option<Driver>)
    ensures r.Some? ==> r.value in drivers && r.value.licensePlate == plate
    ensures r.None? <==> forall d :: d in drivers ==> d.licensePlate != plate
  {
    if |drivers| == 0 then None
    else if drivers[0].licensePlate == plate then Some(drivers[0])
    else FindDriver(drivers[1..], plate)
  }

  /** With unique plates, the lookup finds exactly the driver holding the plate. */
  lemma FindDriverUnique(drivers: seq<Driver>, k: nat)
    requires UniquePlates(drivers) && k < |drivers|
    ensures FindDriver(drivers, drivers[k].licensePlate) == Some(drivers[k])
  {
    var r := FindDriver(drivers, drivers[k].licensePlate);
    var j :| 0 <= j < |drivers| && drivers[j] == r.value;
    if j < k {
      assert drivers[j].licensePlate != drivers[k].licensePlate;
    } else if k < j {
      assert drivers[k].licensePlate != drivers[j].licensePlate;
    }
  }

  /**
   * The orders whose status is DELIVERED (`delivered`) or is not DELIVERED
   * (`!delivered`), in collection order.
   */
  function WhereDelivered(orders: seq<Order>, delivered: bool): (r: seq<Order>)
    ensures forall o :: o in r <==> o in orders && (o.status == Delivered) == delivered
  {
    if |orders| == 0 then []
    else
      assert orders == [orders[0]] + orders[1..];
      var rest := WhereDelivered(orders[1..], delivered);
      if (orders[0].status == Delivered) == delivered then [orders[0]] + rest else rest
  }

  /** The two filters split the collection: every order lands in exactly one. */
  lemma {:induction false} WhereDeliveredPartition(orders: seq<Order>)
    ensures multiset(WhereDelivered(orders, true)) + multiset(WhereDelivered(orders, false)) == multiset(orders)
  {
    if |orders| > 0 {
      var rest := orders[1..];
      WhereDeliveredPartition(rest);
      assert orders == [orders[0]] + rest;
      assert multiset(orders) == multiset{orders[0]} + multiset(rest);
      if orders[0].status == Delivered {
        assert WhereDelivered(orders, true) == [orders[0]] + WhereDelivered(rest, true);
        assert WhereDelivered(orders, false) == WhereDelivered(rest, false);
      } else {
        assert WhereDelivered(orders, true) == WhereDelivered(rest, true);
        assert WhereDelivered(orders, false) == [orders[0]] + WhereDelivered(rest, false);
      }
    }
  }

  predicate SortedByDate(s: seq<Order>)
  {
    forall i, j :: 0 <= i < j < |s| ==> s[i].orderDateTime <= s[j].orderDateTime
  }

  function InsertByDate(o: Order, s: seq<Order>): (r: seq<Order>)
    requires SortedByDate(s)
    ensures |r| == |s| + 1
    ensures r[0] == o || (|s| > 0 && r[0] == s[0])
    ensures SortedByDate(r)
    ensures multiset(r) == multiset(s) + multiset{o}
  {
    if |s| == 0 then [o]
    else if o.orderDateTime <= s[0].orderDateTime then [o] + s
    else
      assert s == [s[0]] + s[1..];
      var rest := InsertByDate(o, s[1..]);
      assert s[0].orderDateTime <= rest[0].orderDateTime;
      [s[0]] + rest
  }

  /**
   * The ascending sort on `orderDateTime`: a sorted permutation. The order
   * among equal timestamps is not fixed by the database and is not a
   * property of this model.
   */
  function SortByDate(s: seq<Order>): (r: seq<Order>)
    ensures SortedByDate(r)
    ensures multiset(r) == multiset(s)
  {
    if |s| == 0 then []
    else
      assert s == [s[0]] + s[1..];
      InsertByDate(s[0], SortByDate(s[1..]))
  }

  /** The active-page query: the orders not DELIVERED, oldest first. */
  function ActiveOrders(orders: seq<Order>): (r: seq<Order>)
    ensures SortedByDate(r)
    ensures multiset(r) == multiset(WhereDelivered(orders, false))
    ensures forall o :: o in r <==> o in orders && o.status != Delivered
  {
    var w := WhereDelivered(orders, false);
    var r := SortByDate(w);
    assert forall o :: o in r <==> o in multiset(w);
    r
  }

  /** The history-page query: the DELIVERED orders, oldest first. */
  function DeliveredOrders(orders: seq<Order>): (r: seq<Order>)
    ensures SortedByDate(r)
    ensures multiset(r) == multiset(WhereDelivered(orders, true))
    ensures forall o :: o in r <==> o in orders && o.status == Delivered
  {
    var w := WhereDelivered(orders, true);
    var r := SortByDate(w);
    assert forall o :: o in r <==> o in multiset(w);
    r
  }

  /** Each row of either query is a stored order of the status asked for. */
  lemma QueryRow(orders: seq<Order>, delivered: bool, i: nat)
    requires i < |SortByDate(WhereDelivered(orders, delivered))|
    ensures SortByDate(WhereDelivered(orders, delivered))[i] in orders
    ensures (SortByDate(WhereDelivered(orders, delivered))[i].status == Delivered) == delivered
  {
    var w := WhereDelivered(orders, delivered);
    assert SortByDate(w)[i] in multiset(w);
  }

  /** A query comes back empty exactly when no stored order has the status asked for. */
  lemma QueryEmpty(orders: seq<Order>, delivered: bool)
    ensures |SortByDate(WhereDelivered(orders, delivered))| == 0 <==>
      forall i :: 0 <= i < |orders| ==> (orders[i].status == Delivered) != delivered
  {
    var w := WhereDelivered(orders, delivered);
    assert |SortByDate(w)| == |multiset(SortByDate(w))| == |multiset(w)| == |w|;
    if |w| > 0 {
      assert w[0] in w;
    } else {
      forall i | 0 <= i < |orders|
        ensures (orders[i].status == Delivered) != delivered
      {
        assert orders[i] in orders;
      }
    }
  }

  /**
   * The active query returns exactly the orders not DELIVERED and the
   * history query exactly the DELIVERED ones, each sorted by date, and
   * together they hold every stored order once.
   */
  lemma ListingQueries(orders: seq<Order>)
    ensures SortedByDate(ActiveOrders(orders)) && SortedByDate(DeliveredOrders(orders))
    ensures forall o :: o in ActiveOrders(orders) <==> o in orders && o.status != Delivered
    ensures forall o :: o in DeliveredOrders(orders) <==> o in orders && o.status == Delivered
    ensures multiset(ActiveOrders(orders)) + multiset(DeliveredOrders(orders)) == multiset(orders)
  {
    WhereDeliveredPartition(orders);
    forall o
      ensures o in ActiveOrders(orders) <==> o in orders && o.status != Delivered
      ensures o in DeliveredOrders(orders) <==> o in orders && o.status == Delivered
    {
      assert o in ActiveOrders(orders) <==> o in multiset(WhereDelivered(orders, false));
      assert o in DeliveredOrders(orders) <==> o in multiset(WhereDelivered(orders, true));
    }
  }
}
