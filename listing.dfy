/**
 * What the two listing pages show for each fetched order: the fields the
 * handlers attach to it (display date, total, status flags on the active
 * page, and the matched driver's name and plate).
 */
module Listing {
  import opened Wrappers
  import opened Schema
  import opened Totals
  import opened Queries

  /** The display form of an order's date: the stored value, unchanged. */
  function FormatDate(orderDateTime: int): (r: int)
    ensures r == orderDateTime
  {
    orderDateTime
  }

  datatype StatusFlags = StatusFlags(isReceived: bool, isDelivered: bool, isAssigned: bool)

  datatype DriverInfo = DriverInfo(driverName: string, driverLicensePlate: string)

  /**
   * A fetched order with the fields a listing attaches to it. `flags` is
   * absent on the history page; `driver` is absent when no driver matches.
   */
  datatype OrderView = OrderView(
    order: Order,
    formattedOrderDateTime: int,
    orderTotal: int,
    flags: Option<StatusFlags>,
    driver: Option<DriverInfo>)

  /** The booleans the active page derives from an order's status and assignment. */
  function StatusFlagsOf(o: Order): (r: StatusFlags)
    ensures r.isReceived <==> o.status == Received
    ensures r.isDelivered <==> o.status == Delivered
    ensures r.isAssigned <==> IsAssigned(o)
  {
    StatusFlags(o.status == Received, o.status == Delivered, o.assignedTo != "")
  }

  /**
   * The driver fields: present exactly when some driver's plate equals
   * `assignedTo`, and then naming that driver and repeating the plate.
   */
  function DriverInfoOf(drivers: seq<Driver>, o: Order): (r: Option<DriverInfo>)
    ensures r.Some? <==> exists d :: d in drivers && d.licensePlate == o.assignedTo
    ensures r.Some? ==> r.value.driverLicensePlate == o.assignedTo
    ensures r.Some? ==> exists d :: d in drivers && d.licensePlate == o.assignedTo && d.fullName == r.value.driverName
  {
    match FindDriver(drivers, o.assignedTo)
    case None => None
    case Some(d) => Some(DriverInfo(d.fullName, d.licensePlate))
  }

  /** One row of the active page. */
  function ActiveView(drivers: seq<Driver>, o: Order): (v: OrderView)
    ensures v.order == o && v.formattedOrderDateTime == o.orderDateTime
    ensures v.orderTotal == Total(o.itemsOrdered)
    ensures v.flags.Some? && (v.flags.value.isReceived <==> o.status == Received)
    ensures v.flags.Some? && (v.flags.value.isDelivered <==> o.status == Delivered)
    ensures v.flags.Some? && (v.flags.value.isAssigned <==> IsAssigned(o))
    ensures v.driver.Some? <==> exists d :: d in drivers && d.licensePlate == o.assignedTo
    ensures v.driver.Some? ==> v.driver.value.driverLicensePlate == o.assignedTo
  {
    OrderView(o, FormatDate(o.orderDateTime), Total(o.itemsOrdered), Some(StatusFlagsOf(o)), DriverInfoOf(drivers, o))
  }

  /** One row of the history page: no status flags. */
  function HistoryView(drivers: seq<Driver>, o: Order): (v: OrderView)
    ensures v.order == o && v.formattedOrderDateTime == o.orderDateTime
    ensures v.orderTotal == Total(o.itemsOrdered)
    ensures v.flags.None?
    ensures v.driver.Some? <==> exists d :: d in drivers && d.licensePlate == o.assignedTo
    ensures v.driver.Some? ==> v.driver.value.driverLicensePlate == o.assignedTo
  {
    OrderView(o, FormatDate(o.orderDateTime), Total(o.itemsOrdered), None, DriverInfoOf(drivers, o))
  }

  /** The rows of the active page, one per active order, in query order. */
  function ActiveListing(orders: seq<Order>, drivers: seq<Driver>): (r: seq<OrderView>)
    ensures |r| == |ActiveOrders(orders)|
    ensures forall i :: 0 <= i < |r| ==> r[i].order == ActiveOrders(orders)[i]
    ensures forall i :: 0 <= i < |r| ==> r[i].formattedOrderDateTime == r[i].order.orderDateTime
    ensures forall i :: 0 <= i < |r| ==> r[i].orderTotal == Total(r[i].order.itemsOrdered)
    ensures forall i :: 0 <= i < |r| ==> r[i].flags == Some(StatusFlagsOf(r[i].order))
    ensures forall i :: 0 <= i < |r| ==> r[i].driver == DriverInfoOf(drivers, r[i].order)
  {
    var fetched := ActiveOrders(orders);
    seq(|fetched|, i requires 0 <= i < |fetched| => ActiveView(drivers, fetched[i]))
  }

  /** The rows of the history page, one per delivered order, in query order. */
  function HistoryListing(orders: seq<Order>, drivers: seq<Driver>): (r: seq<OrderView>)
    ensures |r| == |DeliveredOrders(orders)|
    ensures forall i :: 0 <= i < |r| ==> r[i].order == DeliveredOrders(orders)[i]
    ensures forall i :: 0 <= i < |r| ==> r[i].formattedOrderDateTime == r[i].order.orderDateTime
    ensures forall i :: 0 <= i < |r| ==> r[i].orderTotal == Total(r[i].order.itemsOrdered)
    ensures forall i :: 0 <= i < |r| ==> r[i].flags.None?
    ensures forall i :: 0 <= i < |r| ==> r[i].driver == DriverInfoOf(drivers, r[i].order)
  {
    var fetched := DeliveredOrders(orders);
    seq(|fetched|, i requires 0 <= i < |fetched| => HistoryView(drivers, fetched[i]))
  }

  /**
   * The active page lists exactly the orders that are not DELIVERED, for any
   * driver directory: a missing driver drops no row.
   */
  lemma ActiveListingExact(orders: seq<Order>, drivers: seq<Driver>, o: Order)
    ensures o in orders && o.status != Delivered <==>
      exists i :: 0 <= i < |ActiveListing(orders, drivers)| && ActiveListing(orders, drivers)[i].order == o
  {
    ListingQueries(orders);
    var r := ActiveListing(orders, drivers);
    var a := ActiveOrders(orders);
    if o in a {
      var i :| 0 <= i < |a| && a[i] == o;
      assert r[i].order == o;
    }
  }

  /** The active page is oldest first. */
  lemma ActiveListingOrdered(orders: seq<Order>, drivers: seq<Driver>, i: nat, j: nat)
    requires i <= j < |ActiveListing(orders, drivers)|
    ensures ActiveListing(orders, drivers)[i].order.orderDateTime <= ActiveListing(orders, drivers)[j].order.orderDateTime
  {
  }

  /** No row of the active page has `isDelivered` set. */
  lemma ActiveListingNeverDelivered(orders: seq<Order>, drivers: seq<Driver>, i: nat)
    requires i < |ActiveListing(orders, drivers)|
    ensures ActiveListing(orders, drivers)[i].flags.Some?
    ensures !ActiveListing(orders, drivers)[i].flags.value.isDelivered
  {
    QueryRow(orders, false, i);
  }

  /**
   * The history page lists exactly the DELIVERED orders, for any driver
   * directory: a missing driver drops no row.
   */
  lemma HistoryListingExact(orders: seq<Order>, drivers: seq<Driver>, o: Order)
    ensures o in orders && o.status == Delivered <==>
      exists i :: 0 <= i < |HistoryListing(orders, drivers)| && HistoryListing(orders, drivers)[i].order == o
  {
    ListingQueries(orders);
    var r := HistoryListing(orders, drivers);
    var h := DeliveredOrders(orders);
    if o in h {
      var i :| 0 <= i < |h| && h[i] == o;
      assert r[i].order == o;
    }
  }

  /** The history page is oldest first. */
  lemma HistoryListingOrdered(orders: seq<Order>, drivers: seq<Driver>, i: nat, j: nat)
    requires i <= j < |DeliveredOrders(orders)|
    ensures HistoryListing(orders, drivers)[i].order.orderDateTime <= HistoryListing(orders, drivers)[j].order.orderDateTime
  {
    var r := HistoryListing(orders, drivers);
    var h := DeliveredOrders(orders);
    assert r[i].order == h[i] && r[j].order == h[j];
    assert SortedByDate(h);
  }

  /** The two pages together show every stored order exactly once. */
  lemma ListingsPartitionStore(orders: seq<Order>, drivers: seq<Driver>)
    ensures |ActiveListing(orders, drivers)| + |HistoryListing(orders, drivers)| == |orders|
    ensures forall o :: o in orders ==> o in ActiveOrders(orders) || o in DeliveredOrders(orders)
  {
    ListingQueries(orders);
    assert |multiset(orders)| == |orders|;
  }

  /** With unique plates, a matched row names the driver who holds the plate. */
  lemma DriverInfoNamesHolder(drivers: seq<Driver>, o: Order, k: nat)
    requires UniquePlates(drivers) && k < |drivers| && drivers[k].licensePlate == o.assignedTo
    ensures DriverInfoOf(drivers, o) == Some(DriverInfo(drivers[k].fullName, drivers[k].licensePlate))
  {
    FindDriverUnique(drivers, k);
  }
}
