/**
 * The order collection and driver directory as one in-memory store, with
 * the site's request handlers as its methods: start-up seeding, the status
 * change, and the active and history listings.
 */
module Store {
  import opened Wrappers
  import opened Schema
  import opened Totals
  import opened Queries
  import opened Listing
  import opened Transitions
  import opened Seed

  class OrderStore {
    var orders: seq<Order>
    var drivers: seq<Driver>
    /** The identifier the next inserted order receives. */
    var nextId: OrderId

    /** The unique indexes hold. */
    ghost predicate Valid()
      reads this
    {
      && UniqueIds(orders)
      && UniqueConfirmations(orders)
      && UniquePlates(drivers)
    }

    /** An empty order collection beside a given driver directory. */
    constructor (drivers: seq<Driver>)
      requires UniquePlates(drivers)
      ensures Valid()
      ensures this.orders == [] && this.drivers == drivers
    {
      this.orders := [];
      this.drivers := drivers;
      this.nextId := 0;
    }

    /**
     * Start-up seeding: the six example orders go in only when the
     * collection is empty; otherwise nothing changes.
     */
    method SetupDatabase(now: int)
      requires Valid()
      modifies this`orders, this`nextId
      ensures Valid()
      ensures orders == Seeded(old(orders), now, old(nextId))
      ensures |old(orders)| == 0 ==> |orders| == 6 && AssignedWhenMoving(orders)
      ensures |old(orders)| > 0 ==> orders == old(orders) && nextId == old(nextId)
    {
      var orderCount := |orders|;
      if orderCount == 0 {
        orders := SeedOrders(now, nextId);
        nextId := nextId + 6;
      }
    }

    /**
     * The `/changeStatus` handler. Refusals leave the collection as it was;
     * success changes only the status of the order with `orderId`.
     */
    method ChangeStatus(orderId: OrderId, newStatus: string) returns (outcome: Outcome)
      requires Valid()
      modifies this`orders
      ensures Valid()
      ensures Change(outcome, orders) == StatusChange(old(orders), orderId, newStatus)
      ensures outcome != Ok ==> orders == old(orders)
      ensures outcome == Ok ==>
        (exists k :: 0 <= k < |orders| && old(orders)[k].id == orderId
          && ParseStatus(newStatus) == Some(orders[k].status)
          && orders == old(orders)[k := old(orders)[k].(status := orders[k].status)])
      ensures AssignedWhenMoving(old(orders)) ==> AssignedWhenMoving(orders)
    {
      ghost var wasAssigned := AssignedWhenMoving(orders);
      if wasAssigned {
        StatusChangeKeepsAssignment(orders, orderId, newStatus);
      }
      var found := FindById(orders, orderId);
      if found.None? {
        return NotFound;
      }
      var k := found.value;
      var order := orders[k];
      if newStatus == "IN TRANSIT" || newStatus == "DELIVERED" {
        if order.assignedTo == "" {
          return InvalidTransition;
        }
      }
      var s := ParseStatus(newStatus);
      if s.None? {
        return ValidationFailed;
      }
      orders := orders[k := order.(status := s.value)];
      outcome := Ok;
    }

    /**
     * The `/` handler: the active orders, oldest first, each with its
     * display date, total, status flags and matched driver, and whether
     * the page is empty.
     */
    method ListActive() returns (views: seq<OrderView>, isEmptyOrders: bool)
      ensures views == ActiveListing(orders, drivers)
      ensures isEmptyOrders <==> views == []
      ensures isEmptyOrders <==> forall i :: 0 <= i < |orders| ==> orders[i].status == Delivered
    {
      var fetched := ActiveOrders(orders);
      isEmptyOrders := |fetched| == 0;
      views := [];
      for i := 0 to |fetched|
        invariant |views| == i
        invariant forall k :: 0 <= k < i ==> views[k] == ActiveView(drivers, fetched[k])
      {
        var o := fetched[i];
        var total := CalculateOrderTotal(o.itemsOrdered);
        var flags := StatusFlagsOf(o);
        var driver := DriverInfoOf(drivers, o);
        views := views + [OrderView(o, FormatDate(o.orderDateTime), total, Some(flags), driver)];
      }
      QueryEmpty(orders, false);
    }

    /**
     * The `/order-history` handler: the delivered orders, oldest first,
     * each with its display date, total and matched driver, and whether
     * the page is empty.
     */
    method ListHistory() returns (views: seq<OrderView>, isEmptyOrders: bool)
      ensures views == HistoryListing(orders, drivers)
      ensures isEmptyOrders <==> views == []
      ensures isEmptyOrders <==> forall i :: 0 <= i < |orders| ==> orders[i].status != Delivered
    {
      var fetched := DeliveredOrders(orders);
      isEmptyOrders := |fetched| == 0;
      views := [];
      for i := 0 to |fetched|
        invariant |views| == i
        invariant forall k :: 0 <= k < i ==> views[k] == HistoryView(drivers, fetched[k])
      {
        var o := fetched[i];
        var total := CalculateOrderTotal(o.itemsOrdered);
        var driver := DriverInfoOf(drivers, o);
        views := views + [OrderView(o, FormatDate(o.orderDateTime), total, None, driver)];
      }
      QueryEmpty(orders, true);
    }
  }
}
