/**
 * The order and driver records of the delivery site, as declared by the
 * two document schemas, and the predicates over collections of them that
 * the rest of the model keeps.
 *
 * Money is counted in integer cents and timestamps in integer milliseconds.
 */
module Schema {
  import opened Wrappers

  /** The four values of the `status` enum on an order. */
  datatype Status = Received | ReadyForDelivery | InTransit | Delivered

  /** The stored text of each status value. */
  function StatusName(s: Status): string
  {
    match s
    case Received => "RECEIVED"
    case ReadyForDelivery => "READY FOR DELIVERY"
    case InTransit => "IN TRANSIT"
    case Delivered => "DELIVERED"
  }

  /**
   * The enum validation that runs when an order is saved: a text is a
   * status exactly when it is the name of one of the four values.
   */
  function ParseStatus(text: string): (r: Option<Status>)
    ensures r.Some? ==> StatusName(r.value) == text
    ensures r.None? ==> forall s: Status :: StatusName(s) != text
  {
    if text == "RECEIVED" then Some(Received)
    else if text == "READY FOR DELIVERY" then Some(ReadyForDelivery)
    else if text == "IN TRANSIT" then Some(InTransit)
    else if text == "DELIVERED" then Some(Delivered)
    else None
  }

  lemma ParseStatusName(s: Status)
    ensures ParseStatus(StatusName(s)) == Some(s)
  {
  }

  /** One line of `itemsOrdered`; `price` is in cents. */
  datatype LineItem = LineItem(name: string, quantity: int, price: int)

  /** Stands for the database-assigned document identifier. */
  type OrderId = nat

  /**
   * An order document. `assignedTo` is the license plate of the assigned
   * driver, or "" when the order is unassigned (the schema default).
   */
  datatype Order = Order(
    id: OrderId,
    customerName: string,
    deliveryAddress: string,
    itemsOrdered: seq<LineItem>,
    orderDateTime: int,
    status: Status,
    orderConfirmation: string,
    assignedTo: string)

  /** A driver document; the stored password is not part of this model. */
  datatype Driver = Driver(
    username: string,
    fullName: string,
    vehicleModel: string,
    color: string,
    licensePlate: string)

  /** The requested-status texts that need an assigned driver. */
  predicate NeedsDriver(newStatus: string)
  {
    newStatus == "IN TRANSIT" || newStatus == "DELIVERED"
  }

  /** The statuses an order may only hold once it is assigned. */
  predicate RequiresDriver(s: Status)
  {
    s == InTransit || s == Delivered
  }

  lemma NeedsDriverName(s: Status)
    ensures NeedsDriver(StatusName(s)) <==> RequiresDriver(s)
  {
  }

  predicate IsAssigned(o: Order)
  {
    o.assignedTo != ""
  }

  /** Every order in transit or delivered has a driver assigned. */
  predicate AssignedWhenMoving(orders: seq<Order>)
  {
    forall i :: 0 <= i < |orders| && RequiresDriver(orders[i].status) ==> IsAssigned(orders[i])
  }

  predicate UniqueIds(orders: seq<Order>)
  {
    forall i, j :: 0 <= i < j < |orders| ==> orders[i].id != orders[j].id
  }

  /** The unique index on `orderConfirmation`. */
  predicate UniqueConfirmations(orders: seq<Order>)
  {
    forall i, j :: 0 <= i < j < |orders| ==> orders[i].orderConfirmation != orders[j].orderConfirmation
  }

  /** The unique index on a driver's `licensePlate`. */
  predicate UniquePlates(drivers: seq<Driver>)
  {
    forall i, j :: 0 <= i < j < |drivers| ==> drivers[i].licensePlate != drivers[j].licensePlate
  }
}
