/**
 * The status-change rule: find the order, refuse IN TRANSIT and DELIVERED
 * for an unassigned order, then write the requested status, which the
 * schema's enum validation must accept. No forward-only ordering is
 * enforced.
 */
module Transitions {
  import opened Wrappers
  import opened Schema
  import opened Queries

  /**
   * The outcome of a status change: success, no such order (404), the
   * assignment guard refused it (400), or the enum validation on save
   * refused it (a 500 in the handler).
   */
  datatype Outcome = Ok | NotFound | InvalidTransition | ValidationFailed

  datatype Change = Change(outcome: Outcome, orders: seq<Order>)

  /** Whether the assignment guard refuses `newStatus` for order `o`. */
  predicate GuardRefuses(o: Order, newStatus: string)
  {
    NeedsDriver(newStatus) && !IsAssigned(o)
  }

  /** The collection after a status-change request, and its outcome. */
  function StatusChange(orders: seq<Order>, orderId: OrderId, newStatus: string): (r: Change)
    ensures |r.orders| == |orders|
    ensures r.outcome == NotFound <==> forall i :: 0 <= i < |orders| ==> orders[i].id != orderId
    ensures r.outcome == InvalidTransition <==>
      FindById(orders, orderId).Some? && GuardRefuses(orders[FindById(orders, orderId).value], newStatus)
    ensures r.outcome == ValidationFailed <==>
      FindById(orders, orderId).Some? && !GuardRefuses(orders[FindById(orders, orderId).value], newStatus)
      && ParseStatus(newStatus).None?
    ensures r.outcome != Ok ==> r.orders == orders
    ensures r.outcome == Ok ==> ParseStatus(newStatus).Some? && FindById(orders, orderId).Some?
    ensures r.outcome == Ok ==>
      var k := FindById(orders, orderId).value;
      r.orders[k].status == ParseStatus(newStatus).value && StatusName(r.orders[k].status) == newStatus
    ensures forall i :: 0 <= i < |orders| ==> r.orders[i] == orders[i].(status := r.orders[i].status)
    ensures forall i :: 0 <= i < |orders| && orders[i].id != orderId ==> r.orders[i] == orders[i]
    ensures r.outcome == Ok ==>
      forall i :: 0 <= i < |orders| && i != FindById(orders, orderId).value ==> r.orders[i] == orders[i]
  {
    match FindById(orders, orderId)
    case None => Change(NotFound, orders)
    case Some(k) =>
      if GuardRefuses(orders[k], newStatus) then Change(InvalidTransition, orders)
      else match ParseStatus(newStatus)
        case None => Change(ValidationFailed, orders)
        case Some(s) => Change(Ok, orders[k := orders[k].(status := s)])
  }

  /** A status change keeps "in transit or delivered implies assigned". */
  lemma StatusChangeKeepsAssignment(orders: seq<Order>, orderId: OrderId, newStatus: string)
    requires AssignedWhenMoving(orders)
    ensures AssignedWhenMoving(StatusChange(orders, orderId, newStatus).orders)
  {
    var r := StatusChange(orders, orderId, newStatus);
    if r.outcome == Ok {
      var k := FindById(orders, orderId).value;
      NeedsDriverName(r.orders[k].status);
    }
  }

  /**
   * Any status that needs no driver, including a backward move such as
   * DELIVERED to RECEIVED, is accepted for any existing order.
   */
  lemma NoDriverStatusAccepted(orders: seq<Order>, k: nat, s: Status)
    requires UniqueIds(orders) && k < |orders| && !RequiresDriver(s)
    ensures StatusChange(orders, orders[k].id, StatusName(s)) == Change(Ok, orders[k := orders[k].(status := s)])
  {
    FindByIdUnique(orders, k);
    ParseStatusName(s);
    NeedsDriverName(s);
  }

  /** An assigned order accepts every one of the four statuses. */
  lemma AssignedOrderAcceptsAny(orders: seq<Order>, k: nat, s: Status)
    requires UniqueIds(orders) && k < |orders| && IsAssigned(orders[k])
    ensures StatusChange(orders, orders[k].id, StatusName(s)) == Change(Ok, orders[k := orders[k].(status := s)])
  {
    FindByIdUnique(orders, k);
    ParseStatusName(s);
  }

  /** Repeating a successful change changes nothing more. */
  lemma StatusChangeIdempotent(orders: seq<Order>, orderId: OrderId, newStatus: string)
    requires StatusChange(orders, orderId, newStatus).outcome == Ok
    ensures StatusChange(StatusChange(orders, orderId, newStatus).orders, orderId, newStatus)
      == StatusChange(orders, orderId, newStatus)
  {
    var r := StatusChange(orders, orderId, newStatus);
    var k := FindById(orders, orderId).value;
    assert FindById(r.orders, orderId) == Some(k) by {
      assert r.orders[k].id == orderId;
      assert forall j :: 0 <= j < k ==> r.orders[j].id == orders[j].id;
    }
  }
}
