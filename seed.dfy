/**
 * The six example orders the site writes into an empty collection at
 * start-up, and the rule that it writes them only when the collection is
 * empty. `now` stands for the start-up clock reading in milliseconds and
 * `firstId` for the first identifier the store hands out.
 */
module Seed {
  import opened Schema
  import opened Queries

  const Minute: int := 60 * 1000

  /** The six seeded orders, each one minute after the previous. */
  function SeedOrders(now: int, firstId: OrderId): (r: seq<Order>)
    ensures |r| == 6
    ensures forall i :: 0 <= i < |r| ==> r[i].id == firstId + i
    ensures UniqueIds(r) && UniqueConfirmations(r)
    ensures AssignedWhenMoving(r)
    ensures SortedByDate(r)
  {
    [ Order(firstId, "John Doe", "123 Main Street, City, State",
            [LineItem("Taco", 2, 299)], now, Received, "abc123", ""),
      Order(firstId + 1, "Jane Smith", "456 Elm Street, Town, State",
            [LineItem("Taco", 1, 299)], now + 1 * Minute, ReadyForDelivery, "def456", "XYZ-123"),
      Order(firstId + 2, "Alice Johnson", "789 Oak Avenue, Village, State",
            [LineItem("Burger", 3, 499)], now + 2 * Minute, InTransit, "ghi789", "ABC-789"),
      Order(firstId + 3, "Bob Wilson", "101 Pine Street, Hamlet, State",
            [LineItem("Burger", 2, 499)], now + 3 * Minute, Delivered, "jkl101", "DEF-456"),
      Order(firstId + 4, "Eve Johnson", "789 Oak Avenue, Village, State",
            [LineItem("Taco", 3, 299)], now + 4 * Minute, ReadyForDelivery, "mno456", ""),
      Order(firstId + 5, "Charlie Brown", "101 Pine Street, Hamlet, State",
            [LineItem("Taco", 2, 299)], now + 5 * Minute, InTransit, "pqr101", "OPQ-123") ]
  }

  /** The collection after start-up seeding. */
  function Seeded(orders: seq<Order>, now: int, firstId: OrderId): (r: seq<Order>)
    ensures |orders| == 0 ==> |r| == 6 && UniqueConfirmations(r) && AssignedWhenMoving(r)
    ensures |orders| > 0 ==> r == orders
    ensures |r| > 0
  {
    if |orders| == 0 then SeedOrders(now, firstId) else orders
  }

  /** Seeding twice, at any two clock readings, is seeding once. */
  lemma SeedIdempotent(orders: seq<Order>, now1: int, id1: OrderId, now2: int, id2: OrderId)
    ensures Seeded(Seeded(orders, now1, id1), now2, id2) == Seeded(orders, now1, id1)
  {
  }
}
