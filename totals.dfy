/** The order total: the sum of quantity times price over the line items. */
module Totals {
  import opened Schema

  function LineAmount(item: LineItem): int
  {
    item.quantity * item.price
  }

  /** The total of a list of line items, summed from the first to the last. */
  function Total(items: seq<LineItem>): int
  {
    if |items| == 0 then 0 else Total(items[..|items| - 1]) + LineAmount(items[|items| - 1])
  }

  /** The total of two item lists put together is the sum of their totals. */
  lemma {:induction false} TotalAppend(a: seq<LineItem>, b: seq<LineItem>)
    ensures Total(a + b) == Total(a) + Total(b)
  {
    if |b| == 0 {
      assert a + b == a;
    } else {
      var b' := b[..|b| - 1];
      assert (a + b)[..|a + b| - 1] == a + b';
      TotalAppend(a, b');
    }
  }

  lemma {:induction false} TotalNonNegative(items: seq<LineItem>)
    requires forall i :: 0 <= i < |items| ==> items[i].quantity >= 0 && items[i].price >= 0
    ensures Total(items) >= 0
  {
    if |items| > 0 {
      TotalNonNegative(items[..|items| - 1]);
      var last := items[|items| - 1];
      assert LineAmount(last) >= 0 by {
        assert last.quantity >= 0 && last.price >= 0;
      }
    }
  }

  /** The running-sum loop computes the total; an empty list totals 0. */
  method CalculateOrderTotal(items: seq<LineItem>) returns (total: int)
    ensures total == Total(items)
    ensures items == [] ==> total == 0
  {
    total := 0;
    for i := 0 to |items|
      invariant total == Total(items[..i])
    {
      assert items[..i + 1][..i] == items[..i];
      total := total + items[i].quantity * items[i].price;
    }
    assert items[..|items|] == items;
  }
}
