/** The unit of work of the engine: an order, and the record a match leaves behind. */
module Orders {

  /** An order as the engine stores it. `side` stays a string, as in the engine:
      only the exact tokens "buy" and "sell" are recognised. `price` is exact
      (the engine's double, without rounding) and `quantity` is the remaining,
      unfilled quantity, unbounded. */
  datatype Order = Order(orderId: string, symbol: string, side: string, price: real, quantity: int)

  const BuySide: string := "buy"
  const SellSide: string := "sell"

  /** One "Matched Order!" audit record: the two order ids and the matched quantity. */
  datatype Fill = Fill(buyId: string, sellId: string, quantity: int)

  /** The most recently appended order of a side (the vector's back()). */
  function Last(s: seq<Order>): Order
    requires |s| > 0
  {
    s[|s| - 1]
  }

  /** A side without its back order (the vector after pop_back()). */
  function Front(s: seq<Order>): seq<Order>
    requires |s| > 0
  {
    s[..|s| - 1]
  }

  /** Total remaining quantity of a side, summed from the back. */
  function Total(s: seq<Order>): int
  {
    if s == [] then 0 else Total(Front(s)) + Last(s).quantity
  }

  lemma TotalAppend(s: seq<Order>, o: Order)
    ensures Total(s + [o]) == Total(s) + o.quantity
  {
    assert Front(s + [o]) == s;
  }

  /** Total quantity of a sequence of fills. */
  function FillTotal(fs: seq<Fill>): int
  {
    if fs == [] then 0 else fs[0].quantity + FillTotal(fs[1..])
  }

  lemma FillTotalAppend(a: seq<Fill>, b: seq<Fill>)
    ensures FillTotal(a + b) == FillTotal(a) + FillTotal(b)
  {
    if a == [] {
      assert a + b == b;
    } else {
      assert (a + b)[1..] == a[1..] + b;
      FillTotalAppend(a[1..], b);
    }
  }

  lemma AppendAssoc<T>(a: seq<T>, b: seq<T>, c: seq<T>)
    ensures (a + b) + c == a + (b + c)
  {
  }

  predicate AllPositive(s: seq<Order>)
  {
    forall i :: 0 <= i < |s| ==> s[i].quantity > 0
  }

  /** Two records of the same order: everything but the remaining quantity agrees. */
  predicate SameOrder(a: Order, b: Order)
  {
    a.orderId == b.orderId && a.symbol == b.symbol && a.side == b.side && a.price == b.price
  }
}
