/** The matching loop of the order book, on the two sides of one symbol.
    Matching is "top of stack": only the most recently appended buy and sell
    are ever compared, never the orders beneath them. */
module Matching {
  import opened Orders

  /** The loop's condition: both sides hold an order and the newest buy bids
      at least the newest sell's price. */
  predicate Crosses(buys: seq<Order>, sells: seq<Order>)
  {
    |buys| > 0 && |sells| > 0 && Last(buys).price >= Last(sells).price
  }

  /** std::min on the two quantities. */
  function Min(a: int, b: int): int
  {
    if b < a then b else a
  }

  /** The two sides after matching, and the fills in the order they were logged. */
  datatype Outcome = Outcome(buys: seq<Order>, sells: seq<Order>, fills: seq<Fill>)

  /** `after` is `before` with some orders popped from the back and the new back
      order's quantity possibly changed: every order beneath the back keeps its
      position and its quantity. */
  predicate BackTrimmed(before: seq<Order>, after: seq<Order>)
  {
    && |after| <= |before|
    && (forall i :: 0 <= i < |after| - 1 ==> after[i] == before[i])
    && (|after| > 0 ==> SameOrder(after[|after| - 1], before[|after| - 1]))
  }

  lemma BackTrimmedTrans(a: seq<Order>, b: seq<Order>, c: seq<Order>)
    requires BackTrimmed(a, b) && BackTrimmed(b, c)
    ensures BackTrimmed(a, c)
  {
    if |c| > 0 && |c| < |b| {
      assert c[|c| - 1] == b[|c| - 1] || SameOrder(c[|c| - 1], b[|c| - 1]);
    }
  }

  /** One iteration of the loop on a crossing pair: both back orders lose the
      smaller of their two quantities, the fill names the two back orders and
      that quantity, and each one left at zero is popped.
      At least one of them is, so the two sides shrink. A back order is popped
      exactly when the fill takes its whole remaining quantity; otherwise it
      stays at the back with what is left of it. The orders beneath the two
      back orders are left as they were. */
  function MatchStep(buys: seq<Order>, sells: seq<Order>): (r: Outcome)
    requires Crosses(buys, sells)
    ensures |r.buys| + |r.sells| < |buys| + |sells|
    ensures |r.fills| == 1
    ensures r.fills[0] == Fill(Last(buys).orderId, Last(sells).orderId, Min(Last(buys).quantity, Last(sells).quantity))
    ensures |r.buys| < |buys| <==> r.fills[0].quantity == Last(buys).quantity
    ensures |r.sells| < |sells| <==> r.fills[0].quantity == Last(sells).quantity
    ensures |r.buys| < |buys| ==> r.buys == Front(buys)
    ensures |r.sells| < |sells| ==> r.sells == Front(sells)
    ensures |r.buys| == |buys| ==> Front(r.buys) == Front(buys)
    ensures |r.sells| == |sells| ==> Front(r.sells) == Front(sells)
    ensures |r.buys| == |buys| ==>
              Last(r.buys) == Last(buys).(quantity := Last(buys).quantity - r.fills[0].quantity)
    ensures |r.sells| == |sells| ==>
              Last(r.sells) == Last(sells).(quantity := Last(sells).quantity - r.fills[0].quantity)
  {
    var b, s := Last(buys), Last(sells);
    var q := Min(b.quantity, s.quantity);
    var b', s' := b.(quantity := b.quantity - q), s.(quantity := s.quantity - q);
    Outcome(
      if b'.quantity == 0 then Front(buys) else Front(buys) + [b'],
      if s'.quantity == 0 then Front(sells) else Front(sells) + [s'],
      [Fill(b.orderId, s.orderId, q)])
  }

  /** One iteration takes the matched quantity off both sides. */
  lemma MatchStepConserves(buys: seq<Order>, sells: seq<Order>)
    requires Crosses(buys, sells)
    ensures var r := MatchStep(buys, sells);
            Total(buys) - Total(r.buys) == FillTotal(r.fills) == Total(sells) - Total(r.sells)
  {
    var b, s := Last(buys), Last(sells);
    var q := Min(b.quantity, s.quantity);
    TotalAppend(Front(buys), b.(quantity := b.quantity - q));
    TotalAppend(Front(sells), s.(quantity := s.quantity - q));
  }

  /** One iteration touches only the two back orders: each side either loses
      its back order or keeps it, at the back, with a new quantity. */
  lemma MatchStepTrims(buys: seq<Order>, sells: seq<Order>)
    requires Crosses(buys, sells)
    ensures var r := MatchStep(buys, sells);
            && (r.buys == Front(buys) || (r.buys == Front(buys) + [Last(r.buys)] && SameOrder(Last(r.buys), Last(buys))))
            && (r.sells == Front(sells) || (r.sells == Front(sells) + [Last(r.sells)] && SameOrder(Last(r.sells), Last(sells))))
            && BackTrimmed(buys, r.buys) && BackTrimmed(sells, r.sells)
  {
  }

  /** One iteration on positive orders leaves positive orders and fills a positive quantity. */
  lemma MatchStepKeepsPositive(buys: seq<Order>, sells: seq<Order>)
    requires Crosses(buys, sells)
    requires AllPositive(buys) && AllPositive(sells)
    ensures var r := MatchStep(buys, sells);
            AllPositive(r.buys) && AllPositive(r.sells) && r.fills[0].quantity > 0
  {
    assert AllPositive(Front(buys)) && AllPositive(Front(sells));
  }

  /** The largest value of the engine's 32-bit `int`. */
  const MaxInt := 0x7fff_ffff

  /** With a negative quantity in the book, the subtraction can leave the
      32-bit range although both quantities are valid `int`s: a resting buy of
      -2000000000 and a crossing sell of 2000000000 match -2000000000, and the
      sell's remaining quantity would be 4000000000. */
  lemma NegativeQuantityOverflows()
    ensures var buy, sell := Order("1", "X", BuySide, 100.0, -2000000000), Order("2", "X", SellSide, 90.0, 2000000000);
            var r := MatchStep([buy], [sell]);
            && -MaxInt - 1 <= buy.quantity && sell.quantity <= MaxInt
            && r.sells == [sell.(quantity := 4000000000)]
            && Last(r.sells).quantity > MaxInt
  {
  }

  /** The whole loop: repeat the step while the newest pair crosses. It stops
      with the newest pair not crossing, having logged at most one fill per
      order it removed (which is why it terminates). It matches at all exactly
      when the newest pair crosses on entry. */
  function MatchAll(buys: seq<Order>, sells: seq<Order>): (r: Outcome)
    ensures !Crosses(r.buys, r.sells)
    ensures |r.fills| <= (|buys| + |sells|) - (|r.buys| + |r.sells|)
    ensures r.fills == [] <==> !Crosses(buys, sells)
    ensures r.fills == [] ==> r.buys == buys && r.sells == sells
    decreases |buys| + |sells|
  {
    if Crosses(buys, sells) then
      var step := MatchStep(buys, sells);
      var rest := MatchAll(step.buys, step.sells);
      Outcome(rest.buys, rest.sells, step.fills + rest.fills)
    else
      Outcome(buys, sells, [])
  }

  /** Quantity conservation: both sides lose exactly the total matched quantity,
      so the difference between their totals is unchanged. */
  lemma {:induction false} MatchConservesQuantity(buys: seq<Order>, sells: seq<Order>)
    ensures var r := MatchAll(buys, sells);
            && Total(buys) - Total(r.buys) == FillTotal(r.fills)
            && Total(sells) - Total(r.sells) == FillTotal(r.fills)
    decreases |buys| + |sells|
  {
    if Crosses(buys, sells) {
      var step := MatchStep(buys, sells);
      MatchStepConserves(buys, sells);
      MatchConservesQuantity(step.buys, step.sells);
      FillTotalAppend(step.fills, MatchAll(step.buys, step.sells).fills);
    }
  }

  /** Only the back is touched: on each side, orders beneath the final back keep
      their position and quantity, and the final back is one of the original orders. */
  lemma {:induction false} MatchTouchesOnlyBack(buys: seq<Order>, sells: seq<Order>)
    ensures var r := MatchAll(buys, sells);
            BackTrimmed(buys, r.buys) && BackTrimmed(sells, r.sells)
    decreases |buys| + |sells|
  {
    if Crosses(buys, sells) {
      var step := MatchStep(buys, sells);
      var r := MatchAll(step.buys, step.sells);
      MatchStepTrims(buys, sells);
      MatchTouchesOnlyBack(step.buys, step.sells);
      BackTrimmedTrans(buys, step.buys, r.buys);
      BackTrimmedTrans(sells, step.sells, r.sells);
    }
  }

  /** When every order on both sides has a positive quantity, matching leaves
      only positive orders (every order that reaches zero is removed) and every
      fill is for a positive quantity. */
  lemma {:induction false} MatchKeepsPositive(buys: seq<Order>, sells: seq<Order>)
    requires AllPositive(buys) && AllPositive(sells)
    ensures var r := MatchAll(buys, sells);
            && AllPositive(r.buys) && AllPositive(r.sells)
            && forall i :: 0 <= i < |r.fills| ==> r.fills[i].quantity > 0
    decreases |buys| + |sells|
  {
    if Crosses(buys, sells) {
      var step := MatchStep(buys, sells);
      MatchStepKeepsPositive(buys, sells);
      MatchKeepsPositive(step.buys, step.sells);
    }
  }
}
