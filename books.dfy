/** The order book as a value: per symbol, the buy side and the sell side in
    arrival order. The three operations of the book and the matching worker's
    step are functions on it; the class in module Engine is proved against them. */
module Books {
  import opened Orders
  import opened Matching

  datatype Book = Book(buys: map<string, seq<Order>>, sells: map<string, seq<Order>>)

  const EmptyBook := Book(map[], map[])

  /** A side of one symbol; a symbol with no entry has no orders. */
  function Lookup(m: map<string, seq<Order>>, symbol: string): seq<Order>
  {
    if symbol in m then m[symbol] else []
  }

  function Buys(b: Book, symbol: string): seq<Order>
  {
    Lookup(b.buys, symbol)
  }

  function Sells(b: Book, symbol: string): seq<Order>
  {
    Lookup(b.sells, symbol)
  }

  /** addOrder: a "buy" order goes to the back of its symbol's buy side, a
      "sell" order to the back of the sell side; any other side is dropped.
      Nothing else changes. */
  function AddOrder(b: Book, o: Order): (r: Book)
    ensures o.side == BuySide ==> Buys(r, o.symbol) == Buys(b, o.symbol) + [o] && r.sells == b.sells
    ensures o.side == SellSide ==> Sells(r, o.symbol) == Sells(b, o.symbol) + [o] && r.buys == b.buys
    ensures forall symbol :: symbol != o.symbol ==>
              Buys(r, symbol) == Buys(b, symbol) && Sells(r, symbol) == Sells(b, symbol)
    ensures o.side != BuySide && o.side != SellSide ==> r == b
  {
    if o.side == BuySide then Book(b.buys[o.symbol := Buys(b, o.symbol) + [o]], b.sells)
    else if o.side == SellSide then Book(b.buys, b.sells[o.symbol := Sells(b, o.symbol) + [o]])
    else b
  }

  /** The net open quantity of a symbol: total bought minus total sold. */
  function Net(b: Book, symbol: string): int
  {
    Total(Buys(b, symbol)) - Total(Sells(b, symbol))
  }

  /** The fills matchOrders(symbol) logs on this book. */
  function Fills(b: Book, symbol: string): seq<Fill>
  {
    MatchAll(Buys(b, symbol), Sells(b, symbol)).fills
  }

  /** matchOrders(symbol): the symbol's two sides are replaced by what the
      matching loop leaves of them. Looking a side up with the map's []
      creates its entry: the buy side's always, the sell side's only when the
      buy side is non-empty, since the empty buy side ends the test first. */
  function MatchOrders(b: Book, symbol: string): (r: Book)
    ensures !Crosses(Buys(r, symbol), Sells(r, symbol))
    ensures symbol in r.buys
    ensures symbol in r.sells <==> symbol in b.sells || Buys(b, symbol) != []
  {
    var m := MatchAll(Buys(b, symbol), Sells(b, symbol));
    Book(b.buys[symbol := m.buys], if Buys(b, symbol) == [] then b.sells else b.sells[symbol := m.sells])
  }

  /** MatchOrders by the three ways matchOrders can go: it returns at an empty
      buy side, returns at an empty sell side, or runs the loop. */
  lemma MatchOrdersCases(b: Book, symbol: string)
    ensures Buys(b, symbol) == [] ==>
              MatchOrders(b, symbol) == Book(b.buys[symbol := []], b.sells) && Fills(b, symbol) == []
    ensures Buys(b, symbol) != [] && Sells(b, symbol) == [] ==>
              MatchOrders(b, symbol) == Book(b.buys[symbol := Buys(b, symbol)], b.sells[symbol := []])
              && Fills(b, symbol) == []
    ensures var m := MatchAll(Buys(b, symbol), Sells(b, symbol));
            Buys(b, symbol) != [] ==> MatchOrders(b, symbol) == Book(b.buys[symbol := m.buys], b.sells[symbol := m.sells])
  {
  }

  /** What matchOrders(symbol) promises: afterwards the newest pair of the
      symbol does not cross; only the backs of the symbol's two sides were
      touched; the net quantity is conserved; other symbols are untouched; and
      a book whose newest pair does not cross (an empty side in particular)
      keeps every side. */
  lemma MatchOrdersSpec(b: Book, symbol: string)
    ensures var r := MatchOrders(b, symbol);
            && !Crosses(Buys(r, symbol), Sells(r, symbol))
            && BackTrimmed(Buys(b, symbol), Buys(r, symbol)) && BackTrimmed(Sells(b, symbol), Sells(r, symbol))
            && Net(r, symbol) == Net(b, symbol)
            && (forall other :: other != symbol ==>
                  Buys(r, other) == Buys(b, other) && Sells(r, other) == Sells(b, other))
            && (!Crosses(Buys(b, symbol), Sells(b, symbol)) ==>
                  Buys(r, symbol) == Buys(b, symbol) && Sells(r, symbol) == Sells(b, symbol))
  {
    var buys, sells := Buys(b, symbol), Sells(b, symbol);
    var m, r := MatchAll(buys, sells), MatchOrders(b, symbol);
    assert Buys(r, symbol) == m.buys && Sells(r, symbol) == m.sells;
    MatchTouchesOnlyBack(buys, sells);
    MatchConservesQuantity(buys, sells);
    assert forall other :: other != symbol ==>
             Buys(r, other) == Buys(b, other) && Sells(r, other) == Sells(b, other);
  }

  /** getCurrentPrices(symbol): the price of the newest buy and of the newest
      sell of the symbol, 0 for an empty side. With both sides quoted, the
      quotes cross exactly when matchOrders would match the newest pair. */
  function CurrentPrices(b: Book, symbol: string): (quote: (real, real))
    ensures Buys(b, symbol) != [] && Sells(b, symbol) != [] ==>
              (quote.0 >= quote.1 <==> Crosses(Buys(b, symbol), Sells(b, symbol)))
  {
    var buys, sells := Buys(b, symbol), Sells(b, symbol);
    (if buys == [] then 0.0 else Last(buys).price, if sells == [] then 0.0 else Last(sells).price)
  }

  /** The order just added is the newest of its side, so its price becomes
      that side's quote; the other side's quote is unchanged, and an order of
      any other side changes no quote. */
  lemma AddOrderQuotes(b: Book, o: Order)
    ensures var before, after := CurrentPrices(b, o.symbol), CurrentPrices(AddOrder(b, o), o.symbol);
            && (o.side == BuySide ==> after == (o.price, before.1))
            && (o.side == SellSide ==> after == (before.0, o.price))
            && (o.side != BuySide && o.side != SellSide ==> after == before)
  {
  }

  /** One iteration of the matching worker: add the dequeued order, then match its symbol. */
  function Step(b: Book, o: Order): (r: Book)
    ensures !Crosses(Buys(r, o.symbol), Sells(r, o.symbol))
    ensures forall symbol :: symbol != o.symbol ==> Buys(r, symbol) == Buys(b, symbol) && Sells(r, symbol) == Sells(b, symbol)
  {
    MatchOrdersSpec(AddOrder(b, o), o.symbol);
    MatchOrders(AddOrder(b, o), o.symbol)
  }

  /** The worker over a queue: each order in FIFO order, one at a time. */
  function Run(b: Book, queue: seq<Order>): Book
    decreases |queue|
  {
    if queue == [] then b else Run(Step(b, queue[0]), queue[1..])
  }

  /** The worker's book after one more order: one more step on the book the
      orders before it left. */
  lemma {:induction false} RunSnoc(b: Book, queue: seq<Order>, o: Order)
    ensures Run(b, queue + [o]) == Step(Run(b, queue), o)
  {
    RunAppend(b, queue, [o]);
    assert [o][1..] == [];
  }

  /** Processing a queue in two parts is processing it whole: no order is
      merged with, reordered against or skipped by another. */
  lemma {:induction false} RunAppend(b: Book, first: seq<Order>, second: seq<Order>)
    ensures Run(b, first + second) == Run(Run(b, first), second)
    decreases |first|
  {
    if first == [] {
      assert first + second == second;
    } else {
      assert (first + second)[0] == first[0];
      assert (first + second)[1..] == first[1..] + second;
      RunAppend(Step(b, first[0]), first[1..], second);
    }
  }

  /** A book in which no symbol's newest pair crosses. */
  ghost predicate Settled(b: Book)
  {
    forall symbol :: !Crosses(Buys(b, symbol), Sells(b, symbol))
  }

  lemma {:induction false} StepSettled(b: Book, o: Order)
    requires Settled(b)
    ensures Settled(Step(b, o))
  {
    var added := AddOrder(b, o);
    forall symbol ensures !Crosses(Buys(Step(b, o), symbol), Sells(Step(b, o), symbol)) {
      if symbol != o.symbol {
        assert Buys(added, symbol) == Buys(b, symbol) && Sells(added, symbol) == Sells(b, symbol);
      }
    }
  }

  /** Whatever queue the worker processes from a settled book (the empty book
      in particular), no symbol is left with a crossing newest pair. */
  lemma {:induction false} RunSettled(b: Book, queue: seq<Order>)
    requires Settled(b)
    ensures Settled(Run(b, queue))
    decreases |queue|
  {
    if queue != [] {
      StepSettled(b, queue[0]);
      RunSettled(Step(b, queue[0]), queue[1..]);
    }
  }

  /** After the worker has processed any queue from the empty book, a symbol
      quoted on both sides is quoted with its buy price strictly below its sell price. */
  lemma QuotesNeverCross(queue: seq<Order>, symbol: string)
    ensures var r := Run(EmptyBook, queue);
            var (bid, ask) := CurrentPrices(r, symbol);
            Buys(r, symbol) != [] && Sells(r, symbol) != [] ==> bid < ask
  {
    assert Settled(EmptyBook);
    RunSettled(EmptyBook, queue);
    var r := Run(EmptyBook, queue);
    assert !Crosses(Buys(r, symbol), Sells(r, symbol));
  }

  /** What one order contributes to its symbol's net quantity. */
  function Signed(o: Order, symbol: string): int
  {
    if o.symbol != symbol then 0
    else if o.side == BuySide then o.quantity
    else if o.side == SellSide then -o.quantity
    else 0
  }

  function SignedTotal(queue: seq<Order>, symbol: string): int
  {
    if queue == [] then 0 else Signed(queue[0], symbol) + SignedTotal(queue[1..], symbol)
  }

  lemma {:induction false} StepNet(b: Book, o: Order, symbol: string)
    ensures Net(Step(b, o), symbol) == Net(b, symbol) + Signed(o, symbol)
  {
    var added := AddOrder(b, o);
    MatchOrdersSpec(added, o.symbol);
    if symbol == o.symbol {
      if o.side == BuySide {
        TotalAppend(Buys(b, symbol), o);
      } else if o.side == SellSide {
        TotalAppend(Sells(b, symbol), o);
      }
    } else {
      assert Buys(added, symbol) == Buys(b, symbol) && Sells(added, symbol) == Sells(b, symbol);
    }
  }

  /** Quantity conservation over a whole queue: a symbol's net open quantity
      moves exactly by the quantities of that symbol's orders that were added. */
  lemma {:induction false} RunNet(b: Book, queue: seq<Order>, symbol: string)
    ensures Net(Run(b, queue), symbol) == Net(b, symbol) + SignedTotal(queue, symbol)
    decreases |queue|
  {
    if queue != [] {
      StepNet(b, queue[0], symbol);
      RunNet(Step(b, queue[0]), queue[1..], symbol);
    }
  }

  /** Symbols are independent: a queue with no order for `symbol` leaves both of its sides alone. */
  lemma {:induction false} RunOtherSymbol(b: Book, queue: seq<Order>, symbol: string)
    requires forall i :: 0 <= i < |queue| ==> queue[i].symbol != symbol
    ensures Buys(Run(b, queue), symbol) == Buys(b, symbol)
    ensures Sells(Run(b, queue), symbol) == Sells(b, symbol)
    decreases |queue|
  {
    if queue != [] {
      RunOtherSymbol(Step(b, queue[0]), queue[1..], symbol);
    }
  }

  /** Every resting order has a positive quantity. */
  ghost predicate Positive(b: Book)
  {
    forall symbol :: AllPositive(Buys(b, symbol)) && AllPositive(Sells(b, symbol))
  }

  /** Positivity, on the premise the engine does not check itself: when every
      order processed has a positive quantity, no order at zero or below stays
      in the book. */
  lemma {:induction false} RunPositive(b: Book, queue: seq<Order>)
    requires Positive(b)
    requires forall i :: 0 <= i < |queue| ==> queue[i].quantity > 0
    ensures Positive(Run(b, queue))
    decreases |queue|
  {
    if queue != [] {
      var o := queue[0];
      var added := AddOrder(b, o);
      forall symbol ensures AllPositive(Buys(added, symbol)) && AllPositive(Sells(added, symbol)) {
        assert AllPositive(Buys(b, symbol)) && AllPositive(Sells(b, symbol));
      }
      MatchKeepsPositive(Buys(added, o.symbol), Sells(added, o.symbol));
      forall symbol ensures AllPositive(Buys(Step(b, o), symbol)) && AllPositive(Sells(Step(b, o), symbol)) {
        assert AllPositive(Buys(added, symbol)) && AllPositive(Sells(added, symbol));
      }
      RunPositive(Step(b, o), queue[1..]);
    }
  }

  /** The engine itself accepts any quantity: a zero-quantity order that does
      not cross stays in the book. */
  lemma ZeroQuantityOrderRests()
    ensures var o := Order("1", "X", BuySide, 100.0, 0);
            Buys(Run(EmptyBook, [o]), "X") == [o]
  {
    var o := Order("1", "X", BuySide, 100.0, 0);
    assert Buys(AddOrder(EmptyBook, o), "X") == [o];
    assert Run(EmptyBook, [o]) == Run(Step(EmptyBook, o), []);
  }
}
