/** Worked examples of the worker: short queues processed from the empty book. */
module Scenarios {
  import opened Orders
  import opened Matching
  import opened Books

  /** The matching loop on that pair: one pass fills 5 and pops the sell. */
  lemma PartialFillMatch()
    ensures var m := MatchAll([Order("b1", "AAPL", BuySide, 150.0, 10)], [Order("s1", "AAPL", SellSide, 145.0, 5)]);
            m.buys == [Order("b1", "AAPL", BuySide, 150.0, 5)] && m.sells == []
  {
    var buy, sell := Order("b1", "AAPL", BuySide, 150.0, 10), Order("s1", "AAPL", SellSide, 145.0, 5);
    var step := MatchStep([buy], [sell]);
    assert step.buys == [buy.(quantity := 5)] && step.sells == [];
  }

  /** A buy of 10 at 150 then a sell of 5 at 145: the sell is filled, the buy keeps 5. */
  lemma PartialFill()
    ensures var r := Run(EmptyBook, [Order("b1", "AAPL", BuySide, 150.0, 10), Order("s1", "AAPL", SellSide, 145.0, 5)]);
            && Sells(r, "AAPL") == []
            && Buys(r, "AAPL") == [Order("b1", "AAPL", BuySide, 150.0, 5)]
  {
    var buy, sell := Order("b1", "AAPL", BuySide, 150.0, 10), Order("s1", "AAPL", SellSide, 145.0, 5);
    var b1 := Step(EmptyBook, buy);
    assert Buys(b1, "AAPL") == [buy] && Sells(b1, "AAPL") == [];
    var added := AddOrder(b1, sell);
    assert Buys(added, "AAPL") == [buy] && Sells(added, "AAPL") == [sell];
    PartialFillMatch();
    assert [buy, sell][1..] == [sell];
  }

  /** A lone sell of 10 at 200 is quoted as (0, 200). */
  lemma SellOnlyQuote()
    ensures CurrentPrices(Run(EmptyBook, [Order("s1", "AAPL", SellSide, 200.0, 10)]), "AAPL") == (0.0, 200.0)
  {
    var sell := Order("s1", "AAPL", SellSide, 200.0, 10);
    assert Sells(AddOrder(EmptyBook, sell), "AAPL") == [sell];
    assert Run(EmptyBook, [sell]) == Run(Step(EmptyBook, sell), []);
  }

  /** The matching loop on those sides: one pass fills 3 against the newest
      buy and pops the sell. */
  lemma NewestBuyMatch()
    ensures var m := MatchAll([Order("b1", "A", BuySide, 150.0, 10), Order("b2", "A", BuySide, 160.0, 5)],
                              [Order("s1", "A", SellSide, 155.0, 3)]);
            m.buys == [Order("b1", "A", BuySide, 150.0, 10), Order("b2", "A", BuySide, 160.0, 2)] && m.sells == []
  {
    var b1, b2 := Order("b1", "A", BuySide, 150.0, 10), Order("b2", "A", BuySide, 160.0, 5);
    var s1 := Order("s1", "A", SellSide, 155.0, 3);
    var step := MatchStep([b1, b2], [s1]);
    assert Front([b1, b2]) == [b1];
    assert step.buys == [b1, b2.(quantity := 2)] && step.sells == [];
  }

  /** Buys at 150 and then 160, then a sell of 3 at 155: the sell meets the
      newest buy (160), which keeps 2, and the buy at 150 is untouched. */
  lemma NewestBuyMatchedFirst()
    ensures var r := Run(EmptyBook, [Order("b1", "A", BuySide, 150.0, 10), Order("b2", "A", BuySide, 160.0, 5),
                                     Order("s1", "A", SellSide, 155.0, 3)]);
            && Sells(r, "A") == []
            && Buys(r, "A") == [Order("b1", "A", BuySide, 150.0, 10), Order("b2", "A", BuySide, 160.0, 2)]
  {
    var b1, b2 := Order("b1", "A", BuySide, 150.0, 10), Order("b2", "A", BuySide, 160.0, 5);
    var s1 := Order("s1", "A", SellSide, 155.0, 3);
    var k1 := Step(EmptyBook, b1);
    var k2 := Step(k1, b2);
    var k3 := Step(k2, s1);
    assert Buys(k2, "A") == [b1, b2] && Sells(k2, "A") == [] by {
      assert Buys(k1, "A") == [b1] && Sells(k1, "A") == [];
      assert Buys(AddOrder(k1, b2), "A") == [b1, b2];
    }
    assert Buys(k3, "A") == [b1, b2.(quantity := 2)] && Sells(k3, "A") == [] by {
      var added := AddOrder(k2, s1);
      assert Buys(added, "A") == [b1, b2] && Sells(added, "A") == [s1];
      NewestBuyMatch();
    }
    assert Run(EmptyBook, [b1, b2, s1]) == k3 by {
      var q := [b1, b2, s1];
      assert q[1..] == [b2, s1] && q[1..][1..] == [s1];
      assert Run(EmptyBook, q) == Run(k1, [b2, s1]);
      assert Run(k1, [b2, s1]) == Run(k2, [s1]);
    }
  }

  /** A buy at 100 and a sell at 101 do not cross: no fill, both rest with quantity 1. */
  lemma NoCrossNoFill()
    ensures var r := Run(EmptyBook, [Order("b1", "X", BuySide, 100.0, 1), Order("s1", "X", SellSide, 101.0, 1)]);
            && Buys(r, "X") == [Order("b1", "X", BuySide, 100.0, 1)]
            && Sells(r, "X") == [Order("s1", "X", SellSide, 101.0, 1)]
  {
    var buy, sell := Order("b1", "X", BuySide, 100.0, 1), Order("s1", "X", SellSide, 101.0, 1);
    var b1 := Step(EmptyBook, buy);
    assert Buys(b1, "X") == [buy] && Sells(b1, "X") == [];
    var added := AddOrder(b1, sell);
    assert Buys(added, "X") == [buy] && Sells(added, "X") == [sell];
    assert [buy, sell][1..] == [sell];
  }
}
