/** The engine's two objects: the order book, whose methods update its two
    maps in place, and the server's queue with the matching worker that drains
    it. Each method is proved against the functions of module Books. */
module Engine {
  import opened Orders
  import opened Matching
  import Books

  /** A line of the book's audit log. */
  datatype LogEntry = Added(order: Order) | Matched(fill: Fill)

  /** The "Matched" lines for a sequence of fills, one per fill in order. */
  function MatchedEntries(fills: seq<Fill>): seq<LogEntry>
  {
    seq(|fills|, i requires 0 <= i < |fills| => Matched(fills[i]))
  }

  lemma MatchedEntriesAppend(fills: seq<Fill>, fill: Fill)
    ensures MatchedEntries(fills + [fill]) == MatchedEntries(fills) + [Matched(fill)]
  {
  }

  /** One pass of matchOrders' loop on a crossing pair, written out in the
      order the loop body takes its steps: both back orders lose the smaller
      quantity, and each one left at zero is popped. The vectors are values
      here; the pass is proved to be MatchStep. */
  method FillBacks(buys: seq<Order>, sells: seq<Order>) returns (buys': seq<Order>, sells': seq<Order>, fill: Fill)
    requires Crosses(buys, sells)
    ensures Outcome(buys', sells', [fill]) == MatchStep(buys, sells)
  {
    var buyOrder, sellOrder := Last(buys), Last(sells);
    var matchQty := Min(buyOrder.quantity, sellOrder.quantity);
    buyOrder := buyOrder.(quantity := buyOrder.quantity - matchQty);
    sellOrder := sellOrder.(quantity := sellOrder.quantity - matchQty);
    buys', sells' := Front(buys) + [buyOrder], Front(sells) + [sellOrder];
    fill := Fill(buyOrder.orderId, sellOrder.orderId, matchQty);
    if buyOrder.quantity == 0 {
      buys' := Front(buys');
    }
    if sellOrder.quantity == 0 {
      sells' := Front(sells');
    }
  }

  /** What one pass of the loop does to the ghost bookkeeping of MatchOrders:
      the pass's fill moves from the fills still to come to those done, and its
      log line is the next one. */
  lemma MatchedStep(log0: seq<LogEntry>, goal: Outcome, done: seq<Fill>,
                    buys: seq<Order>, sells: seq<Order>, buys': seq<Order>, sells': seq<Order>, fill: Fill)
    requires Crosses(buys, sells) && Outcome(buys', sells', [fill]) == MatchStep(buys, sells)
    requires var rest := MatchAll(buys, sells); goal == Outcome(rest.buys, rest.sells, done + rest.fills)
    ensures var rest := MatchAll(buys', sells'); goal == Outcome(rest.buys, rest.sells, (done + [fill]) + rest.fills)
    ensures (log0 + MatchedEntries(done)) + [Matched(fill)] == log0 + MatchedEntries(done + [fill])
  {
    MatchedEntriesAppend(done, fill);
    AppendAssoc(log0, MatchedEntries(done), [Matched(fill)]);
    AppendAssoc(done, [fill], MatchAll(buys', sells').fills);
  }

  /** The lines the book logs for one worker step: the "Order added" line,
      then the fills that matching the order's symbol makes. */
  ghost function StepLog(b: Books.Book, o: Order): seq<LogEntry>
  {
    [Added(o)] + MatchedEntries(Books.Fills(Books.AddOrder(b, o), o.symbol))
  }

  /** The lines the book logs while the worker processes `queue` from book `b`,
      one step after another in FIFO order. */
  ghost function RunLog(b: Books.Book, queue: seq<Order>): seq<LogEntry>
    decreases |queue|
  {
    if queue == [] then [] else StepLog(b, queue[0]) + RunLog(Books.Step(b, queue[0]), queue[1..])
  }

  /** The log of a drain with one more order: the log of the orders before it,
      then that order's lines, logged from the book those orders left. */
  lemma {:induction false} RunLogSnoc(b: Books.Book, queue: seq<Order>, o: Order)
    ensures RunLog(b, queue + [o]) == RunLog(b, queue) + StepLog(Books.Run(b, queue), o)
    decreases |queue|
  {
    if queue == [] {
      assert [o][1..] == [];
    } else {
      var next := Books.Step(b, queue[0]);
      assert (queue + [o])[0] == queue[0];
      assert (queue + [o])[1..] == queue[1..] + [o];
      RunLogSnoc(next, queue[1..], o);
      AppendAssoc(StepLog(b, queue[0]), RunLog(next, queue[1..]), StepLog(Books.Run(next, queue[1..]), o));
    }
  }

  class OrderBook {
    var buyOrders: map<string, seq<Order>>
    var sellOrders: map<string, seq<Order>>
    /** The "Order added" and "Matched Order!" lines written so far. */
    ghost var log: seq<LogEntry>

    function State(): Books.Book
      reads this
    {
      Books.Book(buyOrders, sellOrders)
    }

    constructor ()
      ensures State() == Books.EmptyBook && log == []
    {
      buyOrders, sellOrders := map[], map[];
      log := [];
    }

    /** addOrder: push_back on the side the order names; the log line is written
        whatever the side. */
    method AddOrder(order: Order)
      modifies this
      ensures State() == Books.AddOrder(old(State()), order)
      ensures log == old(log) + [Added(order)]
    {
      if order.side == BuySide {
        buyOrders := buyOrders[order.symbol := Books.Lookup(buyOrders, order.symbol) + [order]];
      } else if order.side == SellSide {
        sellOrders := sellOrders[order.symbol := Books.Lookup(sellOrders, order.symbol) + [order]];
      }
      log := log + [Added(order)];
    }

    /** matchOrders: `buys` and `sells` stand for the two vectors the map
        holds for `symbol`. Reading a side through the map's [] creates its
        entry: the buy side is read first, and an empty buy side returns before
        the sell side is read. When both are non-empty, the loop runs on them
        and they are written back. The entries are written once, at the end of
        each path; nothing reads the maps in between. */
    method MatchOrders(symbol: string)
      modifies this
      ensures State() == Books.MatchOrders(old(State()), symbol)
      ensures log == old(log) + MatchedEntries(Books.Fills(old(State()), symbol))
    {
      var buys := Books.Lookup(buyOrders, symbol);
      if buys == [] {
        buyOrders := buyOrders[symbol := buys];
        Books.MatchOrdersCases(old(State()), symbol);
        assert log == old(log) + MatchedEntries([]);
        return;
      }
      var sells := Books.Lookup(sellOrders, symbol);
      if sells == [] {
        buyOrders, sellOrders := buyOrders[symbol := buys], sellOrders[symbol := sells];
        Books.MatchOrdersCases(old(State()), symbol);
        assert log == old(log) + MatchedEntries([]);
        return;
      }
      buys, sells := MatchSides(buys, sells);
      buyOrders, sellOrders := buyOrders[symbol := buys], sellOrders[symbol := sells];
      Books.MatchOrdersCases(old(State()), symbol);
    }

    /** The loop of matchOrders on one symbol's two vectors: while both are
        non-empty and the newest pair crosses, reduce both back orders by the
        smaller quantity, log the fill, and pop each back order left at zero.
        It ends where MatchAll does, having logged MatchAll's fills in order. */
    method MatchSides(buys0: seq<Order>, sells0: seq<Order>) returns (buys: seq<Order>, sells: seq<Order>)
      modifies this
      ensures buyOrders == old(buyOrders) && sellOrders == old(sellOrders)
      ensures buys == MatchAll(buys0, sells0).buys && sells == MatchAll(buys0, sells0).sells
      ensures log == old(log) + MatchedEntries(MatchAll(buys0, sells0).fills)
    {
      buys, sells := buys0, sells0;
      ghost var goal := MatchAll(buys, sells);
      ghost var done: seq<Fill> := [];
      while buys != [] && sells != []
        invariant buyOrders == old(buyOrders) && sellOrders == old(sellOrders)
        invariant var rest := MatchAll(buys, sells);
                  goal == Outcome(rest.buys, rest.sells, done + rest.fills)
        invariant log == old(log) + MatchedEntries(done)
        decreases |buys| + |sells|
      {
        if Last(buys).price >= Last(sells).price {
          var buys', sells', fill := FillBacks(buys, sells);
          MatchedStep(old(log), goal, done, buys, sells, buys', sells', fill);
          buys, sells := buys', sells';
          log := log + [Matched(fill)];
          done := done + [fill];
        } else {
          break;
        }
      }
      assert !Crosses(buys, sells);
      assert goal == Outcome(buys, sells, done) by {
        assert done + [] == done;
      }
    }
  }

  class OrderServer {
    const book: OrderBook
    /** Orders handed over by the connection handlers, oldest first. */
    var queue: seq<Order>
    /** The worker's "Processing Order" log lines. */
    ghost var processing: seq<Order>

    constructor (book: OrderBook)
      ensures this.book == book && queue == [] && processing == []
    {
      this.book := book;
      queue := [];
      processing := [];
    }

    /** A connection handler's hand-over: push the parsed order on the queue. */
    method Enqueue(order: Order)
      modifies this
      ensures queue == old(queue) + [order] && processing == old(processing)
    {
      queue := queue + [order];
    }

    /** One iteration of the worker, once the queue is non-empty (the worker
        waits for that): take the front order, then add it and match its symbol. */
    method ProcessNext() returns (order: Order)
      requires queue != []
      modifies this, book
      ensures order == old(queue)[0] && queue == old(queue)[1..]
      ensures book.State() == Books.Step(old(book.State()), order)
      ensures processing == old(processing) + [order]
      ensures book.log == old(book.log) + StepLog(old(book.State()), order)
    {
      order := queue[0];
      queue := queue[1..];
      processing := processing + [order];
      book.AddOrder(order);
      book.MatchOrders(order.symbol);
    }

    /** The worker loop up to the point where it would wait: every queued order
        is applied to the book, in FIFO order, one at a time. */
    method ProcessPending()
      modifies this, book
      ensures queue == []
      ensures book.State() == Books.Run(old(book.State()), old(queue))
      ensures processing == old(processing) + old(queue)
      ensures book.log == old(book.log) + RunLog(old(book.State()), old(queue))
    {
      ghost var pending, start, done := queue, book.State(), [];
      while queue != []
        invariant done + queue == pending
        invariant book.State() == Books.Run(start, done)
        invariant processing == old(processing) + done
        invariant book.log == old(book.log) + RunLog(start, done)
        decreases |queue|
      {
        ghost var waiting := queue;
        var order := ProcessNext();
        Books.RunSnoc(start, done, order);
        RunLogSnoc(start, done, order);
        AppendAssoc(old(book.log), RunLog(start, done), StepLog(Books.Run(start, done), order));
        assert waiting == [order] + queue;
        AppendAssoc(done, [order], queue);
        done := done + [order];
      }
      assert done == pending;
    }
  }
}
