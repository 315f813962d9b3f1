# OME order matching engine, modelled in Dafny

OME is a small order matching engine. Clients send one line per order over a
socket: `orderId symbol side price quantity`. A connection handler parses the
line into an `Order` and pushes it on a queue. A single worker thread takes
the orders off the queue in FIFO order. For each one it calls
`OrderBook::addOrder` and then `OrderBook::matchOrders` for the order's
symbol.

The book keeps, per symbol, a buy side and a sell side in arrival order.
Matching is "top of stack". Only the newest buy and the newest sell are
compared. While they cross (buy price at least the sell price), both lose the
smaller quantity, a "Matched Order!" line is logged, and an order left at zero
is popped. `getCurrentPrices` quotes the prices of the two newest orders, 0
for an empty side.

The project has six modules:

- `Orders` (orders.dfy): the `Order` record, the `Fill` record a match logs,
  and side totals.
- `Matching` (matching.dfy): the matching loop as a function on the two
  sides of one symbol (`MatchStep`, `MatchAll`), with its properties:
  conservation of quantity, only the back orders touched, positivity kept.
- `Books` (books.dfy): the book as a value, with `AddOrder`, `MatchOrders`,
  `CurrentPrices`, and the worker over a queue (`Step`, `Run`). It also holds
  the whole-run properties: quotes never cross, net quantity moves only by the
  orders added, symbols are independent.
- `Engine` (engine.dfy): the imperative objects. `OrderBook` is a class whose
  two maps are updated in place and whose audit log is a ghost sequence.
  `OrderServer` holds the queue and the worker. Each method is proved against
  the functions of `Books`.
- `Scenarios` (scenarios.dfy): small worked examples of the matching rules,
  written for this model and proved on it.
- `Parsing` (parsing.dfy): `parseOrder` as five `istringstream` extractions
  on a stream value. Each extraction skips whitespace. A string extraction
  reads one word. `>> double` and `>> int` read the longest numeric prefix, so
  they do not split at whitespace. A failed conversion writes 0 and fails the
  stream, and the later extractions then read nothing.

Prices are exact reals and quantities unbounded integers. The engine reads a
price into a `double`, the model keeps the exact value of its text. Rounding
keeps the order of prices but can make two different prices equal, e.g. a buy
at 1.00000000000000001 and a sell at 1.00000000000000002 both become 1.0 and
cross in the engine, but not in the model. The model's matching is the
engine's when rounding to `double` makes no lower buy price equal to a higher
sell price, no price is out of the range of `double`, and no `int` overflows.

Two points where the code is looser than the way it is used:

- Quantities. The engine checks neither the sign nor the size of a quantity.
  Its only client sends `rand() % 100 + 1` (buy_sell_bot.cpp:53 and 55), and
  the log reader in graph_html.py matches quantities with `(\d+)`, so the
  intended use is positive quantities, an order leaving its side when it
  reaches zero. The model accepts any integer, as the code does: a
  zero-quantity order is added and rests if it does not cross
  (`Books.ZeroQuantityOrderRests`). Positivity is proved under the premise
  that every processed order is positive (`Books.RunPositive`).
- Unread fields. `parseOrder` declares `Order order;` without initialising
  it, so a price or quantity that no extraction writes keeps an indeterminate
  value. `Parsing.ParseOrder` takes that value as the parameters `unsetPrice`
  and `unsetQuantity`. A conversion that fails writes 0
  (`Parsing.MalformedPrice`).

## Model

| member | source | states |
|---|---|---|
| Books.AddOrder | OME_engine.cpp:42-48 | a "buy" order is appended to its symbol's buy side, a "sell" order to its sell side, any other side is dropped; nothing else changes |
| Engine.OrderBook.AddOrder | OME_engine.cpp:42-52 | the in-place update of the two maps yields `Books.AddOrder` of the old state, and one "Order added" entry is logged whatever the side |
| Engine.OrderBook.constructor | OME_engine.cpp:24-34 | a new book is empty and its log is empty |
| Matching.MatchStep | OME_engine.cpp:59-72 | one pass on a crossing pair logs exactly one fill, naming the two back orders and the smaller of their quantities; a back order is popped exactly when the fill takes its whole remaining quantity, and otherwise stays at the back with what is left; the orders beneath it are left as they were; so the two sides shrink |
| Matching.MatchStepConserves | OME_engine.cpp:63-65 | one pass takes the matched quantity off each side's total |
| Matching.MatchStepTrims | OME_engine.cpp:59-72 | one pass changes only the two back orders: each side is its old orders without the back one, or those with the same back order (same identifier, symbol, side and price) at a new quantity |
| Matching.MatchStepKeepsPositive | OME_engine.cpp:63-72 | on positive orders, one pass leaves positive orders and fills a positive quantity |
| Matching.MatchAll | OME_engine.cpp:58-76 | the loop stops with the newest pair not crossing; it fills at least once exactly when the newest pair crosses on entry, otherwise both sides are unchanged; at most one fill per order removed |
| Matching.MatchConservesQuantity | OME_engine.cpp:63-65 | the buy side and the sell side each lose exactly the total quantity of the fills |
| Matching.MatchTouchesOnlyBack | OME_engine.cpp:58-76 | orders beneath the final back of each side keep their position and quantity, and the final back is one of the original orders |
| Matching.MatchKeepsPositive | OME_engine.cpp:63-72 | when all orders are positive, matching leaves only positive orders and every fill is positive |
| Matching.NegativeQuantityOverflows | OME_engine.cpp:63-65 | with a resting buy of -2000000000 and a crossing sell of 2000000000, both valid 32-bit `int`s, one pass leaves the sell at 4000000000, beyond the largest `int` |
| Engine.FillBacks | OME_engine.cpp:59-72 | one pass of the loop, written out step by step on the two back orders as the loop body takes them (decrement both, then pop each at zero), equals one `MatchStep` |
| Engine.OrderBook.MatchOrders | OME_engine.cpp:54-77 | the book ends at `Books.MatchOrders` of the old state, map entries included, and logs exactly the fills `MatchAll` makes, in order |
| Engine.OrderBook.MatchSides | OME_engine.cpp:58-76 | the loop with its invariants ends with the two vectors `MatchAll` leaves and logs `MatchAll`'s fills in order; the maps are untouched until the caller writes the vectors back |
| Books.MatchOrders | OME_engine.cpp:54-77 | after matching, the symbol's newest pair does not cross; the symbol's buy entry always exists, and its sell entry exists exactly when it already did or the buy side was non-empty, since the empty buy side ends the test before the sell side is looked up |
| Books.MatchOrdersCases | OME_engine.cpp:54-77 | the three ways matchOrders goes: return at an empty buy side, return at an empty sell side, or the loop's outcome written back, with no fill on the two returns |
| Books.MatchOrdersSpec | OME_engine.cpp:54-77 | after matching, the symbol's newest pair does not cross; only the backs of its two sides changed; its net quantity is unchanged; other symbols are untouched; a book whose newest pair does not cross is unchanged |
| Books.AddOrderQuotes | OME_engine.cpp:79-84 | after adding an order, the quote of its side is that order's price, and the other quote is unchanged |
| Books.CurrentPrices | OME_engine.cpp:79-84 | with both sides quoted, the buy quote is at or above the sell quote exactly when the newest pair crosses, so matchOrders would match it; `AddOrderQuotes` and `QuotesNeverCross` are its partners |
| Books.QuotesNeverCross | OME_engine.cpp:79-84 | after the worker has processed any queue from the empty book, a symbol quoted on both sides has its buy price strictly below its sell price |
| Books.RunAppend | OME_engine.cpp:176-191 | processing a queue in two parts is processing it whole: orders are applied one at a time in FIFO order |
| Books.Step | OME_engine.cpp:189-190 | one worker iteration, add then match: the order's symbol is left not crossing, and every other symbol keeps both sides |
| Books.StepSettled | OME_engine.cpp:189-190 | adding an order and matching its symbol keeps every symbol's newest pair from crossing |
| Books.RunSettled | OME_engine.cpp:176-191 | the worker applied to any queue, one order at a time in FIFO order (`Run`), from a settled book (the empty book in particular) leaves every symbol's newest pair not crossing |
| Books.RunSnoc | OME_engine.cpp:176-191 | the book after the worker has taken one more order is one more add-and-match step on the book the earlier orders left |
| Books.StepNet | OME_engine.cpp:189-190 | one worker step changes a symbol's net quantity (bought minus sold) by exactly the added order's signed quantity |
| Books.RunNet | OME_engine.cpp:176-191 | over a queue, a symbol's net quantity moves by exactly the signed quantities of that symbol's orders |
| Books.RunOtherSymbol | OME_engine.cpp:176-191 | a queue with no order for a symbol leaves both of its sides unchanged |
| Books.RunPositive | OME_engine.cpp:176-191 | when every processed order is positive, every resting order stays positive: no order reaches zero and stays in the book |
| Books.ZeroQuantityOrderRests | OME_engine.cpp:42-48 | the engine does not reject a zero-quantity order: a non-crossing one rests in the book |
| Scenarios.PartialFill | OME_engine.cpp:58-76 | buy 10 at 150, then sell 5 at 145: the sell side is empty and the buy keeps 5 |
| Scenarios.SellOnlyQuote | OME_engine.cpp:79-84 | a lone sell at 200 is quoted as (0, 200) |
| Scenarios.NewestBuyMatchedFirst | OME_engine.cpp:59-60 | buys at 150 and 160, then a sell of 3 at 155: the newest buy (160) keeps 2, the buy at 150 is untouched |
| Scenarios.NoCrossNoFill | OME_engine.cpp:62-75 | a buy at 100 and a sell at 101 do not match; both rest with quantity 1 |
| Engine.OrderServer.constructor | OME_engine.cpp:97-99 | a new server refers to the given book, with an empty queue and an empty processing log |
| Engine.OrderServer.Enqueue | OME_engine.cpp:166-169 | a connection handler appends the parsed order at the back of the queue |
| Engine.OrderServer.ProcessNext | OME_engine.cpp:178-190 | the worker takes the front order off the queue, logs "Processing Order", and leaves the book at `Books.Step` of the old book; the book's log gains the "Order added" entry and then the fills (`StepLog`) |
| Engine.OrderServer.ProcessPending | OME_engine.cpp:176-191 | draining the queue leaves it empty and the book equal to `Books.Run` of the old book over the old queue; every order is logged as processed in FIFO order, and the book's log gains each step's lines in turn (`RunLog`) |
| Engine.RunLogSnoc | OME_engine.cpp:176-191 | the log of a drain with one more order is the log of the orders before it followed by that order's "Order added" and fill lines, logged from the book those orders left |
| Parsing.ReadWord | OME_engine.cpp:197 | `>> std::string` yields a whitespace-free, non-empty word exactly when the stream stays good |
| Parsing.ReadInt | OME_engine.cpp:197 | `>> int` leaves the stream good only when it wrote a value |
| Parsing.ReadDouble | OME_engine.cpp:197 | `>> double` leaves the stream good only when it wrote a value |
| Parsing.ParseOrder | OME_engine.cpp:194-198 | each string field of a parsed order is empty or a single whitespace-free word |
| Parsing.Tokens | OME_engine.cpp:197 | the whitespace-separated tokens of a line, each a non-empty run without whitespace, as the string extractions see them |
| Parsing.ReadWordReadsToken | OME_engine.cpp:197 | a string extraction from a good stream reads exactly the next whitespace-separated token, and fails exactly when none is left |
| Parsing.ParseOrderFields | OME_engine.cpp:194-198 | identifier, symbol and side are the line's first three tokens, empty where the line is shorter; a line of fewer than four tokens leaves price and quantity unset |
| Parsing.NatToStringValue | buy_sell_bot.cpp:76 | the decimal digits `std::to_string` writes for a natural number have that number as their value |
| Parsing.NatToString | buy_sell_bot.cpp:76 | `std::to_string` of a natural number: non-empty and starting with a digit |
| Parsing.IntToString | buy_sell_bot.cpp:76 | `std::to_string` of an integer: non-empty, starting with a digit exactly when the number is not negative, and never with whitespace |
| Parsing.OrderLine | buy_sell_bot.cpp:76 | the client's message: the five fields joined by single spaces and ended by a newline, five characters longer than the fields |
| Parsing.OrderLineTokens | buy_sell_bot.cpp:76 | when the five fields are words, the tokens of the client's line are exactly the five fields in order |
| Parsing.ReadIntAt | OME_engine.cpp:197 | an integer in decimal notation, followed by a non-digit, is read back as itself and the stream stops right after it |
| Parsing.ReadDoubleAt | OME_engine.cpp:197 | a price in fixed notation (digits, point, digits), followed by neither a digit nor `e`/`E`, is read back as its exact value and the stream stops right after it |
| Parsing.ParseOrderWords | OME_engine.cpp:197 | three words separated by whitespace become identifier, symbol and side; price and quantity are read from what follows |
| Parsing.ParseOrderLine | buy_sell_bot.cpp:76 | the line the client sends, with `std::to_string` fixed notation for the price, is parsed back into exactly the order it describes, whatever the unset fields would hold |
| Parsing.MalformedPrice | OME_engine.cpp:197 | a price that does not start like a number sets the price to 0, fails the stream, and leaves the quantity unset |
| Parsing.AdjacentNumbers | OME_engine.cpp:197 | the numbers are read from the stream and not split at whitespace: a negative quantity written straight after the price is still read |

## Left out

- Sockets, `startServer`, `serveOrderBook`'s HTTP response and the dispatch in `handleConnection` on "GET /orderbook" are not modelled: they are network I/O. `handleConnection`'s part in the model is the hand-over of a parsed order (`Engine.OrderServer.Enqueue`).
- Threads, the mutexes and the condition variable are not modelled. The worker's blocking wait for a non-empty queue becomes `ProcessNext`'s precondition, and `ProcessPending` stops where the worker would wait. Interleavings of handler threads are not modelled: the queue is a sequence filled by `Enqueue` calls in some order.
- The `ofstream` audit logs are ghost sequences of entries (`LogEntry`, the ghost `processing` field), not formatted text. Truncation at start-up and the two components appending to one file are not modelled.
- The 1024-byte read buffer, its truncation at the first NUL, and a message split across several reads are not modelled. `ParseOrder` takes the received text as a string.
- Floating point: prices are exact reals. Rounding of `double` is not modelled, so two price texts that round to the same `double` compare as different prices here (see the paragraph above the table). The printing of prices in the logs and the JSON quote is not modelled either.
- Books.CurrentPrices: the pure function does not insert empty map entries as `getCurrentPrices`' `operator[]` does. Those entries hold no orders and change no result.
- Books.RunPositive: states that no order at zero or below rests in the book. The other half of removal, that an order with quantity left is never popped, is proved per pass of the loop (`Matching.MatchStep`) and in total by conservation (`Matching.MatchConservesQuantity`: each side loses exactly the filled quantity). It is not stated order by order over a whole run, because orders carry no unique identity in the model.
- Parsing.ReadDouble: the model follows libstdc++'s `num_get`, which reads no hexadecimal float, `inf` or `nan` either. Exponent notation (`1e3`) is not modelled: the number stops at the `e`, whereas `>> double` would read the exponent. A value beyond the range of `double` (a 1 followed by 309 zeros) is read exactly and the stream stays good, whereas libstdc++ stores the largest `double`, fails the stream, and the quantity is not read.
- Parsing.ReadInt: a value outside the range of `int` is read as its exact integer. The real extraction fails and stores the nearest limit.
- Engine.FillBacks: the `int` subtraction in `matchOrders` is exact here, not 32-bit. It overflows in the engine, which is undefined behaviour, on valid `int` inputs: a resting buy of -2000000000 and a crossing sell of 2000000000 leave the sell at 4000000000 (`Matching.NegativeQuantityOverflows`). With positive quantities a pass only lowers the two back quantities by a positive fill (`Matching.MatchStep`, `Matching.MatchStepKeepsPositive`), so nothing overflows.
- Parsing.ParseOrder: the indeterminate value of an unwritten `price` or `quantity` is a parameter, not undefined behaviour.
- Parsing.ParseOrderLine: the round trip is proved for a price written as digits, a point and digits, which is how `std::to_string(double)` writes the client's non-negative prices. The six-digit rounding `std::to_string` applies is not modelled.
- `buy_sell_bot.cpp`'s random choice of side, price and quantity, and its connection handling, are not modelled. Only the line format it sends is used (`Parsing.ParseOrderLine`).
