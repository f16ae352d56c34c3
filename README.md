# Lead-lag pair trading core, modelled in Dafny

This project models the trading core of a lead-lag pair backtester. It has three pieces.

- **`OrderBooks`** (`order_book.dfy`) models the C++ `OrderBook`, which accumulates order flow. It keeps every order on a bid list and an ask list. It reports the order-flow imbalance
  (bid volume − ask volume) / (bid volume + ask volume), and 0 when the book holds no volume. It can also clear itself and count each side.
- **`PairStrategies`** (`pair_strategy.dfy`) models the C++ `PairStrategy`. It owns a leader book and a follower book. It routes each tick by an integer role: 0 is the leader, 1 the follower, anything else is dropped. It turns the leader's imbalance into a ternary signal with two strict comparisons against a fixed threshold.
- **`Backtest`** (`backtest_runner.dfy`) models the Python `BacktestRunner.run` and `_record_signal`. The runner:
  - replays an ordered tick table through a fresh strategy and keeps the last leader price;
  - on each follower tick, while the last leader price is positive, samples five history lists;
  - marks equity at the follower price;
  - trades one unit, or two on a reversal, under a long-only or a long/short policy;
  - logs each trade in a buy log or a sell log;
  - reports the final position, cash, equity, ROI and trade count.

The imperative pieces are classes with `seq` fields, whose methods are proved against specification functions:
- `OrderBook` with `AddOrder`, the two summing loops of `GetImbalance`, `Clear` and the counts;
- `PairStrategy`;
- `BacktestRunner.Run` with its tick loop, and `SignalLog`, the dictionary that `_record_signal` appends to.

A run's meaning is given as values. `RunState` is everything the loop has built after some prefix of the ticks. `Step` is one iteration: first `Route`, then `Evaluate` when the tick is sampled. `Replay` folds `Step` over the ticks, and `Finish` computes the final metrics. `Run` is proved to return `Finish(p, Replay(p, ticks))`. The lemmas then state what every replay keeps true: the histories grow together and the cash accounting balances. The position stays in {-1, 0, 1}, and long-only runs alternate buys and sells.

Numbers are `real`: the volume sums, the ratio, the cash and ROI arithmetic are exact, with no floating-point rounding. Positions are `int`, and timestamps are an abstract `Instant = int`.

Some behaviour a reader might expect is not what the code does; the model follows the code:
- **Quantities are never checked.** One might expect `add_order` to reject or clamp non-positive quantities, but the code stores any quantity. So `AddOrder` has no precondition, and the [-1, 1] bound on the imbalance holds only when every stored quantity is non-negative. `NegativeQuantityLeavesRange` exhibits an imbalance of 2.
- **The threshold and capital are never validated.** One might expect a threshold outside (0, 1] or a negative capital to fail at construction, but the code stores both as given. A negative threshold makes an empty leader book signal +1, so the constructor's "neutral at start" clause is conditional on a non-negative threshold. A zero initial capital makes the ROI division raise, and `Finish` returns `Failure(ZeroDivision)` for it.
- **The book has a clear operation.** A run resets its state by building a fresh strategy, but `OrderBook::clear` also exists and is modelled.
- **A reversal moves two units of cash.** Starting from 10000 flat, buying at 100 and reversing at 110 might be expected to leave 10110 in cash, and reversing back at 90 to leave 9930. The code credits or debits twice the price at each reversal (lines 97 and 107), which gives 10120 and 9940. `LongShortReversals` states the code's numbers.
- **Any non-leader symbol is a follower.** `run` treats every symbol other than the leader symbol as a follower tick. Its `follower_symbol` argument is never read, and `Run` takes it and ignores it likewise.

## Model

| member | source | states |
|---|---|---|
| OrderBooks.OrderBook.constructor | src/cpp/order_book.cpp:5 | a new book holds no bids and no asks, so its imbalance is 0 |
| OrderBooks.OrderBook.AddOrder | src/cpp/order_book.cpp:7-13 | a bid appends exactly (price, quantity) to the bids and leaves the asks unchanged; an ask does the converse |
| OrderBooks.OrderBook.GetImbalance | src/cpp/order_book.cpp:15-25 | the two accumulation loops return Imbalance(bids, asks), which is 0 on zero volume and otherwise (Σbid − Σask)/(Σbid + Σask); the result lies in [-1, 1] when no stored quantity is negative; the book is not modified |
| OrderBooks.OrderBook.Clear | src/cpp/order_book.cpp:27-31 | both sides become empty and the imbalance is 0 |
| OrderBooks.OrderBook.GetBidCount | src/cpp/order_book.cpp:33-36 | the number of bid orders stored since construction or the last clear |
| OrderBooks.OrderBook.GetAskCount | src/cpp/order_book.cpp:38-41 | the number of ask orders stored since construction or the last clear |
| OrderBooks.SumAppend | src/cpp/order_book.cpp:19 | appending an order adds exactly its quantity to the side's volume |
| OrderBooks.SumNonNegative | src/cpp/order_book.cpp:19-20 | a side whose quantities are all non-negative has non-negative volume |
| OrderBooks.SumIgnoresPrices | src/cpp/order_book.cpp:19-20 | the volume depends only on the quantities, in order, never on the prices |
| OrderBooks.SumCopies | src/cpp/order_book.cpp:19 | n orders of quantity q sum to q·n |
| OrderBooks.ImbalanceIgnoresPrices | src/cpp/order_book.cpp:15-25 | two books with the same quantities have the same imbalance, whatever their prices |
| OrderBooks.ImbalanceBounded | src/cpp/order_book.cpp:19-24 | with non-negative quantities the imbalance is in [-1, 1] |
| OrderBooks.NegativeQuantityLeavesRange | src/cpp/order_book.cpp:7-13 | because add_order accepts a negative quantity, a book with a bid of 3 and an ask of −1 has imbalance 2 |
| OrderBooks.OneSidedBookSaturates | src/cpp/order_book.cpp:21-24 | non-zero volume on the bid side only gives exactly 1, on the ask side only exactly −1, and zero total volume gives 0 |
| OrderBooks.RatioBounded | src/cpp/order_book.cpp:21-24 | the normalised difference of two non-negative volumes lies in [-1, 1] |
| OrderBooks.RatioGrowsWithBidVolume | src/cpp/order_book.cpp:21-24 | adding non-negative volume to the bid side never lowers the normalised difference |
| OrderBooks.RatioSwap | src/cpp/order_book.cpp:21-24 | exchanging the two volumes negates the normalised difference |
| OrderBooks.BidNeverLowersImbalance | src/cpp/order_book.cpp:7-25 | adding a bid of non-negative quantity to a book with non-negative quantities never lowers its imbalance |
| OrderBooks.AskNeverRaisesImbalance | src/cpp/order_book.cpp:7-25 | adding an ask of non-negative quantity never raises the imbalance |
| PairStrategies.SignalOf | src/cpp/pair_strategy.cpp:11-18 | the signal is in {1, 0, −1}; it is 1 iff obi > threshold, −1 iff the buy test fails and obi < −threshold, and 0 iff −threshold ≤ obi ≤ threshold |
| PairStrategies.SignalWithNonNegativeThreshold | src/cpp/pair_strategy.cpp:15-17 | with a non-negative threshold, −1 means exactly obi < −threshold, and an imbalance equal to ±threshold is neutral |
| PairStrategies.PairStrategy.constructor | src/cpp/pair_strategy.cpp:4 | both books are fresh, distinct and empty; the threshold is stored unchanged; the signal is neutral if the threshold is non-negative |
| PairStrategies.PairStrategy.OnMarketData | src/cpp/pair_strategy.cpp:6-9 | role 0 appends the order to the leader book's chosen side only; role 1 does the same on the follower book only; any other role changes nothing; a non-leader tick never changes the signal |
| PairStrategies.PairStrategy.CheckSignals | src/cpp/pair_strategy.cpp:11-18 | returns the threshold rule applied to the leader book's imbalance: 1 iff it exceeds the threshold, and, with a non-negative threshold, −1 iff it is below −threshold; nothing is modified |
| PairStrategies.PairStrategy.GetLeaderImbalance | src/cpp/pair_strategy.cpp:20-22 | the leader book's imbalance, which is in [-1, 1] when the leader's quantities are non-negative; nothing is modified |
| PairStrategies.PumpScenario | tests/test_strategy.py:27-48 | under threshold 0.7 a calm leader book (one bid and one ask of quantity 1) gives signal 0, and ten more leader bids of quantity 5 give signal 1 |
| PairStrategies.CrashScenario | tests/test_strategy.py:58-68 | twenty leader asks of quantity 5 on a fresh strategy with threshold 0.7 give signal −1 |
| Backtest.RecordedAdds | src/engine/backtest_runner.py:143-147 | one recorded trade keeps the log's three lists of equal length, adds one entry, adds its size to the log's units and size × price to its notional |
| Backtest.ExecuteAccounting | src/engine/backtest_runner.py:88-120 | the position state machine: a signal other than ±1 trades nothing; a buy needs signal 1, ends long and pays size × price; a sell needs signal −1 and receives size × price; a fill changes the position by exactly its size; the position stays in {−1, 0, 1}, and in {0, 1} when long-only |
| Backtest.LongShortReversals | src/engine/backtest_runner.py:90-108 | from 10000 flat under long/short: a buy at 100 gives long and 9900; a sell at 110 reverses to short with 10120; a buy at 90 reverses to long with 9940; the reversals trade two units |
| Backtest.LongOnlyNoReversal | src/engine/backtest_runner.py:110-120 | the same signals long-only: long with 9900, then flat with 10010, then a sell while flat trades nothing |
| Backtest.StepEffects | src/engine/backtest_runner.py:58-86 | a leader tick sets the last leader price and changes no follower book, history, position, cash or log; a follower tick leaves the leader side alone; a follower tick while the last leader price is positive appends timestamp, leader imbalance, follower price, last leader price and the pre-trade equity cash + position × price; any other tick changes none of the five histories, the position, the cash or the logs |
| Backtest.EvaluateSamples | src/engine/backtest_runner.py:82-86 | the equity recorded on a sample is computed from the position and cash before that tick's trade |
| Backtest.ReplayStep | src/engine/backtest_runner.py:58 | the ticks are processed in order, one step per tick |
| Backtest.InitialInvariant | src/engine/backtest_runner.py:40-55 | a run starts flat, with the initial capital as cash, empty histories and empty logs, and the invariant holds there |
| Backtest.BuyKeepsAccounts | src/engine/backtest_runner.py:88-120 | a buy that adds its size to the position and pays size × price (from flat only when long-only) keeps the books balanced and logs exactly one entry |
| Backtest.SellKeepsAccounts | src/engine/backtest_runner.py:88-120 | a sell that subtracts its size from the position and receives size × price (from long to flat only when long-only) keeps the books balanced and logs exactly one entry |
| Backtest.SettleKeepsAccounts | src/engine/backtest_runner.py:88-120 | trading on any signal keeps the books balanced (position = units bought − units sold; cash = capital − notional bought + notional sold; position in {−1, 0, 1}; long-only buys = sells + position) and logs at most one trade |
| Backtest.EvaluatePreservesInvariant | src/engine/backtest_runner.py:70-120 | one sampled evaluation keeps the five histories of equal length, at most one trade per sample, and the books balanced |
| Backtest.StepPreservesInvariant | src/engine/backtest_runner.py:58-120 | one iteration of the tick loop, leader or follower, preserves the ledger invariant |
| Backtest.ReplayInvariant | src/engine/backtest_runner.py:42-120 | after any sequence of ticks the ledger invariant holds |
| Backtest.RunMetrics | src/engine/backtest_runner.py:122-126 | the report fails exactly when the initial capital is 0; otherwise final cash = capital − bought notional + sold notional; the final position is in {−1, 0, 1}, and in {0, 1} long-only; total_trades counts both logs; the final equity marks the position at the last follower price, and is the cash with position 0 and no trades when nothing was sampled |
| Backtest.LongOnlyAlternates | src/engine/backtest_runner.py:110-120 | in a long-only run buys and sells strictly alternate starting with a buy, the run holds one unit exactly when there is one more buy, and it is never short |
| Backtest.LeaderBidsOnly | src/engine/backtest_runner.py:58-68 | any sequence of leader bid ticks puts exactly their orders, in tick order, on the leader's bid side and leaves the last leader price at the last tick's price; the leader asks and the follower book stay empty; no sample, no trade, cash unchanged |
| Backtest.OrdersOfCopies | src/engine/backtest_runner.py:58-67 | n copies of one tick carry n copies of its order |
| Backtest.EndToEndLongEntry | src/engine/backtest_runner.py:58-120 | long-only with capital 10000 and threshold 0.7: ten leader bids of 5 at 100 put the leader imbalance at 1, and the next follower tick at 50 goes long with cash 9950 and exactly one logged buy |
| Backtest.SignalLog.constructor | src/engine/backtest_runner.py:49-50 | a new signal log has three empty lists |
| Backtest.BacktestRunner.constructor | src/engine/backtest_runner.py:14-24 | the threshold and initial capital are stored unchanged and no strategy exists yet |
| Backtest.BacktestRunner.RecordSignal | src/engine/backtest_runner.py:143-147 | appends the timestamp, the price and the (label, size) description to the log's three lists; the size defaults to 1 |
| Backtest.BacktestRunner.ApplySignal | src/engine/backtest_runner.py:88-120 | the branches of both policies move the position and cash exactly as Execute decides, and append the fill, if any, to the buy log or the sell log only |
| Backtest.BacktestRunner.ProcessTick | src/engine/backtest_runner.py:58-120 | one pass of the tick loop over the strategy's books, the locals and the two logs produces exactly Step of the state before it |
| Backtest.BacktestRunner.Run | src/engine/backtest_runner.py:25-141 | installs a fresh strategy with the runner's threshold, whose four book sides afterwards hold exactly the orders Replay routes to them; long-only by default; returns exactly Finish of Replay of the ticks, so every lemma about Replay and Finish applies to its result |

## Left out

- The mutex in every `OrderBook` method and the threaded test: each method is modelled as one atomic sequential step, and concurrency is not modelled.
- `unique_ptr` ownership: the books hold `Order` values, and the strategy owns two distinct `OrderBook` objects.
- The pybind11 bindings, the build script, the Streamlit dashboard, DuckDB storage, the exchange data loader and `run_backtest.py` are not part of this model. They are I/O, UI or glue. `run_backtest.py` repeats the long-only ledger with an extra `cash >= cost` guard, and that guard is not modelled.
- The HTML text of a logged trade's description is not modelled. `_record_signal` formats the label, price, size, leader imbalance and threshold; the model keeps only the label and the size. The imbalance argument is therefore dropped from `RecordSignal`.
- Floating point: `double` and Python `float` are modelled as exact `real`, with no rounding in the volume sums, the ratio, the cash or the ROI.
- OrderBook.GetBidCount: returns a `nat`, not the C++ `int` that truncates `size()` beyond 2^31 − 1 orders.
- OrderBook.GetAskCount: returns a `nat`, not the C++ `int` that truncates `size()` beyond 2^31 − 1 orders.
- The pandas DataFrame is a `seq<Tick>`, and `itertuples` iterates it in order. Timestamps are an opaque `int`, since the loop only copies them into the histories and logs.
- BacktestRunner.Run: the body of the Python `for` loop is split into `ProcessTick`, and its ledger block (lines 88-120) into `ApplySignal`. This keeps each proof small. The statements and their order are those of the source.
- BacktestRunner.Run: when the initial capital is 0, Python raises `ZeroDivisionError` at the ROI and returns nothing; the model returns `Failure(ZeroDivision)` instead.
- PairStrategy.constructor: states a neutral initial signal only for a non-negative threshold, because the code does not validate the threshold.
- PairStrategy.CheckSignals: states "−1 iff below −threshold" only for a non-negative threshold. With a negative threshold both tests can hold, and the buy test wins, as `SignalOf` states for every threshold.
