/**
 * The backtest ledger: replays an ordered stream of ticks through a fresh
 * pair strategy, samples the follower's mark-to-market equity, executes
 * one-unit trades on the follower from the strategy's signal (long-only, or
 * long/short with reversals), logs every trade and reports final metrics.
 *
 * `RunState`, `Step` and `Replay` give the meaning of a run as values;
 * `BacktestRunner.Run` is the loop itself, proved to produce `Finish` of
 * `Replay`, and the lemmas state what every run keeps true.
 */
module Backtest {
  import opened OrderBooks
  import opened PairStrategies

  /** A tick's timestamp; only carried along, never compared. */
  type Instant = int

  /** One row of the tick table. */
  datatype Tick = Tick(timestamp: Instant, symbol: string, price: real, quantity: real, side: string)

  /** The label of a logged trade (its description text is not modelled). */
  datatype Action = LongEntry | ShortCoverLongEntry | ShortEntry | LongCloseShortEntry | LongClose

  /** What a logged trade describes: its label and its size in units. */
  datatype Desc = Desc(action: Action, quantity: real)

  /** One signal log: timestamps `x`, prices `y` and descriptions, index by index. */
  datatype Signals = Signals(x: seq<Instant>, y: seq<real>, desc: seq<Desc>)

  datatype Side = Buy | Sell

  /** A trade decided by the position state machine. */
  datatype Fill = Fill(side: Side, action: Action, quantity: real)

  datatype Option<T> = None | Some(value: T)

  /** The position, the cash, and the trade (if any) after one decision. */
  datatype Trade = Trade(position: int, cash: real, fill: Option<Fill>)

  /** The configuration of one run. */
  datatype RunParams = RunParams(threshold: real, initialCapital: real, leaderSymbol: string, allowShortSelling: bool)

  /**
   * Everything a run has built after some prefix of the ticks: the contents
   * of the strategy's two books, the sticky leader price, the position and
   * cash, the five history lists and the two signal logs.
   */
  datatype RunState = RunState(
    leaderBids: seq<Order>, leaderAsks: seq<Order>,
    followerBids: seq<Order>, followerAsks: seq<Order>,
    lastLeaderPrice: real, position: int, cash: real,
    historyTimestamps: seq<Instant>, historyLeaderObi: seq<real>,
    historyFollowerPrice: seq<real>, historyLeaderPrice: seq<real>,
    historyEquity: seq<real>,
    signalsBuy: Signals, signalsSell: Signals)

  /** What a run returns. */
  datatype Report = Report(
    historyTimestamps: seq<Instant>, historyLeaderObi: seq<real>,
    historyFollowerPrice: seq<real>, historyLeaderPrice: seq<real>,
    historyEquity: seq<real>,
    signalsBuy: Signals, signalsSell: Signals,
    finalPosition: int, finalCash: real, finalEquity: real, roi: real,
    totalTrades: nat)

  datatype RunError = ZeroDivision

  datatype Result<T> = Success(value: T) | Failure(error: RunError)

  const NoSignals: Signals := Signals([], [], [])

  /** A signal log with one more entry at the end. */
  function Recorded(log: Signals, timestamp: Instant, price: real, action: Action, quantity: real): (r: Signals)
  {
    Signals(log.x + [timestamp], log.y + [price], log.desc + [Desc(action, quantity)])
  }

  /** The three lists of a signal log have the same length. */
  predicate WellFormed(log: Signals)
  {
    |log.y| == |log.x| && |log.desc| == |log.x|
  }

  /** The total number of units a log has traded. */
  function Units(desc: seq<Desc>): (r: real)
  {
    if |desc| == 0 then 0.0 else Units(desc[..|desc| - 1]) + desc[|desc| - 1].quantity
  }

  /** The total cash a log has moved: the sum of price times units. */
  function Notional(y: seq<real>, desc: seq<Desc>): (r: real)
    requires |y| == |desc|
  {
    if |y| == 0 then 0.0
    else Notional(y[..|y| - 1], desc[..|desc| - 1]) + y[|y| - 1] * desc[|desc| - 1].quantity
  }

  function LogUnits(log: Signals): (r: real)
  {
    Units(log.desc)
  }

  function LogNotional(log: Signals): (r: real)
    requires WellFormed(log)
  {
    Notional(log.y, log.desc)
  }

  lemma RecordedAdds(log: Signals, timestamp: Instant, price: real, action: Action, quantity: real)
    requires WellFormed(log)
    ensures var log' := Recorded(log, timestamp, price, action, quantity);
      && WellFormed(log')
      && |log'.x| == |log.x| + 1
      && LogUnits(log') == LogUnits(log) + quantity
      && LogNotional(log') == LogNotional(log) + price * quantity
  {
    var log' := Recorded(log, timestamp, price, action, quantity);
    assert log'.y[..|log.y|] == log.y;
    assert log'.desc[..|log.desc|] == log.desc;
  }

  /**
   * The position state machine on one signal at follower price `price`.
   * Long/short: Flat or Short goes Long on +1, Flat or Long goes Short on
   * -1, a reversal trading two units. Long-only: Flat goes Long on +1, a
   * positive position goes Flat on -1. Anything else trades nothing.
   */
  function Execute(allowShortSelling: bool, position: int, cash: real, signal: int, price: real): (r: Trade)
  {
    if allowShortSelling then
      if signal == 1 then
        if position == 0 then Trade(1, cash - price, Some(Fill(Buy, LongEntry, 1.0)))
        else if position == -1 then Trade(1, cash - price * 2.0, Some(Fill(Buy, ShortCoverLongEntry, 2.0)))
        else Trade(position, cash, None)
      else if signal == -1 then
        if position == 0 then Trade(-1, cash + price, Some(Fill(Sell, ShortEntry, 1.0)))
        else if position == 1 then Trade(-1, cash + price * 2.0, Some(Fill(Sell, LongCloseShortEntry, 2.0)))
        else Trade(position, cash, None)
      else Trade(position, cash, None)
    else
      if signal == 1 && position == 0 then Trade(1, cash - price, Some(Fill(Buy, LongEntry, 1.0)))
      else if signal == -1 && position > 0 then Trade(0, cash + price, Some(Fill(Sell, LongClose, 1.0)))
      else Trade(position, cash, None)
  }

  /**
   * The accounting of one decision: no signal, no trade; a buy pays units
   * times price and adds the units to the position, a sell receives units
   * times price and subtracts them; the position stays in {-1, 0, 1}, and
   * in {0, 1} when long-only.
   */
  lemma ExecuteAccounting(allowShortSelling: bool, position: int, cash: real, signal: int, price: real)
    ensures var r := Execute(allowShortSelling, position, cash, signal, price);
      && (signal != 1 && signal != -1 ==> r == Trade(position, cash, None))
      && (r.fill.None? ==> r.position == position && r.cash == cash)
      && (r.fill.Some? ==> r.position != position)
      && (r.fill.Some? && r.fill.value.side == Buy ==> signal == 1 && r.position == 1 && r.cash == cash - r.fill.value.quantity * price)
      && (r.fill.Some? && r.fill.value.side == Sell ==> signal == -1 && r.cash == cash + r.fill.value.quantity * price)
      && (-1 <= position <= 1 && r.fill.Some? && r.fill.value.side == Buy ==> r.position as real == position as real + r.fill.value.quantity)
      && (-1 <= position <= 1 && r.fill.Some? && r.fill.value.side == Sell ==> r.position as real == position as real - r.fill.value.quantity)
      && (-1 <= position <= 1 ==> -1 <= r.position <= 1)
      && (!allowShortSelling && 0 <= position <= 1 ==> 0 <= r.position <= 1)
  {
  }

  /** A log after a trade: one entry more when the trade filled on `side`. */
  function LogFill(log: Signals, side: Side, fill: Option<Fill>, timestamp: Instant, price: real): (r: Signals)
  {
    if fill.Some? && fill.value.side == side
    then Recorded(log, timestamp, price, fill.value.action, fill.value.quantity)
    else log
  }

  /** Cash plus the position marked at `price`: a short position owes its price. */
  function Equity(cash: real, position: int, price: real): (r: real)
  {
    cash + position as real * price
  }

  /** The state at the start of every run. */
  function Initial(p: RunParams): (r: RunState)
  {
    RunState([], [], [], [], 0.0, 0, p.initialCapital, [], [], [], [], [], NoSignals, NoSignals)
  }

  /** A tick is the leader's exactly when its symbol is the leader symbol. */
  predicate IsLeaderTick(p: RunParams, t: Tick)
  {
    t.symbol == p.leaderSymbol
  }

  /** A follower tick is sampled while the last leader price is positive. */
  predicate Sampled(p: RunParams, s: RunState, t: Tick)
  {
    !IsLeaderTick(p, t) && s.lastLeaderPrice > 0.0
  }

  /** The order a tick adds to the side of one book that `isBid` selects. */
  function AddTo(bids: seq<Order>, asks: seq<Order>, t: Tick, isBid: bool): (r: (seq<Order>, seq<Order>))
  {
    if isBid then (bids + [Order(t.price, t.quantity)], asks)
    else (bids, asks + [Order(t.price, t.quantity)])
  }

  /** One evaluation on a follower tick: sample, decide, trade, log. */
  function Evaluate(p: RunParams, s: RunState, t: Tick): (r: RunState)
  {
    var obi := Imbalance(s.leaderBids, s.leaderAsks);
    var equity := Equity(s.cash, s.position, t.price);
    var signal := SignalOf(obi, p.threshold);
    var trade := Execute(p.allowShortSelling, s.position, s.cash, signal, t.price);
    var buys := LogFill(s.signalsBuy, Buy, trade.fill, t.timestamp, t.price);
    var sells := LogFill(s.signalsSell, Sell, trade.fill, t.timestamp, t.price);
    s.(historyTimestamps := s.historyTimestamps + [t.timestamp],
       historyLeaderObi := s.historyLeaderObi + [obi],
       historyFollowerPrice := s.historyFollowerPrice + [t.price],
       historyLeaderPrice := s.historyLeaderPrice + [s.lastLeaderPrice],
       historyEquity := s.historyEquity + [equity],
       position := trade.position, cash := trade.cash,
       signalsBuy := buys, signalsSell := sells)
  }

  /**
   * Hands one tick to the strategy: a leader tick sets the leader price and
   * feeds the leader book, any other tick feeds the follower book.
   */
  function Route(p: RunParams, s: RunState, t: Tick): (r: RunState)
  {
    var isBid := t.side == "buy";
    if IsLeaderTick(p, t) then
      var (bids, asks) := AddTo(s.leaderBids, s.leaderAsks, t, isBid);
      s.(leaderBids := bids, leaderAsks := asks, lastLeaderPrice := t.price)
    else
      var (bids, asks) := AddTo(s.followerBids, s.followerAsks, t, isBid);
      s.(followerBids := bids, followerAsks := asks)
  }

  /** One tick: route it, then evaluate if it is a sampled follower tick. */
  function Step(p: RunParams, s: RunState, t: Tick): (r: RunState)
  {
    var routed := Route(p, s, t);
    if !IsLeaderTick(p, t) && routed.lastLeaderPrice > 0.0 then Evaluate(p, routed, t) else routed
  }

  /**
   * A leader tick sets the leader price and touches nothing of the ledger;
   * a follower tick leaves the leader book and price alone and, while the
   * last leader price is positive, appends one history sample whose equity
   * is the pre-trade mark-to-market value; otherwise nothing is recorded
   * and nothing is traded.
   */
  lemma StepEffects(p: RunParams, s: RunState, t: Tick)
    ensures var r := Step(p, s, t);
      && (IsLeaderTick(p, t) ==>
            && r.lastLeaderPrice == t.price
            && r.followerBids == s.followerBids && r.followerAsks == s.followerAsks
            && r.position == s.position && r.cash == s.cash
            && r.historyTimestamps == s.historyTimestamps && r.historyEquity == s.historyEquity
            && r.historyLeaderObi == s.historyLeaderObi && r.historyFollowerPrice == s.historyFollowerPrice
            && r.historyLeaderPrice == s.historyLeaderPrice
            && r.signalsBuy == s.signalsBuy && r.signalsSell == s.signalsSell)
      && (!IsLeaderTick(p, t) ==>
            r.lastLeaderPrice == s.lastLeaderPrice && r.leaderBids == s.leaderBids && r.leaderAsks == s.leaderAsks)
      && (Sampled(p, s, t) ==>
            && r.historyTimestamps == s.historyTimestamps + [t.timestamp]
            && r.historyLeaderObi == s.historyLeaderObi + [Imbalance(s.leaderBids, s.leaderAsks)]
            && r.historyFollowerPrice == s.historyFollowerPrice + [t.price]
            && r.historyLeaderPrice == s.historyLeaderPrice + [s.lastLeaderPrice]
            && r.historyEquity == s.historyEquity + [Equity(s.cash, s.position, t.price)])
      && (!Sampled(p, s, t) ==>
            && r.historyTimestamps == s.historyTimestamps && r.historyLeaderObi == s.historyLeaderObi
            && r.historyFollowerPrice == s.historyFollowerPrice && r.historyLeaderPrice == s.historyLeaderPrice
            && r.historyEquity == s.historyEquity
            && r.position == s.position && r.cash == s.cash
            && r.signalsBuy == s.signalsBuy && r.signalsSell == s.signalsSell)
  {
    if Sampled(p, s, t) {
      var routed := Route(p, s, t);
      EvaluateSamples(p, routed, t);
    }
  }

  lemma EvaluateSamples(p: RunParams, s: RunState, t: Tick)
    ensures Evaluate(p, s, t).historyEquity == s.historyEquity + [Equity(s.cash, s.position, t.price)]
  {
  }

  /** The state after the ticks, processed in order from the initial state. */
  function Replay(p: RunParams, ticks: seq<Tick>): (r: RunState)
  {
    if |ticks| == 0 then Initial(p)
    else Step(p, Replay(p, ticks[..|ticks| - 1]), ticks[|ticks| - 1])
  }

  lemma ReplayStep(p: RunParams, ticks: seq<Tick>, i: nat)
    requires i < |ticks|
    ensures Replay(p, ticks[..i + 1]) == Step(p, Replay(p, ticks[..i]), ticks[i])
  {
    assert ticks[..i + 1][..i] == ticks[..i];
  }

  /** The final metrics: fails as the source does when the capital is 0. */
  function Finish(p: RunParams, s: RunState): (r: Result<Report>)
  {
    var finalPrice := if |s.historyFollowerPrice| > 0 then s.historyFollowerPrice[|s.historyFollowerPrice| - 1] else 0.0;
    var finalEquity := Equity(s.cash, s.position, finalPrice);
    if p.initialCapital == 0.0 then Failure(ZeroDivision)
    else
      var roi := (finalEquity - p.initialCapital) / p.initialCapital * 100.0;
      Success(Report(
        s.historyTimestamps, s.historyLeaderObi, s.historyFollowerPrice, s.historyLeaderPrice, s.historyEquity,
        s.signalsBuy, s.signalsSell,
        s.position, s.cash, finalEquity, roi,
        |s.signalsBuy.x| + |s.signalsSell.x|))
  }

  /**
   * The books balance: the position is the units bought minus the units
   * sold, the cash is the initial capital minus what the buys paid plus
   * what the sells received, the position never leaves {-1, 0, 1}, and a
   * long-only run alternates buys and sells, starting with a buy.
   */
  predicate Accounts(p: RunParams, position: int, cash: real, buys: Signals, sells: Signals)
  {
    && WellFormed(buys) && WellFormed(sells)
    && -1 <= position <= 1
    && position as real == LogUnits(buys) - LogUnits(sells)
    && cash == p.initialCapital - LogNotional(buys) + LogNotional(sells)
    && (!p.allowShortSelling ==> 0 <= position <= 1 && |buys.x| == |sells.x| + position)
  }

  /**
   * What holds after every prefix of a run: the five histories grow
   * together, at most one trade is logged per sample, and the books balance.
   */
  predicate LedgerInvariant(p: RunParams, s: RunState)
  {
    && |s.historyLeaderObi| == |s.historyTimestamps|
    && |s.historyFollowerPrice| == |s.historyTimestamps|
    && |s.historyLeaderPrice| == |s.historyTimestamps|
    && |s.historyEquity| == |s.historyTimestamps|
    && |s.signalsBuy.x| + |s.signalsSell.x| <= |s.historyTimestamps|
    && Accounts(p, s.position, s.cash, s.signalsBuy, s.signalsSell)
  }

  lemma InitialInvariant(p: RunParams)
    ensures LedgerInvariant(p, Initial(p))
  {
  }

  /** A trade that buys keeps the books balanced and logs one entry. */
  lemma BuyKeepsAccounts(p: RunParams, position: int, cash: real, buys: Signals, sells: Signals,
                         timestamp: Instant, price: real, trade: Trade)
    requires Accounts(p, position, cash, buys, sells)
    requires trade.fill.Some? && trade.fill.value.side == Buy
    requires -1 <= trade.position <= 1
    requires trade.position as real == position as real + trade.fill.value.quantity
    requires trade.cash == cash - trade.fill.value.quantity * price
    requires !p.allowShortSelling ==> position == 0 && trade.position == 1
    ensures var buys', sells' := LogFill(buys, Buy, trade.fill, timestamp, price), LogFill(sells, Sell, trade.fill, timestamp, price);
      && Accounts(p, trade.position, trade.cash, buys', sells')
      && |buys'.x| + |sells'.x| == |buys.x| + |sells.x| + 1
  {
    RecordedAdds(buys, timestamp, price, trade.fill.value.action, trade.fill.value.quantity);
  }

  /** A trade that sells keeps the books balanced and logs one entry. */
  lemma SellKeepsAccounts(p: RunParams, position: int, cash: real, buys: Signals, sells: Signals,
                          timestamp: Instant, price: real, trade: Trade)
    requires Accounts(p, position, cash, buys, sells)
    requires trade.fill.Some? && trade.fill.value.side == Sell
    requires -1 <= trade.position <= 1
    requires trade.position as real == position as real - trade.fill.value.quantity
    requires trade.cash == cash + trade.fill.value.quantity * price
    requires !p.allowShortSelling ==> position == 1 && trade.position == 0
    ensures var buys', sells' := LogFill(buys, Buy, trade.fill, timestamp, price), LogFill(sells, Sell, trade.fill, timestamp, price);
      && Accounts(p, trade.position, trade.cash, buys', sells')
      && |buys'.x| + |sells'.x| == |buys.x| + |sells.x| + 1
  {
    RecordedAdds(sells, timestamp, price, trade.fill.value.action, trade.fill.value.quantity);
  }

  /** Trading on any signal keeps the books balanced and logs at most one trade. */
  lemma SettleKeepsAccounts(p: RunParams, position: int, cash: real, buys: Signals, sells: Signals,
                            signal: int, timestamp: Instant, price: real)
    requires Accounts(p, position, cash, buys, sells)
    ensures var trade := Execute(p.allowShortSelling, position, cash, signal, price);
      var buys', sells' := LogFill(buys, Buy, trade.fill, timestamp, price), LogFill(sells, Sell, trade.fill, timestamp, price);
      && Accounts(p, trade.position, trade.cash, buys', sells')
      && |buys'.x| + |sells'.x| <= |buys.x| + |sells.x| + 1
  {
    var trade := Execute(p.allowShortSelling, position, cash, signal, price);
    ExecuteAccounting(p.allowShortSelling, position, cash, signal, price);
    if trade.fill.None? {
      assert LogFill(buys, Buy, trade.fill, timestamp, price) == buys;
      assert LogFill(sells, Sell, trade.fill, timestamp, price) == sells;
    } else if trade.fill.value.side == Buy {
      assert !p.allowShortSelling ==> position == 0;
      BuyKeepsAccounts(p, position, cash, buys, sells, timestamp, price, trade);
    } else {
      assert !p.allowShortSelling ==> position == 1 && trade.position == 0;
      SellKeepsAccounts(p, position, cash, buys, sells, timestamp, price, trade);
    }
  }

  lemma EvaluatePreservesInvariant(p: RunParams, s: RunState, t: Tick)
    requires LedgerInvariant(p, s)
    ensures LedgerInvariant(p, Evaluate(p, s, t))
  {
    var signal := SignalOf(Imbalance(s.leaderBids, s.leaderAsks), p.threshold);
    SettleKeepsAccounts(p, s.position, s.cash, s.signalsBuy, s.signalsSell, signal, t.timestamp, t.price);
  }

  lemma StepPreservesInvariant(p: RunParams, s: RunState, t: Tick)
    requires LedgerInvariant(p, s)
    ensures LedgerInvariant(p, Step(p, s, t))
  {
    if !IsLeaderTick(p, t) && s.lastLeaderPrice > 0.0 {
      EvaluatePreservesInvariant(p, Route(p, s, t), t);
    }
  }

  /** Every replay, of any tick sequence, satisfies the ledger invariant. */
  lemma {:induction false} ReplayInvariant(p: RunParams, ticks: seq<Tick>)
    ensures LedgerInvariant(p, Replay(p, ticks))
  {
    if |ticks| == 0 {
      InitialInvariant(p);
    } else {
      ReplayInvariant(p, ticks[..|ticks| - 1]);
      StepPreservesInvariant(p, Replay(p, ticks[..|ticks| - 1]), ticks[|ticks| - 1]);
    }
  }

  /**
   * The reported metrics of any run: it fails exactly when the initial
   * capital is 0; otherwise the final cash is the capital minus the cost of
   * the buys plus the proceeds of the sells, the final position is -1, 0 or
   * 1 (never -1 when long-only), the final equity marks the position at the
   * last sampled follower price (and is the cash when nothing was sampled),
   * and the trade count is the number of logged buys and sells.
   */
  lemma RunMetrics(p: RunParams, ticks: seq<Tick>)
    ensures var s := Replay(p, ticks);
      var r := Finish(p, s);
      && (r.Failure? <==> p.initialCapital == 0.0)
      && (r.Success? ==>
          && WellFormed(r.value.signalsBuy) && WellFormed(r.value.signalsSell)
          && r.value.finalCash
               == p.initialCapital - LogNotional(r.value.signalsBuy) + LogNotional(r.value.signalsSell)
          && -1 <= r.value.finalPosition <= 1
          && (!p.allowShortSelling ==> 0 <= r.value.finalPosition <= 1)
          && r.value.totalTrades == |r.value.signalsBuy.x| + |r.value.signalsSell.x|
          && |r.value.historyEquity| == |r.value.historyFollowerPrice|
          && (|r.value.historyFollowerPrice| == 0 ==>
                r.value.finalPosition == 0 && r.value.totalTrades == 0 && r.value.finalEquity == r.value.finalCash)
          && (|r.value.historyFollowerPrice| > 0 ==>
                r.value.finalEquity == Equity(r.value.finalCash, r.value.finalPosition,
                                              r.value.historyFollowerPrice[|r.value.historyFollowerPrice| - 1])))
  {
    ReplayInvariant(p, ticks);
  }

  /**
   * In a long-only run the buys and sells strictly alternate, starting
   * with a buy: after any prefix of the ticks there are as many buys as
   * sells, or one more buy, and then the run holds the one unit bought.
   */
  lemma {:induction false} LongOnlyAlternates(p: RunParams, ticks: seq<Tick>)
    requires !p.allowShortSelling
    ensures var s := Replay(p, ticks);
      && (|s.signalsBuy.x| == |s.signalsSell.x| || |s.signalsBuy.x| == |s.signalsSell.x| + 1)
      && (s.position == 1 <==> |s.signalsBuy.x| == |s.signalsSell.x| + 1)
      && s.position != -1
  {
    ReplayInvariant(p, ticks);
  }

  /**
   * The reversal arithmetic of the long/short policy: from 10000 flat, a
   * buy at 100 goes long with 9900, a sell at 110 reverses to short with
   * 10120 (two units at 110), a buy at 90 reverses back to long with 9940
   * (two units at 90).
   */
  lemma LongShortReversals()
    ensures Execute(true, 0, 10000.0, 1, 100.0) == Trade(1, 9900.0, Some(Fill(Buy, LongEntry, 1.0)))
    ensures Execute(true, 1, 9900.0, -1, 110.0) == Trade(-1, 10120.0, Some(Fill(Sell, LongCloseShortEntry, 2.0)))
    ensures Execute(true, -1, 10120.0, 1, 90.0) == Trade(1, 9940.0, Some(Fill(Buy, ShortCoverLongEntry, 2.0)))
  {
  }

  /**
   * The same signals under the long-only policy: long with 9900, flat with
   * 10010, and a further sell while flat trades nothing.
   */
  lemma LongOnlyNoReversal()
    ensures Execute(false, 0, 10000.0, 1, 100.0) == Trade(1, 9900.0, Some(Fill(Buy, LongEntry, 1.0)))
    ensures Execute(false, 1, 9900.0, -1, 110.0) == Trade(0, 10010.0, Some(Fill(Sell, LongClose, 1.0)))
    ensures Execute(false, 0, 10010.0, -1, 110.0) == Trade(0, 10010.0, None)
  {
  }

  /** The orders that a list of ticks carries, in tick order. */
  function OrdersOf(ticks: seq<Tick>): (r: seq<Order>)
  {
    if |ticks| == 0 then []
    else OrdersOf(ticks[..|ticks| - 1]) + [Order(ticks[|ticks| - 1].price, ticks[|ticks| - 1].quantity)]
  }

  /**
   * Any sequence of leader bid ticks only fills the leader's bid side, in
   * tick order, and sets the last leader price: no sample, no trade, the
   * cash and the follower book untouched.
   */
  lemma {:induction false} LeaderBidsOnly(p: RunParams, ticks: seq<Tick>)
    requires forall i :: 0 <= i < |ticks| ==> IsLeaderTick(p, ticks[i]) && ticks[i].side == "buy"
    ensures var s := Replay(p, ticks);
      && s.leaderBids == OrdersOf(ticks) && s.leaderAsks == []
      && s.followerBids == [] && s.followerAsks == []
      && s.lastLeaderPrice == (if |ticks| == 0 then 0.0 else ticks[|ticks| - 1].price)
      && s.position == 0 && s.cash == p.initialCapital
      && s.historyTimestamps == [] && s.historyLeaderObi == []
      && s.signalsBuy == NoSignals && s.signalsSell == NoSignals
  {
    if |ticks| > 0 {
      var prefix := ticks[..|ticks| - 1];
      LeaderBidsOnly(p, prefix);
      assert Replay(p, ticks) == Route(p, Replay(p, prefix), ticks[|ticks| - 1]);
    }
  }

  lemma {:induction false} OrdersOfCopies(t: Tick, n: nat)
    ensures OrdersOf(seq(n, _ => t)) == seq(n, _ => Order(t.price, t.quantity))
  {
    if n > 0 {
      var ticks := seq(n, _ => t);
      assert ticks[..n - 1] == seq(n - 1, _ => t);
      OrdersOfCopies(t, n - 1);
      assert seq(n - 1, _ => Order(t.price, t.quantity)) + [Order(t.price, t.quantity)]
          == seq(n, _ => Order(t.price, t.quantity));
    }
  }

  /**
   * End to end, long-only with capital 10000 and threshold 0.7: ten leader
   * bids of quantity 5 at 100 saturate the leader imbalance at 1, and the
   * next follower tick at 50 buys one unit, leaving 9950 in cash and one
   * logged buy.
   */
  lemma EndToEndLongEntry()
    ensures var p := RunParams(0.7, 10000.0, "BTC", false);
      var lead := Tick(0, "BTC", 100.0, 5.0, "buy");
      var follow := Tick(1, "ETH", 50.0, 1.0, "buy");
      var s := Replay(p, seq(10, _ => lead) + [follow]);
      && s.historyLeaderObi == [1.0]
      && s.position == 1 && s.cash == 9950.0
      && s.signalsBuy == Signals([1], [50.0], [Desc(LongEntry, 1.0)])
      && s.signalsSell == NoSignals
  {
    var p := RunParams(0.7, 10000.0, "BTC", false);
    var lead := Tick(0, "BTC", 100.0, 5.0, "buy");
    var follow := Tick(1, "ETH", 50.0, 1.0, "buy");
    var ticks := seq(10, _ => lead) + [follow];
    assert ticks[..10] == seq(10, _ => lead);
    LeaderBidsOnly(p, seq(10, _ => lead));
    OrdersOfCopies(lead, 10);
    SumCopies(Order(100.0, 5.0), 10);
    var before := Replay(p, ticks[..10]);
    assert Imbalance(before.leaderBids, before.leaderAsks) == 1.0 by {
      assert SumQuantity(before.leaderAsks) == 0.0;
      DivSelf(50.0);
    }
  }

  /** A signal log as the runner mutates it: three lists appended in place. */
  class SignalLog {
    var x: seq<Instant>
    var y: seq<real>
    var desc: seq<Desc>

    function Value(): (r: Signals)
      reads this
    {
      Signals(x, y, desc)
    }

    constructor ()
      ensures Value() == NoSignals
    {
      x, y, desc := [], [], [];
    }
  }

  /** Runs backtests of the pair strategy with a fixed threshold and capital. */
  class BacktestRunner {
    const threshold: real
    const initialCapital: real
    var strategy: PairStrategy?

    constructor (threshold: real, initialCapital: real)
      ensures this.threshold == threshold && this.initialCapital == initialCapital
      ensures strategy == null
    {
      this.threshold := threshold;
      this.initialCapital := initialCapital;
      strategy := null;
    }

    /** Appends one trade to a signal log: its time, price, label and size. */
    method RecordSignal(log: SignalLog, timestamp: Instant, price: real, action: Action, quantity: real := 1.0)
      modifies log
      ensures log.Value() == Recorded(old(log.Value()), timestamp, price, action, quantity)
    {
      log.x := log.x + [timestamp];
      log.y := log.y + [price];
      log.desc := log.desc + [Desc(action, quantity)];
    }

    /**
     * The position state machine of one evaluation: moves the position and
     * the cash as `Execute` decides and logs the trade, if any, in the buy
     * or the sell log.
     */
    method ApplySignal(allowShortSelling: bool, signal: int, position: int, cash: real,
                       signalsBuy: SignalLog, signalsSell: SignalLog, timestamp: Instant, currentPrice: real)
      returns (position': int, cash': real)
      requires signalsBuy != signalsSell
      modifies signalsBuy, signalsSell
      ensures var trade := Execute(allowShortSelling, position, cash, signal, currentPrice);
        && position' == trade.position && cash' == trade.cash
        && signalsBuy.Value() == LogFill(old(signalsBuy.Value()), Buy, trade.fill, timestamp, currentPrice)
        && signalsSell.Value() == LogFill(old(signalsSell.Value()), Sell, trade.fill, timestamp, currentPrice)
    {
      position', cash' := position, cash;
      if allowShortSelling {
        if signal == 1 {
          if position == 0 {
            position' := 1;
            cash' := cash - currentPrice;
            RecordSignal(signalsBuy, timestamp, currentPrice, LongEntry, 1.0);
          } else if position == -1 {
            position' := 1;
            cash' := cash - currentPrice * 2.0;
            RecordSignal(signalsBuy, timestamp, currentPrice, ShortCoverLongEntry, 2.0);
          }
        } else if signal == -1 {
          if position == 0 {
            position' := -1;
            cash' := cash + currentPrice;
            RecordSignal(signalsSell, timestamp, currentPrice, ShortEntry, 1.0);
          } else if position == 1 {
            position' := -1;
            cash' := cash + currentPrice * 2.0;
            RecordSignal(signalsSell, timestamp, currentPrice, LongCloseShortEntry, 2.0);
          }
        }
      } else {
        if signal == 1 && position == 0 {
          position' := 1;
          cash' := cash - currentPrice;
          RecordSignal(signalsBuy, timestamp, currentPrice, LongEntry, 1.0);
        } else if signal == -1 && position > 0 {
          position' := 0;
          cash' := cash + currentPrice;
          RecordSignal(signalsSell, timestamp, currentPrice, LongClose, 1.0);
        }
      }
    }

    /**
     * One pass of the tick loop: routes the tick to the book of its role
     * (a leader tick also becomes the last leader price), then samples a
     * follower tick while the last leader price is positive.
     */
    method ProcessTick(p: RunParams, ghost s: RunState, st: PairStrategy,
                       signalsBuy: SignalLog, signalsSell: SignalLog, row: Tick,
                       lastLeaderPrice: real, position: int, cash: real,
                       historyTimestamps: seq<Instant>, historyLeaderObi: seq<real>, historyFollowerPrice: seq<real>,
                       historyLeaderPrice: seq<real>, historyEquity: seq<real>)
      returns (lastLeaderPrice': real, position': int, cash': real,
               historyTimestamps': seq<Instant>, historyLeaderObi': seq<real>, historyFollowerPrice': seq<real>,
               historyLeaderPrice': seq<real>, historyEquity': seq<real>)
      requires st.Valid() && signalsBuy != signalsSell && st.entryThreshold == p.threshold
      requires s == RunState(st.leader.bids, st.leader.asks, st.follower.bids, st.follower.asks,
                             lastLeaderPrice, position, cash,
                             historyTimestamps, historyLeaderObi, historyFollowerPrice, historyLeaderPrice,
                             historyEquity, signalsBuy.Value(), signalsSell.Value())
      modifies st.leader, st.follower, signalsBuy, signalsSell
      ensures RunState(st.leader.bids, st.leader.asks, st.follower.bids, st.follower.asks,
                       lastLeaderPrice', position', cash',
                       historyTimestamps', historyLeaderObi', historyFollowerPrice', historyLeaderPrice',
                       historyEquity', signalsBuy.Value(), signalsSell.Value())
              == Step(p, s, row)
    {
      ghost var routed := Route(p, s, row);
      var symbolType := if row.symbol == p.leaderSymbol then Leader else Follower;
      var isBid := row.side == "buy";

      lastLeaderPrice' := lastLeaderPrice;
      if symbolType == Leader {
        lastLeaderPrice' := row.price;
      }

      st.OnMarketData(symbolType, row.price, row.quantity, isBid);
      assert RunState(st.leader.bids, st.leader.asks, st.follower.bids, st.follower.asks,
                      lastLeaderPrice', position, cash,
                      historyTimestamps, historyLeaderObi, historyFollowerPrice, historyLeaderPrice,
                      historyEquity, signalsBuy.Value(), signalsSell.Value()) == routed;

      if symbolType == Follower && lastLeaderPrice' > 0.0 {
        var currentPrice := row.price;
        var currentObi := st.GetLeaderImbalance();

        historyTimestamps' := historyTimestamps + [row.timestamp];
        historyLeaderObi' := historyLeaderObi + [currentObi];
        historyFollowerPrice' := historyFollowerPrice + [currentPrice];
        historyLeaderPrice' := historyLeaderPrice + [lastLeaderPrice'];

        var currentEquity := Equity(cash, position, currentPrice);
        historyEquity' := historyEquity + [currentEquity];

        var signal := st.CheckSignals();
        position', cash' := ApplySignal(p.allowShortSelling, signal, position, cash,
                                        signalsBuy, signalsSell, row.timestamp, currentPrice);
        EvaluateSamples(p, routed, row);
      } else {
        position', cash' := position, cash;
        historyTimestamps', historyLeaderObi', historyFollowerPrice', historyLeaderPrice', historyEquity' :=
          historyTimestamps, historyLeaderObi, historyFollowerPrice, historyLeaderPrice, historyEquity;
      }
    }

    /**
     * Replays `ticks` in order on a fresh strategy. Every symbol other than
     * `leaderSymbol` is a follower tick; `followerSymbol` is not consulted.
     */
    method Run(ticks: seq<Tick>, leaderSymbol: string, followerSymbol: string, allowShortSelling: bool := false)
      returns (r: Result<Report>)
      modifies this
      ensures strategy != null && fresh(strategy) && strategy.entryThreshold == threshold
      ensures var s := Replay(RunParams(threshold, initialCapital, leaderSymbol, allowShortSelling), ticks);
        && strategy.leader.bids == s.leaderBids && strategy.leader.asks == s.leaderAsks
        && strategy.follower.bids == s.followerBids && strategy.follower.asks == s.followerAsks
      ensures r == Finish(RunParams(threshold, initialCapital, leaderSymbol, allowShortSelling),
                          Replay(RunParams(threshold, initialCapital, leaderSymbol, allowShortSelling), ticks))
    {
      var p := RunParams(threshold, initialCapital, leaderSymbol, allowShortSelling);
      var st := new PairStrategy(threshold);
      strategy := st;

      var historyTimestamps: seq<Instant> := [];
      var historyLeaderObi: seq<real> := [];
      var historyFollowerPrice: seq<real> := [];
      var historyLeaderPrice: seq<real> := [];
      var historyEquity: seq<real> := [];

      var signalsBuy := new SignalLog();
      var signalsSell := new SignalLog();

      var position := 0;
      var cash := initialCapital;
      var lastLeaderPrice := 0.0;

      var i := 0;
      while i < |ticks|
        invariant 0 <= i <= |ticks|
        invariant strategy == st && st.Valid() && st.entryThreshold == threshold
        invariant signalsBuy != signalsSell
        invariant RunState(st.leader.bids, st.leader.asks, st.follower.bids, st.follower.asks,
                           lastLeaderPrice, position, cash,
                           historyTimestamps, historyLeaderObi, historyFollowerPrice, historyLeaderPrice,
                           historyEquity, signalsBuy.Value(), signalsSell.Value())
                  == Replay(p, ticks[..i])
      {
        ghost var before := Replay(p, ticks[..i]);
        lastLeaderPrice, position, cash,
          historyTimestamps, historyLeaderObi, historyFollowerPrice, historyLeaderPrice, historyEquity :=
          ProcessTick(p, before, st, signalsBuy, signalsSell, ticks[i], lastLeaderPrice, position, cash,
                      historyTimestamps, historyLeaderObi, historyFollowerPrice, historyLeaderPrice, historyEquity);
        ReplayStep(p, ticks, i);
        i := i + 1;
      }
      assert ticks[..i] == ticks;
      ghost var final := Replay(p, ticks);
      assert final.historyFollowerPrice == historyFollowerPrice && final.position == position && final.cash == cash;
      assert st.leader.bids == final.leaderBids && st.leader.asks == final.leaderAsks;
      assert st.follower.bids == final.followerBids && st.follower.asks == final.followerAsks;

      var finalPrice := if |historyFollowerPrice| > 0 then historyFollowerPrice[|historyFollowerPrice| - 1] else 0.0;
      var finalEquity := Equity(cash, position, finalPrice);
      if initialCapital == 0.0 {
        return Failure(ZeroDivision);
      }
      var roi := (finalEquity - initialCapital) / initialCapital * 100.0;
      var totalTrades := |signalsBuy.x| + |signalsSell.x|;
      r := Success(Report(
        historyTimestamps, historyLeaderObi, historyFollowerPrice, historyLeaderPrice, historyEquity,
        signalsBuy.Value(), signalsSell.Value(),
        position, cash, finalEquity, roi, totalTrades));
    }
  }
}
