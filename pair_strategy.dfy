/**
 * The lead-lag signal engine: two order books, one fed by the leader
 * instrument and one by the follower, and a threshold rule on the leader's
 * imbalance that yields a ternary signal (+1 buy the follower, -1 sell it,
 * 0 hold).
 */
module PairStrategies {
  import opened OrderBooks

  /** Role codes of `OnMarketData`. */
  const Leader: int := 0
  const Follower: int := 1

  /**
   * The signal for a leader imbalance `obi` under `threshold`: both
   * comparisons are strict, and the buy test is made first.
   */
  function SignalOf(obi: real, threshold: real): (s: int)
    ensures s == 1 || s == 0 || s == -1
    ensures s == 1 <==> obi > threshold
    ensures s == -1 <==> !(obi > threshold) && obi < -threshold
    ensures s == 0 <==> -threshold <= obi <= threshold
  {
    if obi > threshold then 1
    else if obi < -threshold then -1
    else 0
  }

  /**
   * With a threshold that is not negative the two tests cannot both hold,
   * so a sell signal means exactly that the imbalance is below -threshold,
   * and an imbalance exactly at either boundary is neutral.
   */
  lemma SignalWithNonNegativeThreshold(obi: real, threshold: real)
    requires threshold >= 0.0
    ensures SignalOf(obi, threshold) == -1 <==> obi < -threshold
    ensures SignalOf(threshold, threshold) == 0 && SignalOf(-threshold, threshold) == 0
  {
  }

  /**
   * Two books owned by one strategy and the fixed entry threshold. The
   * threshold is stored as given: nothing checks its range.
   */
  class PairStrategy {
    const leader: OrderBook
    const follower: OrderBook
    const entryThreshold: real

    ghost predicate Valid()
      reads this
    {
      leader != follower
    }

    /** The signal that `CheckSignals` reports in the current state. */
    ghost function Signal(): int
      reads this, leader
    {
      SignalOf(Imbalance(leader.bids, leader.asks), entryThreshold)
    }

    /** Both books start empty; the threshold is kept unchanged. */
    constructor (threshold: real)
      ensures Valid() && fresh(leader) && fresh(follower)
      ensures entryThreshold == threshold
      ensures leader.bids == [] && leader.asks == []
      ensures follower.bids == [] && follower.asks == []
      ensures threshold >= 0.0 ==> Signal() == 0
    {
      leader := new OrderBook();
      follower := new OrderBook();
      entryThreshold := threshold;
    }

    /**
     * Routes one tick by role: 0 to the leader book, 1 to the follower
     * book, any other code nowhere.
     */
    method OnMarketData(symbolType: int, price: real, quantity: real, isBid: bool)
      requires Valid()
      modifies leader, follower
      ensures symbolType == Leader && isBid ==>
        leader.bids == old(leader.bids) + [Order(price, quantity)] && leader.asks == old(leader.asks)
      ensures symbolType == Leader && !isBid ==>
        leader.asks == old(leader.asks) + [Order(price, quantity)] && leader.bids == old(leader.bids)
      ensures symbolType == Follower && isBid ==>
        follower.bids == old(follower.bids) + [Order(price, quantity)] && follower.asks == old(follower.asks)
      ensures symbolType == Follower && !isBid ==>
        follower.asks == old(follower.asks) + [Order(price, quantity)] && follower.bids == old(follower.bids)
      ensures symbolType != Leader ==> unchanged(leader)
      ensures symbolType != Follower ==> unchanged(follower)
      ensures symbolType != Leader ==> Signal() == old(Signal())
    {
      if symbolType == Leader {
        leader.AddOrder(price, quantity, isBid);
      } else if symbolType == Follower {
        follower.AddOrder(price, quantity, isBid);
      }
    }

    /** The threshold rule applied to the leader book's current imbalance. */
    method CheckSignals() returns (s: int)
      ensures s == SignalOf(Imbalance(leader.bids, leader.asks), entryThreshold)
      ensures s == 1 <==> Imbalance(leader.bids, leader.asks) > entryThreshold
      ensures entryThreshold >= 0.0 ==> (s == -1 <==> Imbalance(leader.bids, leader.asks) < -entryThreshold)
    {
      var leaderObi := leader.GetImbalance();
      if leaderObi > entryThreshold {
        s := 1;
      } else if leaderObi < -entryThreshold {
        s := -1;
      } else {
        s := 0;
      }
    }

    /** The leader book's imbalance. */
    method GetLeaderImbalance() returns (r: real)
      ensures r == Imbalance(leader.bids, leader.asks)
      ensures NonNegative(leader.bids) && NonNegative(leader.asks) ==> -1.0 <= r <= 1.0
    {
      r := leader.GetImbalance();
    }
  }

  /**
   * A calm leader (one bid and one ask of quantity 1) gives no signal; ten
   * further leader bids of quantity 5 push the imbalance to 50/52, above
   * the threshold 0.7, and the signal turns to buy.
   */
  method PumpScenario() returns (calm: int, pumped: int)
    ensures calm == 0 && pumped == 1
  {
    var strategy := new PairStrategy(0.7);
    strategy.OnMarketData(Leader, 100.0, 1.0, true);
    strategy.OnMarketData(Leader, 101.0, 1.0, false);
    SumAppend([], Order(100.0, 1.0));
    SumAppend([], Order(101.0, 1.0));
    calm := strategy.CheckSignals();
    var k := 0;
    while k < 10
      invariant 0 <= k <= 10
      invariant SumQuantity(strategy.leader.bids) == 1.0 + 5.0 * k as real
      invariant strategy.leader.asks == [Order(101.0, 1.0)]
    {
      SumAppend(strategy.leader.bids, Order(100.0, 5.0));
      strategy.OnMarketData(Leader, 100.0, 5.0, true);
      k := k + 1;
    }
    pumped := strategy.CheckSignals();
  }

  /** Twenty leader asks of quantity 5 on a fresh strategy give a sell signal. */
  method CrashScenario() returns (crashed: int)
    ensures crashed == -1
  {
    var strategy := new PairStrategy(0.7);
    var k := 0;
    while k < 20
      invariant 0 <= k <= 20
      invariant SumQuantity(strategy.leader.asks) == 5.0 * k as real
      invariant strategy.leader.bids == []
    {
      SumAppend(strategy.leader.asks, Order(100.0, 5.0));
      strategy.OnMarketData(Leader, 100.0, 5.0, false);
      k := k + 1;
    }
    crashed := strategy.CheckSignals();
  }
}
