/**
 * The order-flow imbalance accumulator of the trading engine.
 *
 * An order book keeps every order it has been given, on one of two sides,
 * and derives from them one number: the normalised difference between the
 * total bid quantity and the total ask quantity. Orders are never removed
 * one by one; the only way to forget them is to clear the whole book.
 */
module OrderBooks {

  /** One stored order: its price and its quantity. */
  datatype Order = Order(price: real, quantity: real)

  /** The total quantity of a list of orders, accumulated front to back. */
  function SumQuantity(orders: seq<Order>): (r: real)
  {
    if |orders| == 0 then 0.0
    else SumQuantity(orders[..|orders| - 1]) + orders[|orders| - 1].quantity
  }

  /** Every order in the list carries a quantity that is not negative. */
  predicate NonNegative(orders: seq<Order>)
  {
    forall i :: 0 <= i < |orders| ==> orders[i].quantity >= 0.0
  }

  /** Two lists hold the same quantities in the same order (prices may differ). */
  predicate SameQuantities(a: seq<Order>, b: seq<Order>)
  {
    |a| == |b| && forall i :: 0 <= i < |a| ==> a[i].quantity == b[i].quantity
  }

  /** The normalised difference of two volumes, 0 when they sum to 0. */
  function Ratio(bidVolume: real, askVolume: real): (r: real)
  {
    var total := bidVolume + askVolume;
    if total == 0.0 then 0.0 else (bidVolume - askVolume) / total
  }

  /**
   * The imbalance of a book holding `bids` and `asks`:
   * (bid volume - ask volume) / (bid volume + ask volume), and 0 when the
   * total volume is 0.
   */
  function Imbalance(bids: seq<Order>, asks: seq<Order>): (r: real)
  {
    Ratio(SumQuantity(bids), SumQuantity(asks))
  }

  lemma SumAppend(orders: seq<Order>, o: Order)
    ensures SumQuantity(orders + [o]) == SumQuantity(orders) + o.quantity
  {
    assert (orders + [o])[..|orders|] == orders;
  }

  lemma {:induction false} SumNonNegative(orders: seq<Order>)
    requires NonNegative(orders)
    ensures SumQuantity(orders) >= 0.0
  {
    if |orders| > 0 {
      SumNonNegative(orders[..|orders| - 1]);
    }
  }

  /** The total quantity does not look at prices. */
  lemma {:induction false} SumIgnoresPrices(a: seq<Order>, b: seq<Order>)
    requires SameQuantities(a, b)
    ensures SumQuantity(a) == SumQuantity(b)
  {
    if |a| > 0 {
      SumIgnoresPrices(a[..|a| - 1], b[..|b| - 1]);
    }
  }

  /** n orders of the same quantity add up to n times that quantity. */
  lemma {:induction false} SumCopies(o: Order, n: nat)
    ensures SumQuantity(seq(n, _ => o)) == o.quantity * n as real
  {
    if n > 0 {
      var orders := seq(n, _ => o);
      assert orders[..n - 1] == seq(n - 1, _ => o);
      SumCopies(o, n - 1);
      assert o.quantity * (n - 1) as real + o.quantity == o.quantity * n as real;
    }
  }

  /** Prices never affect the imbalance: only the quantities on each side do. */
  lemma ImbalanceIgnoresPrices(bids: seq<Order>, asks: seq<Order>, bids': seq<Order>, asks': seq<Order>)
    requires SameQuantities(bids, bids') && SameQuantities(asks, asks')
    ensures Imbalance(bids, asks) == Imbalance(bids', asks')
  {
    SumIgnoresPrices(bids, bids');
    SumIgnoresPrices(asks, asks');
  }

  /** Whenever no stored quantity is negative, the imbalance lies in [-1, 1]. */
  lemma ImbalanceBounded(bids: seq<Order>, asks: seq<Order>)
    requires NonNegative(bids) && NonNegative(asks)
    ensures -1.0 <= Imbalance(bids, asks) <= 1.0
  {
    SumNonNegative(bids);
    SumNonNegative(asks);
    RatioBounded(SumQuantity(bids), SumQuantity(asks));
  }

  /**
   * The bound needs the quantities to be non-negative: the book accepts a
   * negative quantity, and then the imbalance can leave [-1, 1].
   */
  lemma NegativeQuantityLeavesRange()
    ensures Imbalance([Order(100.0, 3.0)], [Order(101.0, -1.0)]) == 2.0
  {
    assert SumQuantity([Order(100.0, 3.0)]) == 3.0 by {
      SumAppend([], Order(100.0, 3.0));
    }
    assert SumQuantity([Order(101.0, -1.0)]) == -1.0 by {
      SumAppend([], Order(101.0, -1.0));
    }
  }

  /** A book with volume on one side only sits at the end of the range. */
  lemma OneSidedBookSaturates(bids: seq<Order>, asks: seq<Order>)
    ensures SumQuantity(asks) == 0.0 && SumQuantity(bids) != 0.0 ==> Imbalance(bids, asks) == 1.0
    ensures SumQuantity(bids) == 0.0 && SumQuantity(asks) != 0.0 ==> Imbalance(bids, asks) == -1.0
    ensures SumQuantity(bids) + SumQuantity(asks) == 0.0 ==> Imbalance(bids, asks) == 0.0
  {
    var b, a := SumQuantity(bids), SumQuantity(asks);
    if a == 0.0 && b != 0.0 {
      DivSelf(b);
      assert b - a == b && b + a == b;
    }
    if b == 0.0 && a != 0.0 {
      NegDivSelf(a);
      assert b - a == 0.0 - a && b + a == a;
    }
  }

  lemma DivSelf(x: real)
    requires x != 0.0
    ensures x / x == 1.0
  {
  }

  lemma NegDivSelf(x: real)
    requires x != 0.0
    ensures (0.0 - x) / x == -1.0
  {
    DivSelf(x);
    assert (0.0 - x) / x == -(x / x);
  }

  /** A factor that keeps its product with a positive number non-negative is non-negative. */
  lemma NonNegativeFactor(x: real, t: real)
    requires t > 0.0 && x * t >= 0.0
    ensures x >= 0.0
  {
  }

  /** A product with a non-zero factor is 0 only when the other factor is. */
  lemma ZeroFactor(x: real, t: real)
    requires t != 0.0 && x * t == 0.0
    ensures x == 0.0
  {
  }

  /** Two non-negative volumes have a ratio in [-1, 1]. */
  lemma RatioBounded(b: real, a: real)
    requires b >= 0.0 && a >= 0.0
    ensures -1.0 <= Ratio(b, a) <= 1.0
  {
    var total := b + a;
    if total != 0.0 {
      var x := (b - a) / total;
      assert x * total == b - a;
      assert (1.0 - x) * total == 2.0 * a;
      assert (1.0 + x) * total == 2.0 * b;
      NonNegativeFactor(1.0 - x, total);
      NonNegativeFactor(1.0 + x, total);
    }
  }

  /** More bid volume never lowers the ratio. */
  lemma RatioGrowsWithBidVolume(b: real, a: real, q: real)
    requires b >= 0.0 && a >= 0.0 && q >= 0.0
    ensures Ratio(b + q, a) >= Ratio(b, a)
  {
    var total := b + a;
    if total == 0.0 {
      if q != 0.0 {
        assert b + q + a == q && b + q - a == q;
        DivSelf(q);
      }
    } else {
      RatioBounded(b, a);
      var x := (b - a) / total;
      var y := (b + q - a) / (total + q);
      assert x <= 1.0;
      assert x * total == b - a;
      assert y * (total + q) == b + q - a;
      assert (y - x) * (total + q) == q * (1.0 - x);
      assert q * (1.0 - x) >= 0.0;
      NonNegativeFactor(y - x, total + q);
    }
  }

  /** Exchanging the two sides negates the ratio. */
  lemma RatioSwap(b: real, a: real)
    ensures Ratio(a, b) == -Ratio(b, a)
  {
    var total := b + a;
    if total != 0.0 {
      var x, y := (b - a) / total, (a - b) / (a + b);
      assert a + b == total;
      assert x * total == b - a && y * total == a - b;
      assert (x + y) * total == 0.0;
      ZeroFactor(x + y, total);
    }
  }

  /** Adding a bid of non-negative quantity never lowers the imbalance. */
  lemma BidNeverLowersImbalance(bids: seq<Order>, asks: seq<Order>, o: Order)
    requires NonNegative(bids) && NonNegative(asks) && o.quantity >= 0.0
    ensures Imbalance(bids + [o], asks) >= Imbalance(bids, asks)
  {
    SumAppend(bids, o);
    SumNonNegative(bids);
    SumNonNegative(asks);
    RatioGrowsWithBidVolume(SumQuantity(bids), SumQuantity(asks), o.quantity);
  }

  /** Adding an ask of non-negative quantity never raises the imbalance. */
  lemma AskNeverRaisesImbalance(bids: seq<Order>, asks: seq<Order>, o: Order)
    requires NonNegative(bids) && NonNegative(asks) && o.quantity >= 0.0
    ensures Imbalance(bids, asks + [o]) <= Imbalance(bids, asks)
  {
    SumAppend(asks, o);
    SumNonNegative(bids);
    SumNonNegative(asks);
    var b, a, q := SumQuantity(bids), SumQuantity(asks), o.quantity;
    RatioGrowsWithBidVolume(a, b, q);
    RatioSwap(b, a + q);
    RatioSwap(b, a);
  }

  /**
   * An order book: the bid orders and the ask orders, each in arrival
   * order. Every method runs as one atomic step.
   */
  class OrderBook {
    var bids: seq<Order>
    var asks: seq<Order>

    /** A new book holds no orders, so its imbalance is neutral. */
    constructor ()
      ensures bids == [] && asks == []
      ensures Imbalance(bids, asks) == 0.0
    {
      bids := [];
      asks := [];
    }

    /** Stores one order at the end of the side that `isBid` selects. */
    method AddOrder(price: real, quantity: real, isBid: bool)
      modifies this
      ensures isBid ==> bids == old(bids) + [Order(price, quantity)] && asks == old(asks)
      ensures !isBid ==> asks == old(asks) + [Order(price, quantity)] && bids == old(bids)
    {
      var newOrder := Order(price, quantity);
      if isBid {
        bids := bids + [newOrder];
      } else {
        asks := asks + [newOrder];
      }
    }

    /**
     * Sums the quantities of both sides and returns their normalised
     * difference; 0 when there is no volume at all.
     */
    method GetImbalance() returns (r: real)
      ensures r == Imbalance(bids, asks)
      ensures NonNegative(bids) && NonNegative(asks) ==> -1.0 <= r <= 1.0
    {
      var totalBidVol, totalAskVol := 0.0, 0.0;
      var i := 0;
      while i < |bids|
        invariant 0 <= i <= |bids|
        invariant totalBidVol == SumQuantity(bids[..i])
      {
        assert bids[..i + 1][..i] == bids[..i];
        totalBidVol := totalBidVol + bids[i].quantity;
        i := i + 1;
      }
      assert bids[..i] == bids;
      var j := 0;
      while j < |asks|
        invariant 0 <= j <= |asks|
        invariant totalAskVol == SumQuantity(asks[..j])
      {
        assert asks[..j + 1][..j] == asks[..j];
        totalAskVol := totalAskVol + asks[j].quantity;
        j := j + 1;
      }
      assert asks[..j] == asks;
      var totalVol := totalBidVol + totalAskVol;
      if totalVol == 0.0 {
        r := 0.0;
      } else {
        r := (totalBidVol - totalAskVol) / totalVol;
      }
      if NonNegative(bids) && NonNegative(asks) {
        ImbalanceBounded(bids, asks);
      }
    }

    /** Forgets every order on both sides. */
    method Clear()
      modifies this
      ensures bids == [] && asks == []
      ensures Imbalance(bids, asks) == 0.0
    {
      bids := [];
      asks := [];
    }

    /** The number of bid orders stored since construction or the last clear. */
    method GetBidCount() returns (n: nat)
      ensures n == |bids|
    {
      n := |bids|;
    }

    /** The number of ask orders stored since construction or the last clear. */
    method GetAskCount() returns (n: nat)
      ensures n == |asks|
    {
      n := |asks|;
    }
  }
}
