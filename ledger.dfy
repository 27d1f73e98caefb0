/**
 * The per-fill ledger formulas of `BacktestFill`: the next position,
 * margin, running commission and average price, unrealized profit,
 * balance and cash.
 */
module Ledger {
  import opened Orders

  /** A LIMIT or STOP fill only rests as a pending order: the ledger keeps its values. */
  predicate Resting(e: ExecType)
  {
    e == Limit || e == Stop
  }

  function Abs(x: real): (y: real)
    ensures y >= 0.0 && (y == x || y == -x)
  {
    if x < 0.0 then -x else x
  }

  /** `update_position`: the previous position plus units times direction. */
  function NextPosition(e: ExecType, last: real, units: real, dir: real): (p: real)
    ensures Resting(e) ==> p == last
    ensures !Resting(e) ==> p - last == units * dir
  {
    if Resting(e) then last else last + units * dir
  }

  /** A buy and then a sell of the same lots, neither resting, come back to the starting position. */
  lemma BuyThenSellRestores(e: ExecType, last: real, units: real)
    requires !Resting(e)
    ensures NextPosition(e, NextPosition(e, last, units, Direction(BUY)), units, Direction(SELL)) == last
  {
  }

  /** The product `per_margin × (position × mult × price)`. */
  function MarginOf(perMargin: real, pos: real, mult: real, price: real): real
  {
    perMargin * (pos * mult * price)
  }

  /** `update_margin`: recomputed from the new position at the fill price. */
  function NextMargin(e: ExecType, prev: real, perMargin: real, pos: real, mult: real, price: real): (m: real)
    ensures Resting(e) ==> m == prev
    ensures !Resting(e) ==> m == MarginOf(perMargin, pos, mult, price)
  {
    if Resting(e) then prev else MarginOf(perMargin, pos, mult, price)
  }

  /** With positive rate, multiplier and price the margin has the sign of the position. */
  lemma MarginSign(perMargin: real, pos: real, mult: real, price: real)
    requires perMargin > 0.0 && mult > 0.0 && price > 0.0
    ensures MarginOf(perMargin, pos, mult, price) > 0.0 <==> pos > 0.0
    ensures MarginOf(perMargin, pos, mult, price) < 0.0 <==> pos < 0.0
    ensures MarginOf(perMargin, pos, mult, price) == 0.0 <==> pos == 0.0
  {
    var q := mult * price;
    assert q > 0.0;
    assert pos * mult * price == pos * q;
    if pos > 0.0 {
      assert pos * q > 0.0;
      assert perMargin * (pos * q) > 0.0;
    } else if pos < 0.0 {
      assert (-pos) * q > 0.0;
      assert perMargin * ((-pos) * q) > 0.0;
      assert perMargin * (pos * q) == -(perMargin * ((-pos) * q));
    }
  }

  /** The commission of one fill: units × price × (per_comm × mult). */
  function FeeOf(units: real, price: real, perComm: real, mult: real): real
  {
    units * price * (perComm * mult)
  }

  /** `update_commission`: the running commission grows by this fill's fee. */
  function NextCommission(e: ExecType, prev: real, perComm: real, mult: real, units: real, price: real): (c: real)
    ensures Resting(e) ==> c == prev
    ensures !Resting(e) ==> c - prev == FeeOf(units, price, perComm, mult)
  {
    if Resting(e) then prev else prev + FeeOf(units, price, perComm, mult)
  }

  /** With non-negative inputs the running commission never decreases. */
  lemma CommissionGrows(e: ExecType, prev: real, perComm: real, mult: real, units: real, price: real)
    requires perComm >= 0.0 && mult >= 0.0 && units >= 0.0 && price >= 0.0
    ensures NextCommission(e, prev, perComm, mult, units, price) >= prev
  {
    var a := units * price;
    var b := perComm * mult;
    assert a >= 0.0 && b >= 0.0;
    assert a * b >= 0.0;
  }

  /** The quotient stored before taking the absolute value: total paid over the new position. */
  function Basis(paid: real, cur: real): real
    requires cur != 0.0
  {
    paid / cur
  }

  /**
   * `update_avg_price` before the absolute value: 0 when the new position
   * is flat; the previous average for a resting fill; the fill price when
   * opening from flat or crossing to the other side; otherwise the amount
   * paid for the open lots divided by the new position.
   */
  function SignedAvg(e: ExecType, t: OrderType, last: real, cur: real, avg: real, units: real, price: real): real
  {
    if cur == 0.0 then 0.0
    else if Resting(e) then avg
    else if last == 0.0 then price
    else if last > 0.0 then
      if t == BUY then Basis(last * avg + units * price, cur)
      else if t == SELL then
        if cur > 0.0 then Basis(last * avg - units * price, cur)
        else if cur < 0.0 then price
        else avg
      else avg
    else
      if t == BUY then
        if cur > 0.0 then price
        else if cur < 0.0 then Basis(-last * avg - units * price, cur)
        else avg
      else if t == SELL then Basis(-last * avg + units * price, cur)
      else avg
  }

  /** The stored average price: always the absolute value. */
  function NextAvg(e: ExecType, t: OrderType, last: real, cur: real, avg: real, units: real, price: real): (a: real)
    ensures a >= 0.0
    ensures cur == 0.0 ==> a == 0.0
    ensures cur != 0.0 && Resting(e) ==> a == Abs(avg)
    ensures cur != 0.0 && !Resting(e) && last == 0.0 ==> a == Abs(price)
    ensures cur != 0.0 && !Resting(e) && last > 0.0 && t == SELL && cur < 0.0 ==> a == Abs(price)
    ensures cur != 0.0 && !Resting(e) && last < 0.0 && t == BUY && cur > 0.0 ==> a == Abs(price)
  {
    Abs(SignedAvg(e, t, last, cur, avg, units, price))
  }

  /** A weighted mean of two non-negative weights lies between the two values. */
  lemma MeanBetween(w1: real, x1: real, w2: real, x2: real)
    requires w1 > 0.0 && w2 > 0.0
    ensures var m := (w1 * x1 + w2 * x2) / (w1 + w2);
      (x1 <= x2 ==> x1 <= m <= x2) && (x2 <= x1 ==> x2 <= m <= x1)
  {
    var s := w1 + w2;
    var m := (w1 * x1 + w2 * x2) / s;
    assert m * s == w1 * x1 + w2 * x2;
    if x1 <= x2 {
      assert w1 * x1 + w2 * x2 >= w1 * x1 + w2 * x1 by {
        assert w2 * x2 >= w2 * x1;
      }
      assert w1 * x1 + w2 * x2 <= w1 * x2 + w2 * x2 by {
        assert w1 * x1 <= w1 * x2;
      }
      assert (w1 + w2) * x1 == w1 * x1 + w2 * x1;
      assert (w1 + w2) * x2 == w1 * x2 + w2 * x2;
      assert m * s >= x1 * s && m * s <= x2 * s;
    } else {
      assert w1 * x1 + w2 * x2 >= w1 * x2 + w2 * x2 by {
        assert w1 * x1 >= w1 * x2;
      }
      assert w1 * x1 + w2 * x2 <= w1 * x1 + w2 * x1 by {
        assert w2 * x2 <= w2 * x1;
      }
      assert (w1 + w2) * x1 == w1 * x1 + w2 * x1;
      assert (w1 + w2) * x2 == w1 * x2 + w2 * x2;
      assert m * s >= x2 * s && m * s <= x1 * s;
    }
  }

  /**
   * Adding lots to a long position with a buy, or to a short position with
   * a sell, gives a size-weighted average between the previous average and
   * the fill price.
   */
  lemma AddingAveragesBetween(t: OrderType, last: real, avg: real, units: real, price: real)
    requires units > 0.0 && avg >= 0.0 && price >= 0.0
    requires (t == BUY && last > 0.0) || (t == SELL && last < 0.0)
    ensures var cur := NextPosition(Market, last, units, Direction(t));
      var a := NextAvg(Market, t, last, cur, avg, units, price);
      (avg <= price ==> avg <= a <= price) && (price <= avg ==> price <= a <= avg)
  {
    var cur := NextPosition(Market, last, units, Direction(t));
    if t == BUY {
      assert cur == last + units;
      MeanBetween(last, avg, units, price);
      assert SignedAvg(Market, t, last, cur, avg, units, price) == (last * avg + units * price) / (last + units);
    } else {
      assert cur == last - units;
      var w := -last;
      MeanBetween(w, avg, units, price);
      var m := (w * avg + units * price) / (w + units);
      assert SignedAvg(Market, t, last, cur, avg, units, price) == (-last * avg + units * price) / cur;
      assert cur == -(w + units);
      assert (-last * avg + units * price) / cur == -m;
    }
  }

  /**
   * Reducing a long position with a sell that leaves it long keeps the
   * amount paid for the open lots: average × position after the fill equals
   * previous average × previous position less the proceeds of the sale.
   */
  lemma ReducingKeepsBasis(last: real, avg: real, units: real, price: real)
    requires 0.0 < units < last
    ensures var cur := NextPosition(Market, last, units, Direction(SELL));
      NextAvg(Market, SELL, last, cur, avg, units, price) * cur == Abs(last * avg - units * price)
  {
    var cur := last - units;
    assert NextPosition(Market, last, units, Direction(SELL)) == cur;
    var q := (last * avg - units * price) / cur;
    assert q * cur == last * avg - units * price;
    assert SignedAvg(Market, SELL, last, cur, avg, units, price) == q;
    if q < 0.0 {
      assert (-q) * cur == -(last * avg - units * price);
    }
  }

  /** `(price - avg) × position × mult` */
  function MarkOf(price: real, avg: real, pos: real, mult: real): real
  {
    (price - avg) * pos * mult
  }

  /** `update_unrealized_gain_and_loss` for one price: 0 when the average is 0. */
  function Unrealized(price: real, avg: real, pos: real, mult: real): (u: real)
    ensures avg == 0.0 ==> u == 0.0
    ensures avg != 0.0 ==> u == MarkOf(price, avg, pos, mult)
  {
    if avg == 0.0 then 0.0 else MarkOf(price, avg, pos, mult)
  }

  /** The mark is zero at the average price, and for a long position it gains exactly when the price is above it. */
  lemma MarkSign(price: real, avg: real, pos: real, mult: real)
    requires mult > 0.0
    ensures price == avg ==> Unrealized(price, avg, pos, mult) == 0.0
    ensures pos > 0.0 && avg != 0.0 ==> (Unrealized(price, avg, pos, mult) > 0.0 <==> price > avg)
    ensures pos < 0.0 && avg != 0.0 ==> (Unrealized(price, avg, pos, mult) > 0.0 <==> price < avg)
  {
    var d := price - avg;
    var q := pos * mult;
    assert MarkOf(price, avg, pos, mult) == d * q;
    if pos > 0.0 { assert q > 0.0; }
    if pos < 0.0 { assert q < 0.0; }
    if d > 0.0 && q > 0.0 { assert d * q > 0.0; }
    if d < 0.0 && q < 0.0 { assert d * q > 0.0; }
    if d > 0.0 && q < 0.0 { assert d * q < 0.0; }
    if d < 0.0 && q > 0.0 { assert d * q < 0.0; }
  }

  /**
   * The high and low marks bracket the close mark: for a long position the
   * mark at the high is at least the mark at the close, which is at least
   * the mark at the low; a short position is the other way round.
   */
  lemma MarksBracket(high: real, close: real, low: real, avg: real, pos: real, mult: real)
    requires low <= close <= high && mult > 0.0
    ensures pos >= 0.0 ==> Unrealized(low, avg, pos, mult) <= Unrealized(close, avg, pos, mult) <= Unrealized(high, avg, pos, mult)
    ensures pos <= 0.0 ==> Unrealized(high, avg, pos, mult) <= Unrealized(close, avg, pos, mult) <= Unrealized(low, avg, pos, mult)
  {
    if avg != 0.0 {
      var q := pos * mult;
      MarkFactors(low, avg, pos, mult);
      MarkFactors(close, avg, pos, mult);
      MarkFactors(high, avg, pos, mult);
      if pos >= 0.0 { assert q >= 0.0; } else { assert q < 0.0; }
      ScaleKeepsOrder(low - avg, close - avg, q);
      ScaleKeepsOrder(close - avg, high - avg, q);
      assert Unrealized(low, avg, pos, mult) == (low - avg) * q;
      assert Unrealized(close, avg, pos, mult) == (close - avg) * q;
      assert Unrealized(high, avg, pos, mult) == (high - avg) * q;
    }
  }

  /** The mark is the price difference times position × multiplier. */
  lemma MarkFactors(price: real, avg: real, pos: real, mult: real)
    ensures MarkOf(price, avg, pos, mult) == (price - avg) * (pos * mult)
  {
  }

  /** Scaling by a non-negative factor keeps an order, by a non-positive one reverses it. */
  lemma ScaleKeepsOrder(x: real, y: real, q: real)
    requires x <= y
    ensures q >= 0.0 ==> x * q <= y * q
    ensures q <= 0.0 ==> y * q <= x * q
  {
    assert y * q - x * q == (y - x) * q;
    if q < 0.0 {
      assert (y - x) * (-q) >= 0.0;
    }
  }

  /** `update_balance`: initial cash plus realized and unrealized profit, less commission. */
  function Balance(initialCash: real, realized: real, unrealized: real, commission: real): (b: real)
    ensures b - initialCash == realized + unrealized - commission
  {
    initialCash + (realized + unrealized) - commission
  }

  /** Higher unrealized profit never gives a lower balance. */
  lemma BalanceMonotone(initialCash: real, realized: real, u1: real, u2: real, commission: real)
    requires u1 <= u2
    ensures Balance(initialCash, realized, u1, commission) <= Balance(initialCash, realized, u2, commission)
  {
  }

  /** `update_cash`: the balance less the margin held over all instruments. */
  function Cash(balance: real, totalMargin: real): (c: real)
    ensures c + totalMargin == balance
  {
    balance - totalMargin
  }

  /** The ruin test of `update_time_index`. */
  predicate Ruined(balance: real, cash: real)
  {
    balance <= 0.0 || cash <= 0.0
  }

  /** With a non-negative margin held, a positive cash means a positive balance: ruin is then decided by cash alone. */
  lemma RuinByCash(balance: real, totalMargin: real)
    requires totalMargin >= 0.0
    ensures Ruined(balance, Cash(balance, totalMargin)) <==> Cash(balance, totalMargin) <= 0.0
  {
  }
}
