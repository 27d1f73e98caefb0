/**
 * The statistics `quant/analysis.py` draws from a finished back test: the
 * high-water mark of the equity curve, the risk rate, the trade counts and
 * rates, the profit factor, the longest stretch without a new equity high
 * and the number of bars each round trip lasted.
 */
module QuantAnalysis {
  import opened Wrappers
  import opened Tallies

  /** Python's `int(x)` on a float: truncation toward zero. */
  function Int(x: real): (n: int)
    ensures n == 0 <==> -1.0 < x < 1.0
    ensures x >= 0.0 ==> n as real <= x < n as real + 1.0
    ensures x < 0.0 ==> n as real - 1.0 < x <= n as real
  {
    if x >= 0.0 then x.Floor else -((-x).Floor)
  }

  // ---------------------------------------------------------------------
  // High-water mark

  /** The largest value of a non-empty list. */
  function Peak(e: seq<real>): (m: real)
    requires e != []
    ensures m in e
    ensures forall k :: 0 <= k < |e| ==> e[k] <= m
  {
    if |e| == 1 then e[0]
    else
      var p := Peak(e[..|e| - 1]);
      if e[|e| - 1] > p then e[|e| - 1] else p
  }

  /**
   * The high-water-mark loop of `create_drawdowns`: the first mark is the
   * first equity, each later one the larger of the equity and the previous
   * mark. Every mark is the peak of the equity so far, so the marks never
   * fall and never lie below the equity (the drawdown `hwm - equity` is
   * never negative). An empty curve fails at `equity[0]`.
   */
  method HighWaterMarks(equity: seq<real>) returns (r: Result<seq<real>>)
    ensures equity == [] <==> r.Err?
    ensures r.Err? ==> r.error == KeyError
    ensures r.Ok? ==> |r.value| == |equity|
    ensures r.Ok? ==> forall t :: 0 <= t < |equity| ==> r.value[t] == Peak(equity[..t + 1])
    ensures r.Ok? ==> forall t :: 0 <= t < |equity| ==> r.value[t] - equity[t] >= 0.0
    ensures r.Ok? ==> forall s, t :: 0 <= s <= t < |equity| ==> r.value[s] <= r.value[t]
  {
    if equity == [] {
      return Err(KeyError);
    }
    var hwm := new real[|equity|];
    hwm[0] := equity[0];
    assert equity[..1] == [equity[0]];
    var t := 1;
    while t < |equity|
      invariant 1 <= t <= |equity|
      invariant forall j :: 0 <= j < t ==> hwm[j] == Peak(equity[..j + 1])
    {
      assert equity[..t + 1][..t] == equity[..t];
      hwm[t] := if equity[t] > hwm[t - 1] then equity[t] else hwm[t - 1];
      t := t + 1;
    }
    r := Ok(hwm[..]);
    forall s, u | 0 <= s <= u < |equity|
      ensures r.value[s] <= r.value[u]
    {
      PeakGrows(equity, s, u);
    }
    forall u | 0 <= u < |equity|
      ensures r.value[u] - equity[u] >= 0.0
    {
      assert equity[..u + 1][u] == equity[u];
    }
  }

  /** The peak of a longer prefix is at least the peak of a shorter one. */
  lemma PeakGrows(e: seq<real>, s: nat, t: nat)
    requires s <= t < |e|
    ensures Peak(e[..s + 1]) <= Peak(e[..t + 1])
  {
    var m := Peak(e[..s + 1]);
    var k :| 0 <= k < s + 1 && e[..s + 1][k] == m;
    assert e[..t + 1][k] == m;
  }

  // ---------------------------------------------------------------------
  // Risk rate

  /** A numpy float quotient: a finite value, or the infinity or NaN a division by zero gives. */
  datatype Float = Finite(value: real) | Infinite | NaN

  /** `x / y` on numpy floats, for `x >= 0`. */
  function Quotient(x: real, y: real): (q: Float)
    requires x >= 0.0
    ensures y != 0.0 <==> q.Finite?
    ensures q.Finite? ==> q.value * y == x
  {
    if y != 0.0 then Finite(x / y) else if x == 0.0 then NaN else Infinite
  }

  /** The lowest value of a non-empty list (`min`). */
  function Lowest(e: seq<real>): (m: real)
    requires e != []
    ensures m in e
    ensures forall k :: 0 <= k < |e| ==> m <= e[k]
  {
    if |e| == 1 then e[0]
    else
      var p := Lowest(e[..|e| - 1]);
      if e[|e| - 1] < p then e[|e| - 1] else p
  }

  /**
   * `risk_rate`: how far the equity fell below its first value at worst,
   * clamped at 0, as a fraction of that first value. An empty curve fails at
   * `equity[0]`, read by position on a date index.
   */
  function RiskRate(equity: seq<real>): (r: Result<Float>)
    ensures equity == [] <==> r.Err?
    ensures r.Err? ==> r.error == IndexError
    ensures r.Ok? ==> (r.value.Finite? <==> equity[0] != 0.0)
    ensures r.Ok? && r.value.Finite? ==> r.value.value * equity[0] == equity[0] - Lowest(equity)
  {
    if equity == [] then Err(IndexError)
    else
      var correction := equity[0] - Lowest(equity);
      var clamped := if correction < 0.0 then 0.0 else correction;
      Ok(Quotient(clamped, equity[0]))
  }

  /**
   * With a positive first equity and no negative equity the risk rate is a
   * fraction between 0 and 1, and it is 0 exactly when the equity never
   * falls below where it started.
   */
  lemma RiskRateFraction(e: seq<real>)
    requires e != [] && e[0] > 0.0
    requires forall k :: 0 <= k < |e| ==> e[k] >= 0.0
    ensures RiskRate(e).Ok? && RiskRate(e).value.Finite?
    ensures 0.0 <= RiskRate(e).value.value <= 1.0
    ensures RiskRate(e).value.value == 0.0 <==> forall k :: 0 <= k < |e| ==> e[k] >= e[0]
  {
    var low := Lowest(e);
    var x := RiskRate(e).value.value;
    assert x * e[0] == e[0] - low;
    assert 0.0 <= low <= e[0];
    ScaledBelow(x, e[0], e[0] - low);
    if forall k :: 0 <= k < |e| ==> e[k] >= e[0] {
      assert low == e[0];
    }
  }

  /** From `x * y == z` with `0 <= z <= y` and positive `y`: `x` lies in [0, 1], and is 0 exactly when `z` is. */
  lemma ScaledBelow(x: real, y: real, z: real)
    requires y > 0.0 && 0.0 <= z <= y && x * y == z
    ensures 0.0 <= x <= 1.0 && (x == 0.0 <==> z == 0.0)
  {
    assert (x - 1.0) * y == z - y;
  }

  // ---------------------------------------------------------------------
  // Trade counts and rates

  /** The realized results `stats` reads: every trade's, the long trades' and the short trades'. */
  datatype Realized = Realized(all: seq<real>, long: seq<real>, short: seq<real>)

  /** `num_winning_trades` and its two siblings: the long count plus the short count. */
  function Count(r: Realized, g: Sign): (n: nat)
    ensures n <= |r.long| + |r.short|
  {
    CountOf(r.long, g) + CountOf(r.short, g)
  }

  /** `profit_trades_rate`: winners over all trades, 0 when there is none. */
  function ProfitTradesRate(r: Realized): (x: real)
    ensures r.all == [] ==> x == 0.0
    ensures x >= 0.0
  {
    if |r.all| == 0 then 0.0 else Count(r, Win) as real / |r.all| as real
  }

  /** `profit_long_trades_rate` / `profit_short_trades_rate`: winners of one side over that side's trades. */
  function SideRate(xs: seq<real>): (x: real)
    ensures xs == [] ==> x == 0.0
    ensures 0.0 <= x <= 1.0
    ensures x == 1.0 <==> xs != [] && CountOf(xs, Win) == |xs|
  {
    if |xs| == 0 then 0.0
    else Share(CountOf(xs, Win), |xs|); CountOf(xs, Win) as real / |xs| as real
  }

  /** A part no larger than a positive whole is at most the whole. */
  lemma AtMostWhole(a: int, n: nat)
    requires a <= n && n > 0
    ensures a as real / n as real <= 1.0
  {
    var x := a as real / n as real;
    assert (1.0 - x) * n as real == (n - a) as real;
  }

  /** `winning_rate`: the trades that did not lose over all trades, 0 when there is none. */
  function WinningRate(r: Realized): (x: real)
    ensures r.all == [] ==> x == 0.0
    ensures r.all != [] ==> x <= 1.0
  {
    if |r.all| == 0 then 0.0
    else AtMostWhole(|r.all| - Count(r, Loss), |r.all|); (|r.all| - Count(r, Loss)) as real / |r.all| as real
  }

  /**
   * When every trade is either long or short, the winning rate counts the
   * winners and the even trades, so it is never below the profit rate, and
   * both are fractions.
   */
  lemma RatesOfSplitTrades(r: Realized)
    requires r.all == r.long + r.short && r.all != []
    ensures WinningRate(r) == (Count(r, Win) + Count(r, Even)) as real / |r.all| as real
    ensures 0.0 <= ProfitTradesRate(r) <= WinningRate(r) <= 1.0
  {
    CountsPartition(r.long);
    CountsPartition(r.short);
    var n := |r.all|;
    var w, l, ev := Count(r, Win), Count(r, Loss), Count(r, Even);
    assert n == w + l + ev;
    assert n - l == w + ev;
    Fractions(w, w + ev, n);
  }

  /** `profit_factor`: 0, the string `'+0'`, or gross profit over gross loss. */
  datatype Factor = NoProfit | NoLoss | Ratio(value: real)

  /** `gross_profit`: the long and the short gains added. */
  function GrossProfit(r: Realized): (x: real)
    ensures x >= 0.0
  {
    GrossGain(r.long) + GrossGain(r.short)
  }

  /** `gross_loss`: the long and the short losses added, as a positive amount. */
  function GrossLoss(r: Realized): (x: real)
    ensures x >= 0.0
  {
    -1.0 * GrossDrain(r.long) + -1.0 * GrossDrain(r.short)
  }

  /**
   * `profit_factor`: 0 when the gross profit truncates to 0, `'+0'` when the
   * gross loss does, otherwise their ratio, which is then positive.
   */
  function ProfitFactor(r: Realized): (f: Factor)
    ensures f == NoProfit <==> GrossProfit(r) < 1.0
    ensures f == NoLoss <==> GrossProfit(r) >= 1.0 && GrossLoss(r) < 1.0
    ensures f.Ratio? ==> f.value > 0.0 && Scaled(f.value, GrossLoss(r)) == GrossProfit(r)
  {
    var gp, gl := GrossProfit(r), GrossLoss(r);
    if Int(gp) == 0 then NoProfit
    else if Int(gl) == 0 then NoLoss
    else PositiveRatio(gp, gl, gp / gl); Ratio(gp / gl)
  }

  /** No winning trade gives factor 0; winners and no losing trade give `'+0'`. */
  lemma ProfitFactorByOutcomes(r: Realized)
    ensures Count(r, Win) == 0 ==> ProfitFactor(r) == NoProfit
    ensures Count(r, Loss) == 0 && GrossProfit(r) >= 1.0 ==> ProfitFactor(r) == NoLoss
  {
  }

  // ---------------------------------------------------------------------
  // Longest stretch without a new equity high

  /** One point of the equity curve: its day and its equity. */
  datatype Point = Point(day: int, equity: real)

  /** Point `i` sets a new high: its equity is positive and above every earlier one. */
  predicate IsHigh(e: seq<Point>, i: int)
    requires 0 <= i < |e|
  {
    e[i].equity > 0.0 && forall j :: 0 <= j < i ==> e[j].equity < e[i].equity
  }

  /** The days of the new highs, in order. */
  function HighDays(e: seq<Point>): (days: seq<int>)
    ensures |days| <= |e|
    ensures forall x :: x in days ==> exists j :: 0 <= j < |e| && IsHigh(e, j) && e[j].day == x
  {
    if e == [] then []
    else
      var n := |e| - 1;
      assert forall j :: 0 <= j < n ==> e[..n][j] == e[j] && (IsHigh(e[..n], j) <==> IsHigh(e, j));
      HighDays(e[..n]) + (if IsHigh(e, n) then [e[n].day] else [])
  }

  /**
   * The first loop of `duration_of_equity_not_reaching_high`: a running
   * maximum starting at 0 records the day whenever the equity strictly
   * exceeds it. The days recorded are exactly those of the new highs.
   */
  method NewHighs(e: seq<Point>) returns (days: seq<int>)
    ensures days == HighDays(e)
  {
    var top := 0.0;
    days := [];
    var i := 0;
    while i < |e|
      invariant 0 <= i <= |e|
      invariant days == HighDays(e[..i])
      invariant top >= 0.0 && forall j :: 0 <= j < i ==> e[j].equity <= top
      invariant top == 0.0 || exists j :: 0 <= j < i && e[j].equity == top
    {
      var p := e[..i + 1];
      assert p[..i] == e[..i];
      assert IsHigh(p, i) <==> top < e[i].equity by {
        if top < e[i].equity {
          assert forall j :: 0 <= j < i ==> p[j].equity < p[i].equity;
        }
        if IsHigh(p, i) && top != 0.0 {
          var j :| 0 <= j < i && e[j].equity == top;
          assert p[j].equity < p[i].equity;
        }
      }
      if top < e[i].equity {
        top := e[i].equity;
        days := days + [e[i].day];
      }
      i := i + 1;
    }
    assert e[..i] == e;
  }

  /** The gap between the `i`th and the next day. */
  function Gap(days: seq<int>, i: int): int
    requires 0 <= i < |days| - 1
  {
    days[i + 1] - days[i]
  }

  /** The gap after day `i` is positive, no gap is wider and no earlier gap is as wide. */
  predicate FirstWidest(days: seq<int>, i: int)
  {
    0 <= i < |days| - 1 && Gap(days, i) > 0
    && (forall j :: 0 <= j < |days| - 1 ==> Gap(days, j) <= Gap(days, i))
    && (forall j :: 0 <= j < i ==> Gap(days, j) < Gap(days, i))
  }

  /**
   * The second loop of `duration_of_equity_not_reaching_high` and the lookup
   * of the largest key it recorded: the pair of consecutive high days with
   * the widest gap, the first such pair on a tie. When no gap is positive
   * (fewer than two highs) the dictionary is empty and `max` raises.
   */
  method WidestGap(days: seq<int>) returns (r: Result<(int, int)>)
    ensures r.Err? <==> forall j :: 0 <= j < |days| - 1 ==> Gap(days, j) <= 0
    ensures r.Err? ==> r.error == ValueError
    ensures r.Ok? ==> exists i :: FirstWidest(days, i) && r.value == (days[i], days[i + 1])
  {
    var widest := 0;
    var best: Option<nat> := None;
    var i := 0;
    while i < |days| - 1
      invariant 0 <= i <= if |days| > 0 then |days| - 1 else 0
      invariant best.None? <==> widest == 0
      invariant best.None? ==> forall j :: 0 <= j < i ==> Gap(days, j) <= 0
      invariant best.Some? ==> best.value < i && widest == Gap(days, best.value) > 0
      invariant best.Some? ==> forall j :: 0 <= j < i ==> Gap(days, j) <= widest
      invariant best.Some? ==> forall j :: 0 <= j < best.value ==> Gap(days, j) < widest
    {
      if widest < days[i + 1] - days[i] {
        widest := days[i + 1] - days[i];
        best := Some(i);
      }
      i := i + 1;
    }
    if best.None? {
      return Err(ValueError);
    }
    r := Ok((days[best.value], days[best.value + 1]));
    assert FirstWidest(days, best.value);
  }

  /**
   * `duration_of_equity_not_reaching_high`: the first and last day of the
   * longest stretch between two new equity highs (date formatting aside).
   */
  method NotReachingHigh(e: seq<Point>) returns (r: Result<(int, int)>)
    ensures |HighDays(e)| < 2 ==> r == Err(ValueError)
    ensures r.Ok? ==> exists i :: FirstWidest(HighDays(e), i) && r.value == (HighDays(e)[i], HighDays(e)[i + 1])
  {
    var days := NewHighs(e);
    r := WidestGap(days);
  }

  // ---------------------------------------------------------------------
  // Bars per round trip

  /** The comparison `_get_trade_bars` applies to each row's realized profit against 0. */
  datatype Filter = Every | Gains | Drops

  predicate Admits(f: Filter, profit: real)
  {
    match f
    case Every => true
    case Gains => profit > 0.0
    case Drops => profit < 0.0
  }

  /** One trade-log row: its day, the position after it and its realized profit. */
  datatype LogRow = LogRow(day: int, position: real, profit: real)

  /** `len(ohlc[a:b])`: the bars whose day lies between `a` and `b`, both included. */
  function BarsBetween(ohlc: seq<int>, a: int, b: int): (n: nat)
    ensures n <= |ohlc|
  {
    if ohlc == [] then 0
    else BarsBetween(ohlc[..|ohlc| - 1], a, b) + (if a <= ohlc[|ohlc| - 1] <= b then 1 else 0)
  }

  /**
   * The rows from here on, with `open` the day the current trade opened:
   * a row the filter rejects is skipped; with no trade open a flat row is
   * skipped; a row with a position opens a trade unless one is open; a flat
   * row closes the open trade and records its number of bars.
   */
  function Walk(ohlc: seq<int>, log: seq<LogRow>, f: Filter, open: Option<int>): seq<nat>
    decreases |log|
  {
    if log == [] then []
    else
      var row := log[0];
      if !Admits(f, row.profit) then Walk(ohlc, log[1..], f, open)
      else if open.None? && Int(row.position) == 0 then Walk(ohlc, log[1..], f, open)
      else if Int(row.position) != 0 then Walk(ohlc, log[1..], f, if open.None? then Some(row.day) else open)
      else [BarsBetween(ohlc, open.value, row.day)] + Walk(ohlc, log[1..], f, None)
  }

  /** `_get_trade_bars`: one pass over the trade log recording the bars of each round trip. */
  method TradeBars(ohlc: seq<int>, log: seq<LogRow>, f: Filter) returns (lengths: seq<nat>)
    ensures lengths == Walk(ohlc, log, f, None)
  {
    lengths := [];
    var open: Option<int> := None;
    var i := 0;
    while i < |log|
      invariant 0 <= i <= |log|
      invariant lengths + Walk(ohlc, log[i..], f, open) == Walk(ohlc, log, f, None)
    {
      assert log[i..][1..] == log[i + 1..];
      var row := log[i];
      if Admits(f, row.profit) {
        var position := Int(row.position);
        if open.None? && position == 0 {
        } else if position != 0 {
          if open.None? {
            open := Some(row.day);
          }
        } else {
          lengths := lengths + [BarsBetween(ohlc, open.value, row.day)];
          open := None;
        }
      }
      i := i + 1;
    }
  }

  /** Rows that open and then close a trade, pair after pair. */
  predicate RoundTrips(log: seq<LogRow>)
  {
    |log| % 2 == 0
    && forall k :: 0 <= k < |log| ==> (Int(log[k].position) == 0 <==> k % 2 == 1)
  }

  /** The bars of each pair of rows: from the opening row's day to the closing row's. */
  function PairBars(ohlc: seq<int>, log: seq<LogRow>): seq<nat>
    decreases |log|
  {
    if |log| < 2 then [] else [BarsBetween(ohlc, log[0].day, log[1].day)] + PairBars(ohlc, log[2..])
  }

  /** On alternating open and flat rows, every pair is one round trip and yields one length. */
  lemma {:induction false} RoundTripBars(ohlc: seq<int>, log: seq<LogRow>)
    requires RoundTrips(log)
    ensures Walk(ohlc, log, Every, None) == PairBars(ohlc, log)
    ensures |Walk(ohlc, log, Every, None)| == |log| / 2
    decreases |log|
  {
    if log != [] {
      assert Int(log[0].position) != 0 && Int(log[1].position) == 0;
      var rest := log[2..];
      assert log[1..][1..] == rest;
      assert RoundTrips(rest) by {
        forall k | 0 <= k < |rest|
          ensures Int(rest[k].position) == 0 <==> k % 2 == 1
        {
          assert rest[k] == log[k + 2];
        }
      }
      RoundTripBars(ohlc, rest);
    }
  }

  /**
   * With the winning or the losing filter, a log whose open rows carry no
   * realized profit (as the quant trade log writes them) never opens a trade,
   * so no round trip is ever counted.
   */
  lemma {:induction false} FilteredOpensNeverCount(ohlc: seq<int>, log: seq<LogRow>, f: Filter)
    requires f != Every
    requires forall k :: 0 <= k < |log| && Int(log[k].position) != 0 ==> log[k].profit == 0.0
    ensures Walk(ohlc, log, f, None) == []
    decreases |log|
  {
    if log != [] {
      assert forall k :: 0 <= k < |log| - 1 ==> log[1..][k] == log[k + 1];
      FilteredOpensNeverCount(ohlc, log[1..], f);
    }
  }

  /** The trade log of the bar-count unit test: twelve rows, positions 1, 0, -1, 0, 1, 0, 1, 0, -1, 0, 1, 0. */
  function TestLog(): (log: seq<LogRow>)
    ensures |log| == 12 && RoundTrips(log)
  {
    [LogRow(20130118, 1.0, 0.0), LogRow(20130220, 0.0, 1.0), LogRow(20130221, -1.0, 2.0),
     LogRow(20130305, 0.0, 3.0), LogRow(20130306, 1.0, 4.0), LogRow(20130308, 0.0, 5.0),
     LogRow(20130311, 1.0, 6.0), LogRow(20130312, 0.0, 7.0), LogRow(20130313, -1.0, 8.0),
     LogRow(20130322, 0.0, 9.0), LogRow(20130325, 1.0, 10.0), LogRow(20130329, 0.0, 11.0)]
  }

  /**
   * As the test is written, `drop` returns a new frame that is discarded, so
   * the second call sees the same twelve rows and returns the same six
   * lengths as the first, whatever the bars: never the five-element list the
   * test expects.
   */
  lemma TestSecondCallAsWritten(ohlc: seq<int>, expected: seq<nat>)
    requires |expected| == 5
    ensures |Walk(ohlc, TestLog(), Every, None)| == 6
    ensures Walk(ohlc, TestLog(), Every, None) != expected
  {
    RoundTripBars(ohlc, TestLog());
  }

  /**
   * With the first two rows really dropped, the second call returns the
   * first call's lengths without the first: five of them.
   */
  lemma TestSecondCallCorrected(ohlc: seq<int>)
    ensures Walk(ohlc, TestLog()[2..], Every, None) == Walk(ohlc, TestLog(), Every, None)[1..]
    ensures |Walk(ohlc, TestLog()[2..], Every, None)| == 5
  {
    var log := TestLog();
    RoundTripBars(ohlc, log);
    assert RoundTrips(log[2..]) by {
      forall k | 0 <= k < 10
        ensures Int(log[2..][k].position) == 0 <==> k % 2 == 1
      {
        assert log[2..][k] == log[k + 2];
      }
    }
    RoundTripBars(ohlc, log[2..]);
  }
}
