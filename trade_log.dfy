/**
 * The statistics of the earlier, root-level `analysis.py`: the trade log
 * built from the completed (entry, exit) order pairs, the maximum drawdown
 * and its duration, the trade counts and the profit factor.
 */
module TradeLog {
  import opened Wrappers
  import opened PySeq
  import opened Tallies
  import opened DataSeries
  import opened Orders

  // ---------------------------------------------------------------------
  // The trade log

  /** One row of `create_trade_log`, with the running total of net results. */
  datatype TradeRow = TradeRow(
    entryDate: Date,
    entryPrice: real,
    orderType: OrderType,
    units: real,
    exitDate: Date,
    exitPrice: real,
    execType: ExecType,
    plPoints: real,
    reProfit: real,
    commission: real,
    cumulTotal: real)

  /** The smaller of the two orders' units (rounding to three places aside). */
  function Units(entry: Order, exit: Order): (u: real)
    ensures u <= entry.units && u <= exit.units
    ensures u == entry.units || u == exit.units
  {
    if entry.units <= exit.units then entry.units else exit.units
  }

  /** The row for one pair before the running total is known. */
  function RowOf(entry: Order, exit: Order, mult: real): (r: TradeRow)
    ensures r.entryDate == entry.date && r.entryPrice == entry.price && r.orderType == entry.orderType
    ensures r.exitDate == exit.date && r.exitPrice == exit.price && r.execType == exit.execType
    ensures r.units <= entry.units && r.units <= exit.units && (r.units == entry.units || r.units == exit.units)
    ensures exit.price == entry.price ==> r.plPoints == 0.0 && r.reProfit == 0.0
    ensures r.cumulTotal == 0.0
  {
    var u := Units(entry, exit);
    TradeRow(entry.date, entry.price, entry.orderType, u, exit.date, exit.price, exit.execType,
             exit.price - entry.price, (exit.price - entry.price) * u * mult * entry.direction,
             u * (exit.perComm * mult) * exit.price * 2.0, 0.0)
  }

  /** A row's net result: realized profit less commission. */
  function Net(row: TradeRow): real
  {
    row.reProfit - row.commission
  }

  /** The net results of the rows, in order. */
  function Nets(rows: seq<TradeRow>): (n: seq<real>)
    ensures |n| == |rows|
  {
    if rows == [] then [] else Nets(rows[..|rows| - 1]) + [Net(rows[|rows| - 1])]
  }

  /** The realized profits of the rows, in order (`trade_log['re_profit']`). */
  function Profits(rows: seq<TradeRow>): (p: seq<real>)
    ensures |p| == |rows|
  {
    if rows == [] then [] else Profits(rows[..|rows| - 1]) + [rows[|rows| - 1].reProfit]
  }

  /** The commissions of the rows, in order. */
  function Commissions(rows: seq<TradeRow>): (c: seq<real>)
    ensures |c| == |rows|
  {
    if rows == [] then [] else Commissions(rows[..|rows| - 1]) + [rows[|rows| - 1].commission]
  }

  /** The `cumul_total` column. */
  function Totals(rows: seq<TradeRow>): (t: seq<real>)
    ensures |t| == |rows|
  {
    if rows == [] then [] else Totals(rows[..|rows| - 1]) + [rows[|rows| - 1].cumulTotal]
  }

  /** Entry `i` of each column is that field (or the net result) of row `i`. */
  lemma {:induction false} ColumnsAt(rows: seq<TradeRow>, i: nat)
    requires i < |rows|
    ensures Nets(rows)[i] == Net(rows[i]) && Profits(rows)[i] == rows[i].reProfit
    ensures Commissions(rows)[i] == rows[i].commission && Totals(rows)[i] == rows[i].cumulTotal
    decreases |rows|
  {
    if i < |rows| - 1 {
      ColumnsAt(rows[..|rows| - 1], i);
    }
  }

  /** Running sums: entry `i` is the sum of the first `i + 1` values (`cumsum`). */
  function Cumul(xs: seq<real>): (c: seq<real>)
    ensures |c| == |xs|
  {
    if xs == [] then [] else Cumul(xs[..|xs| - 1]) + [Sum(xs)]
  }

  /** Entry `i` of the running sums is the sum of `xs[..i + 1]`. */
  lemma {:induction false} CumulAt(xs: seq<real>, i: nat)
    requires i < |xs|
    ensures Cumul(xs)[i] == Sum(xs[..i + 1])
    decreases |xs|
  {
    if i < |xs| - 1 {
      var p := xs[..|xs| - 1];
      CumulAt(p, i);
      assert p[..i + 1] == xs[..i + 1];
    } else {
      assert xs[..i + 1] == xs;
    }
  }

  /** Each running sum is the previous one plus the next value. */
  lemma {:induction false} CumulSteps(xs: seq<real>, i: nat)
    requires 0 < i < |xs|
    ensures Cumul(xs)[i] == Cumul(xs)[i - 1] + xs[i]
  {
    CumulAt(xs, i);
    CumulAt(xs, i - 1);
    assert xs[..i + 1] == xs[..i] + [xs[i]];
    SumAppend(xs[..i], xs[i]);
  }

  /**
   * `create_trade_log`: one row per completed pair, with units the smaller
   * of the two orders' units, realized profit the exit-minus-entry price
   * times units, multiplier and the entry's direction, commission twice the
   * units times the exit's commission rate, multiplier and price, and
   * `cumul_total` the running sum of the net results. With no completed
   * pair the frame has no columns, and reading `re_profit` raises KeyError.
   */
  method CreateTradeLog(completed: seq<(Order, Order)>, mult: real) returns (r: Result<seq<TradeRow>>)
    ensures r.Err? <==> completed == []
    ensures r.Err? ==> r.error == KeyError
    ensures r.Ok? ==> |r.value| == |completed|
    ensures r.Ok? ==> forall i :: 0 <= i < |r.value| ==> Restamped(r.value[i], RowOf(completed[i].0, completed[i].1, mult))
    ensures r.Ok? ==> Totals(r.value) == Cumul(Nets(r.value))
  {
    if completed == [] {
      return Err(KeyError);
    }
    var plain: seq<TradeRow> := [];
    var i := 0;
    while i < |completed|
      invariant 0 <= i <= |completed| && |plain| == i
      invariant forall j :: 0 <= j < i ==> plain[j] == RowOf(completed[j].0, completed[j].1, mult)
    {
      plain := plain + [RowOf(completed[i].0, completed[i].1, mult)];
      i := i + 1;
    }
    var rows := CumulTotals(plain);
    r := Ok(rows);
  }

  /** `a` is `b` with (at most) another running total. */
  predicate Restamped(a: TradeRow, b: TradeRow)
  {
    a == b.(cumulTotal := a.cumulTotal)
  }

  /** `df['cumul_total'] = (df['re_profit'] - df['commission']).cumsum()`. */
  method CumulTotals(plain: seq<TradeRow>) returns (rows: seq<TradeRow>)
    ensures |rows| == |plain|
    ensures forall i :: 0 <= i < |rows| ==> Restamped(rows[i], plain[i])
    ensures Totals(rows) == Cumul(Nets(rows))
  {
    rows := [];
    var total := 0.0;
    var i := 0;
    while i < |plain|
      invariant 0 <= i <= |plain| && |rows| == i
      invariant forall j :: 0 <= j < i ==> Restamped(rows[j], plain[j])
      invariant Totals(rows) == Cumul(Nets(plain[..i]))
      invariant total == Sum(Nets(plain[..i]))
    {
      var row := plain[i];
      CumulStep(plain, i, rows, total);
      total := total + Net(row);
      rows := rows + [row.(cumulTotal := total)];
      i := i + 1;
    }
    assert plain[..i] == plain;
    NetsIgnoreTotals(rows, plain);
  }

  /** One more row, stamped with the running total so far plus its own net result, keeps the totals the running sums. */
  lemma CumulStep(plain: seq<TradeRow>, i: nat, rows: seq<TradeRow>, total: real)
    requires i < |plain|
    requires Totals(rows) == Cumul(Nets(plain[..i])) && total == Sum(Nets(plain[..i]))
    ensures Totals(rows + [plain[i].(cumulTotal := total + Net(plain[i]))]) == Cumul(Nets(plain[..i + 1]))
    ensures total + Net(plain[i]) == Sum(Nets(plain[..i + 1]))
  {
    var row := plain[i];
    var before := Nets(plain[..i]);
    NetsStep(plain, i);
    CumulSnoc(before, Net(row));
    SumAppend(before, Net(row));
    var stamped := row.(cumulTotal := total + Net(row));
    Snoc(rows, stamped);
  }

  /** The net results of one row more of `plain`. */
  lemma NetsStep(plain: seq<TradeRow>, i: nat)
    requires i < |plain|
    ensures Nets(plain[..i + 1]) == Nets(plain[..i]) + [Net(plain[i])]
  {
    assert plain[..i + 1][..i] == plain[..i];
  }

  /** One row more adds its net result and its running total at the end of the columns. */
  lemma Snoc(rows: seq<TradeRow>, r: TradeRow)
    ensures Nets(rows + [r]) == Nets(rows) + [Net(r)]
    ensures Totals(rows + [r]) == Totals(rows) + [r.cumulTotal]
  {
    assert (rows + [r])[..|rows|] == rows;
  }

  /** One value more adds its running sum at the end. */
  lemma CumulSnoc(xs: seq<real>, x: real)
    ensures Cumul(xs + [x]) == Cumul(xs) + [Sum(xs + [x])]
  {
    assert (xs + [x])[..|xs|] == xs;
  }

  /** Rows that differ only in their running totals have the same net results. */
  lemma NetsIgnoreTotals(a: seq<TradeRow>, b: seq<TradeRow>)
    requires |a| == |b| && forall j :: 0 <= j < |a| ==> Restamped(a[j], b[j])
    ensures Nets(a) == Nets(b)
  {
    assert forall j :: 0 <= j < |a| ==> Nets(a)[j] == Nets(b)[j];
  }

  /** The net results split into profits and commissions: `Sum(nets) == Sum(profits) - Sum(commissions)`. */
  lemma {:induction false} NetsSplit(rows: seq<TradeRow>)
    ensures Sum(Nets(rows)) == Sum(Profits(rows)) - Sum(Commissions(rows))
    decreases |rows|
  {
    if rows != [] {
      NetsSplit(rows[..|rows| - 1]);
    }
  }

  /**
   * `total_net_profit`: the last row's running total, which is the sum of
   * all realized profits less all commissions; an empty log raises at
   * `iloc[-1]`.
   */
  function TotalNetProfit(rows: seq<TradeRow>): (r: Result<real>)
    ensures rows == [] <==> r.Err?
    ensures r.Err? ==> r.error == IndexError
    ensures r.Ok? ==> r.value == rows[|rows| - 1].cumulTotal
  {
    if rows == [] then Err(IndexError) else Ok(rows[|rows| - 1].cumulTotal)
  }

  /** On a log `create_trade_log` built, the total net profit is all profits less all commissions. */
  lemma TotalNetProfitOfLog(rows: seq<TradeRow>)
    requires rows != [] && Totals(rows) == Cumul(Nets(rows))
    ensures TotalNetProfit(rows) == Ok(Sum(Profits(rows)) - Sum(Commissions(rows)))
  {
    assert Totals(rows)[|rows| - 1] == Sum(Nets(rows));
    NetsSplit(rows);
  }

  /**
   * With positive units and multiplier, a trade's realized profit is
   * positive exactly when the price moved the way the entry order bet: up
   * for a BUY, down otherwise.
   */
  lemma ProfitSign(entry: Order, exit: Order, mult: real)
    requires entry.units > 0.0 && exit.units > 0.0 && mult > 0.0
    requires entry.direction == 1.0 || entry.direction == -1.0
    ensures RowOf(entry, exit, mult).reProfit > 0.0 <==>
      (entry.direction == 1.0 && exit.price > entry.price) || (entry.direction == -1.0 && exit.price < entry.price)
  {
    var u := Units(entry, exit);
    var k := u * mult;
    assert k > 0.0;
    var d := exit.price - entry.price;
    assert RowOf(entry, exit, mult).reProfit == d * k * entry.direction;
    if entry.direction == 1.0 {
      assert d * k * 1.0 == d * k;
    } else {
      assert d * k * -1.0 == -(d * k);
    }
  }

  // ---------------------------------------------------------------------
  // Maximum drawdown and its duration

  /** The high-water mark at `t`: 0 at the start, then the running maximum from `equity[1]` on. */
  function Mark(equity: seq<real>, t: nat): (m: real)
    requires t < |equity|
    ensures m >= 0.0
    ensures t > 0 ==> m >= equity[t]
  {
    if t == 0 then 0.0
    else
      var p := Mark(equity, t - 1);
      if p >= equity[t] then p else equity[t]
  }

  /** The mark at `t` is at least 0 and every equity from index 1 to `t`, and it is 0 or one of them. */
  lemma {:induction false} MarkIsPeak(equity: seq<real>, t: nat)
    requires t < |equity|
    ensures Mark(equity, t) >= 0.0
    ensures forall j :: 1 <= j <= t ==> equity[j] <= Mark(equity, t)
    ensures Mark(equity, t) == 0.0 || exists j :: 1 <= j <= t && equity[j] == Mark(equity, t)
  {
    if t > 0 {
      MarkIsPeak(equity, t - 1);
    }
  }

  /** The drawdown at `t >= 1`: the mark less the equity. */
  function Drop(equity: seq<real>, t: nat): (d: real)
    requires 1 <= t < |equity|
    ensures d >= 0.0
  {
    MarkIsPeak(equity, t);
    Mark(equity, t) - equity[t]
  }

  /** The drawdown column: NaN (`None`) at 0, the drawdown from 1 on. */
  function DrawdownAt(equity: seq<real>, t: nat): (d: Option<real>)
    requires t < |equity|
    ensures d.None? <==> t == 0
    ensures d.Some? ==> d.value >= 0.0 && forall j :: 1 <= j <= t ==> equity[j] - equity[t] <= d.value
  {
    if t == 0 then None
    else
      MarkIsPeak(equity, t);
      Some(Drop(equity, t))
  }

  /**
   * The duration column: NaN at 0; then 0 where the drawdown is 0 and one
   * more than the previous entry elsewhere, which stays NaN after a NaN.
   */
  function DurationAt(equity: seq<real>, t: nat): (k: Option<nat>)
    requires t < |equity|
    ensures t == 0 ==> k.None?
    ensures k.Some? ==> k.value < t
    ensures t > 0 && Drop(equity, t) == 0.0 ==> k == Some(0)
  {
    if t == 0 then None
    else if Drop(equity, t) == 0.0 then Some(0)
    else
      match DurationAt(equity, t - 1)
      case None => None
      case Some(k) => Some(k + 1)
  }

  /**
   * The duration at `t` counts the bars since the last zero drawdown, and
   * is NaN exactly when no drawdown from index 1 to `t` has been zero.
   */
  lemma {:induction false} DurationMeaning(equity: seq<real>, t: nat)
    requires t < |equity|
    ensures DurationAt(equity, t).None? <==> forall j :: 1 <= j <= t ==> Drop(equity, j) > 0.0
    ensures DurationAt(equity, t).Some? ==>
      var k := DurationAt(equity, t).value;
      k < t && Drop(equity, t - k) == 0.0 && forall j :: t - k < j <= t ==> Drop(equity, j) > 0.0
  {
    if t > 0 && Drop(equity, t) != 0.0 {
      DurationMeaning(equity, t - 1);
    }
  }

  /** The largest present entry, as pandas' `max` skips NaN; `None` when all are NaN. */
  function Highest(xs: seq<Option<real>>): (m: Option<real>)
    ensures m.None? <==> forall i :: 0 <= i < |xs| ==> xs[i].None?
    ensures m.Some? ==> m in xs && forall i :: 0 <= i < |xs| && xs[i].Some? ==> xs[i].value <= m.value
  {
    if xs == [] then None
    else
      var p := Highest(xs[..|xs| - 1]);
      var x := xs[|xs| - 1];
      if x.None? then p
      else if p.None? || p.value < x.value then x
      else p
  }

  /** The drawdown column as a whole. */
  function Drawdowns(equity: seq<real>): (c: seq<Option<real>>)
    ensures |c| == |equity| && forall t :: 0 <= t < |equity| ==> c[t] == DrawdownAt(equity, t)
  {
    seq(|equity|, t requires 0 <= t < |equity| => DrawdownAt(equity, t))
  }

  /** An entry of the duration column as the float pandas holds. */
  function DurationCell(equity: seq<real>, t: nat): Option<real>
    requires t < |equity|
  {
    if DurationAt(equity, t).None? then None else Some(DurationAt(equity, t).value as real)
  }

  /** The duration column as a whole. */
  function Durations(equity: seq<real>): (c: seq<Option<real>>)
    ensures |c| == |equity| && forall t :: 0 <= t < |equity| ==> c[t] == DurationCell(equity, t)
  {
    seq(|equity|, t requires 0 <= t < |equity| => DurationCell(equity, t))
  }

  /** The duration column's recurrence, as the loop fills it from the drawdown and the previous entry. */
  lemma DurationStep(equity: seq<real>, t: nat)
    requires 1 <= t < |equity|
    ensures var prev := DurationCell(equity, t - 1);
      DurationCell(equity, t) ==
        if Drop(equity, t) == 0.0 then Some(0.0)
        else if prev.None? then None else Some(prev.value + 1.0)
  {
  }

  /**
   * The loop of `create_drawdowns`: the high-water marks kept as a list,
   * the drawdown and duration columns filled in place from index 1 on.
   */
  method FillColumns(equity: seq<real>) returns (drawdown: array<Option<real>>, duration: array<Option<real>>)
    ensures fresh(drawdown) && fresh(duration)
    ensures drawdown[..] == Drawdowns(equity)
    ensures duration[..] == Durations(equity)
  {
    var hwm := [0.0];
    drawdown := new Option<real>[|equity|](_ => None);
    duration := new Option<real>[|equity|](_ => None);
    var t := 1;
    while t < |equity|
      invariant 1 <= t && (|equity| > 0 ==> t <= |equity|) && |hwm| == t
      invariant t - 1 < |equity| ==> hwm[t - 1] == Mark(equity, t - 1)
      invariant forall j :: 0 <= j < t && j < |equity| ==> drawdown[j] == DrawdownAt(equity, j)
      invariant forall j :: 0 <= j < t && j < |equity| ==> duration[j] == DurationCell(equity, j)
      invariant forall j :: t <= j < |equity| ==> drawdown[j].None? && duration[j].None?
    {
      var top := if hwm[t - 1] >= equity[t] then hwm[t - 1] else equity[t];
      hwm := hwm + [top];
      drawdown[t] := Some(hwm[t] - equity[t]);
      DurationStep(equity, t);
      duration[t] := if drawdown[t].value == 0.0 then Some(0.0)
                     else if duration[t - 1].None? then None else Some(duration[t - 1].value + 1.0);
      t := t + 1;
    }
  }

  /**
   * `create_drawdowns`: the largest drawdown and the longest duration
   * (rounding aside). With fewer than two points both are NaN; the largest
   * drawdown is never negative.
   */
  method CreateDrawdowns(equity: seq<real>) returns (maxDrawdown: Option<real>, maxDuration: Option<real>)
    ensures maxDrawdown == Highest(Drawdowns(equity))
    ensures maxDuration == Highest(Durations(equity))
    ensures |equity| <= 1 ==> maxDrawdown.None? && maxDuration.None?
    ensures |equity| > 1 ==> maxDrawdown.Some? && maxDrawdown.value >= 0.0
  {
    var drawdown, duration := FillColumns(equity);
    maxDrawdown := Highest(drawdown[..]);
    maxDuration := Highest(duration[..]);
    if |equity| > 1 {
      assert drawdown[..][1].Some?;
    }
  }

  // ---------------------------------------------------------------------
  // Counts, profit factor

  /**
   * `pct_profitable_trades`: winners over all trades, as a percentage; 0
   * with no trade, 100 exactly when every trade won.
   */
  function PctProfitable(rows: seq<TradeRow>): (x: real)
    ensures rows == [] ==> x == 0.0
    ensures 0.0 <= x <= 100.0
    ensures x == 100.0 <==> rows != [] && CountOf(Profits(rows), Win) == |rows|
  {
    if |rows| == 0 then 0.0
    else
      Share(CountOf(Profits(rows), Win), |rows|);
      CountOf(Profits(rows), Win) as real / |rows| as real * 100.0
  }

  /**
   * `profit_factor` on the gross profit `gp` and the (negative) gross loss
   * `gl`: 0 with no profit, 1000 with profit and no loss, otherwise the
   * factor by which the gross loss scales to the gross profit.
   */
  function Factor(gp: real, gl: real): (f: real)
    requires gp >= 0.0 && gl <= 0.0
    ensures gp == 0.0 ==> f == 0.0
    ensures gp > 0.0 && gl == 0.0 ==> f == 1000.0
    ensures gp > 0.0 && gl < 0.0 ==> f > 0.0 && Scaled(f, -gl) == gp
  {
    if gp == 0.0 then 0.0
    else if gl == 0.0 then 1000.0
    else NegatedRatio(gp, gl, gp / gl * -1.0); gp / gl * -1.0
  }

  /**
   * `profit_factor` of a trade log: 0 with no winning trade, 1000 with
   * winners and no losing trade, otherwise positive and the factor by which
   * the gross loss scales to the gross profit.
   */
  function ProfitFactor(rows: seq<TradeRow>): (f: real)
    ensures f >= 0.0
    ensures CountOf(Profits(rows), Win) == 0 ==> f == 0.0
    ensures CountOf(Profits(rows), Win) > 0 && CountOf(Profits(rows), Loss) == 0 ==> f == 1000.0
    ensures CountOf(Profits(rows), Win) > 0 && CountOf(Profits(rows), Loss) > 0 ==>
      f > 0.0 && Scaled(f, -GrossDrain(Profits(rows))) == GrossGain(Profits(rows))
  {
    Factor(GrossGain(Profits(rows)), GrossDrain(Profits(rows)))
  }
}
