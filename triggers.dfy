/**
 * The per-bar scans of `BacktestFill`: take-profit, stop-loss and
 * trailing-stop triggers on resting trades, and the triggering of pending
 * LIMIT and STOP orders against the bar's open, high and low.
 */
module Triggers {
  import opened Wrappers
  import opened PySeq
  import opened DataSeries
  import opened Orders
  import opened Ledger
  import opened Bars

  /** A take-profit, stop-loss or trailing-stop level Python treats as set: present and non-zero. */
  predicate Armed(x: Option<real>)
  {
    x.Some? && x.value != 0.0
  }

  /** Strictly between the bar's low and high. */
  predicate Inside(low: real, x: real, high: real)
  {
    low < x < high
  }

  /** The take-profit test: inside the bar, the whole bar above a buy's level, or below a sell's. */
  function TakeProfitHit(t: OrderType, x: real, low: real, high: real): (b: bool)
    ensures t == BUY && low <= high ==> (b <==> x < high && x != low)
    ensures t == SELL && low <= high ==> (b <==> x > low && x != high)
    ensures t !in {BUY, SELL} ==> (b <==> Inside(low, x, high))
  {
    Inside(low, x, high) || (t == BUY && x < low) || (t == SELL && x > high)
  }

  /** The stop-loss test: inside the bar, a buy's level below the high, or a sell's level above the low. */
  function StopLossHit(t: OrderType, x: real, low: real, high: real): (b: bool)
    ensures t == BUY ==> (b <==> x < high)
    ensures t == SELL ==> (b <==> x > low)
    ensures t !in {BUY, SELL} ==> (b <==> Inside(low, x, high))
  {
    Inside(low, x, high) || (t == BUY && x < high) || (t == SELL && x > low)
  }

  /** The trailing-stop test: inside the bar, the whole bar below a buy's level, or above a sell's. */
  function TrailingHit(t: OrderType, x: real, low: real, high: real): (b: bool)
    ensures t == BUY && low <= high ==> (b <==> x > low && x != high)
    ensures t == SELL && low <= high ==> (b <==> x < high && x != low)
    ensures t !in {BUY, SELL} ==> (b <==> Inside(low, x, high))
  {
    Inside(low, x, high) || (t == BUY && x > high) || (t == SELL && x < low)
  }

  /** A trigger: the execute type a closing order gets and the price it is filled at. */
  datatype Trigger = Trigger(kind: ExecType, price: real)

  /**
   * The trigger tests of `check_trade_list` for one trade: resting types are
   * skipped; a stop-loss wins when both levels lie inside the bar; then
   * take-profit, stop-loss and trailing stop are tried in that order.
   */
  function TradeTrigger(t: OrderType, e: ExecType, tp: Option<real>, sl: Option<real>, ts: Option<real>,
                        low: real, high: real): (r: Option<Trigger>)
    ensures Resting(e) ==> r.None?
    ensures r.Some? && r.value.kind == TakeProfitOrder ==> Armed(tp) && r.value.price == tp.value
    ensures r.Some? && r.value.kind == StopLossOrder ==> Armed(sl) && r.value.price == sl.value
    ensures r.Some? && r.value.kind == TrailingStopOrder ==> Armed(ts) && r.value.price == ts.value
    ensures r.Some? ==> r.value.kind in {TakeProfitOrder, StopLossOrder, TrailingStopOrder}
    ensures r.None? <==> (Resting(e)
      || (!(Armed(tp) && TakeProfitHit(t, tp.value, low, high))
          && !(Armed(sl) && StopLossHit(t, sl.value, low, high))
          && !(Armed(ts) && TrailingHit(t, ts.value, low, high))))
  {
    if Resting(e) then None
    else if Armed(tp) && Armed(sl) && Inside(low, tp.value, high) && Inside(low, sl.value, high) then
      Some(Trigger(StopLossOrder, sl.value))
    else if Armed(tp) && TakeProfitHit(t, tp.value, low, high) then Some(Trigger(TakeProfitOrder, tp.value))
    else if Armed(sl) && StopLossHit(t, sl.value, low, high) then Some(Trigger(StopLossOrder, sl.value))
    else if Armed(ts) && TrailingHit(t, ts.value, low, high) then Some(Trigger(TrailingStopOrder, ts.value))
    else None
  }

  /** Both levels inside the bar: the stop-loss is chosen; a take-profit fires only when that conflict is absent. */
  lemma StopLossWinsConflict(t: OrderType, e: ExecType, tp: real, sl: real, ts: Option<real>, low: real, high: real)
    requires !Resting(e) && tp != 0.0 && sl != 0.0
    ensures Inside(low, tp, high) && Inside(low, sl, high) ==>
      TradeTrigger(t, e, Some(tp), Some(sl), ts, low, high) == Some(Trigger(StopLossOrder, sl))
    ensures TradeTrigger(t, e, Some(tp), Some(sl), ts, low, high) == Some(Trigger(TakeProfitOrder, tp)) ==>
      !Inside(low, sl, high) || !Inside(low, tp, high)
  {
  }

  /** The side a closing order takes: the other side of the trade. */
  function Opposite(t: OrderType): (u: OrderType)
    ensures t == BUY ==> u == SELL
    ensures t != BUY ==> u == BUY
  {
    if t == BUY then SELL else BUY
  }

  /**
   * `set_take_stop`: the closing copy of a trade takes the other side (and
   * with it the other direction), loses its take-profit, stop-loss and
   * trailing stop, is dated today and is priced at the trigger.
   */
  function Closing(c: Order, trig: Trigger, today: Date): (o: Order)
    ensures o.orderType == Opposite(c.orderType) && o.direction == Direction(o.orderType)
    ensures o.takeProfit.None? && o.stopLoss.None? && o.trailingStop.None?
    ensures o.date == today && o.price == trig.price && o.execType == trig.kind
    ensures o.units == c.units && o.parent == c.parent && o.instrument == c.instrument && o.id == c.id
  {
    var side := Opposite(c.orderType);
    c.(execType := trig.kind, price := trig.price, orderType := side, direction := Direction(side),
       takeProfit := None, stopLoss := None, trailingStop := None, date := today)
  }

  /** The closing order of a buy or sell trade runs in the opposite direction. */
  lemma ClosingReversesDirection(c: Order, trig: Trigger, today: Date)
    requires c.orderType in {BUY, SELL} && c.direction == Direction(c.orderType)
    ensures Closing(c, trig, today).direction == -c.direction
  {
  }

  /** What the scan makes of one trade: its trailing stop after the update, and the closing order to queue, if any. */
  datatype Check = Check(stop: Option<real>, closing: Option<Order>)

  /**
   * `check_trade_list` for one trade `o` (wrapped by the event `trade`):
   * trades of other instruments, trades with no take-profit, stop-loss or
   * trailing stop, and trades dated today are skipped; otherwise the
   * trailing stop of a copy is updated at `curPrice` and the copy, whose
   * parent is the trade, is tested against the bar.
   */
  function CheckTrade(trade: Event, o: Order, inst: Inst, bar: Bar, curPrice: real): (r: Result<Check>)
    ensures o.instrument != inst || (o.takeProfit.None? && o.stopLoss.None? && o.trailingStop.None?) || o.date == bar.date
      ==> r == Ok(Check(o.trailingStop, None))
    ensures !Armed(o.trailingStop) && r.Ok? ==> r.value.stop == o.trailingStop
    ensures r.Ok? && r.value.closing.Some? ==>
      o.instrument == inst && o.date != bar.date
      && r.value.closing.value.parent == Some(trade.eid)
      && r.value.closing.value.date == bar.date
      && (exists trig :: TradeTrigger(o.orderType, o.execType, o.takeProfit, o.stopLoss, r.value.stop, bar.low, bar.high) == Some(trig)
            && r.value.closing.value == Closing(o.(trailingStop := r.value.stop, parent := Some(trade.eid)), trig, bar.date))
  {
    if o.instrument != inst then Ok(Check(o.trailingStop, None))
    else if o.takeProfit.None? && o.stopLoss.None? && o.trailingStop.None? then Ok(Check(o.trailingStop, None))
    else if o.date == bar.date then Ok(Check(o.trailingStop, None))
    else
      var ts := if Armed(o.trailingStop) then UpdateTrailingStop(o.trailingCalc, o.orderType, o.direction, curPrice, o.trailingStop)
                else Ok(o.trailingStop);
      match ts
      case Err(e) => Err(e)
      case Ok(stop) =>
        var c := o.(trailingStop := stop, parent := Some(trade.eid));
        match TradeTrigger(c.orderType, c.execType, c.takeProfit, c.stopLoss, c.trailingStop, bar.low, bar.high)
        case None => Ok(Check(stop, None))
        case Some(trig) => Ok(Check(stop, Some(Closing(c, trig, bar.date))))
  }

  /** For a buy trade with a points trailing spec, the updated stop is never below the one it had. */
  lemma CheckTradeNeverLoosens(trade: Event, o: Order, inst: Inst, bar: Bar, curPrice: real)
    requires o.orderType == BUY && o.trailingStop.Some? && o.trailingCalc.Some? && o.trailingCalc.value.Points?
    requires CheckTrade(trade, o, inst, bar, curPrice).Ok?
    ensures CheckTrade(trade, o, inst, bar, curPrice).value.stop.Some?
    ensures CheckTrade(trade, o, inst, bar, curPrice).value.stop.value >= o.trailingStop.value
  {
    if o.instrument == inst && o.date != bar.date && Armed(o.trailingStop) {
      TrailingNeverLoosens(o.trailingCalc, o.orderType, o.direction, curPrice, o.trailingStop.value);
    }
  }

  /**
   * The scan as the source runs it: every trade is tested on a copy of its
   * order, so the trailing stop the update computes is dropped after the
   * bar. The closing orders are returned in list order.
   */
  function ScanTrades(trades: seq<Event>, orders: map<nat, Order>, inst: Inst, bar: Bar, curPrice: real): (r: Result<seq<Order>>)
    requires forall e :: e in trades ==> e.oref in orders
    ensures r.Ok? ==> |r.value| <= |trades|
    decreases |trades|
  {
    if trades == [] then Ok([])
    else
      var n := |trades| - 1;
      match ScanTrades(trades[..n], orders, inst, bar, curPrice)
      case Err(e) => Err(e)
      case Ok(out) =>
        match CheckTrade(trades[n], orders[trades[n].oref], inst, bar, curPrice)
        case Err(e) => Err(e)
        case Ok(c) => Ok(out + (if c.closing.Some? then [c.closing.value] else []))
  }

  /**
   * The state of the trade scan with the trailing stop kept: the order
   * objects, the next order reference and event identity, the events
   * queued so far, and the exception the scan stopped with, if any.
   */
  datatype Kept = Kept(orders: map<nat, Order>, nextRef: nat, nextEid: nat, queued: seq<Event>, raised: Option<Exc>)

  /**
   * One trade of the kept scan: the trade's order gets its updated trailing
   * stop, and a closing order is stored as a new object under the next
   * reference and queued wrapped by a new event; a failing trailing-stop
   * update stops the scan.
   */
  function KeepStep(k: Kept, trade: Event, inst: Inst, bar: Bar, curPrice: real): (r: Kept)
    requires trade.oref in k.orders
    ensures k.orders.Keys <= r.orders.Keys
  {
    var o := k.orders[trade.oref];
    match CheckTrade(trade, o, inst, bar, curPrice)
    case Err(e) => k.(raised := Some(e))
    case Ok(c) =>
      var orders := k.orders[trade.oref := o.(trailingStop := c.stop)];
      if c.closing.None? then k.(orders := orders)
      else Kept(orders[k.nextRef := c.closing.value], k.nextRef + 1, k.nextEid + 1,
                k.queued + [Event(k.nextEid, k.nextRef)], None)
  }

  /**
   * The scan with each trade's updated trailing stop written back to its
   * order, so that the stop ratchets from one bar to the next, continuing
   * from the state `k` over the trades still to test. Once stopped, it
   * stays stopped; what was queued before stays queued.
   */
  function ScanTradesKept(k: Kept, trades: seq<Event>, inst: Inst, bar: Bar, curPrice: real): (r: Kept)
    requires forall e :: e in trades ==> e.oref in k.orders
    ensures k.raised.Some? ==> r == k
    ensures k.orders.Keys <= r.orders.Keys
    decreases |trades|
  {
    if trades == [] || k.raised.Some? then k
    else ScanTradesKept(KeepStep(k, trades[0], inst, bar, curPrice), trades[1..], inst, bar, curPrice)
  }

  /**
   * A step keeps every reference below the next one and every id in range:
   * a closing order carries the id of the trade's order.
   */
  lemma KeepStepBooks(k: Kept, trade: Event, inst: Inst, bar: Bar, curPrice: real, idEnd: nat)
    requires trade.oref in k.orders
    requires forall x :: x in k.orders ==> x < k.nextRef && 1 <= k.orders[x].id < idEnd
    ensures var r := KeepStep(k, trade, inst, bar, curPrice);
      k.nextRef <= r.nextRef && forall x :: x in r.orders ==> x < r.nextRef && 1 <= r.orders[x].id < idEnd
  {
    var o := k.orders[trade.oref];
    match CheckTrade(trade, o, inst, bar, curPrice)
    case Err(_) =>
    case Ok(c) =>
      if c.closing.Some? {
        assert c.closing.value.id == o.id;
      }
  }

  /** The kept scan as the book sees it: no order is dropped, references stay below the next one, ids stay in range. */
  lemma {:induction false} ScanTradesKeptBooks(k: Kept, trades: seq<Event>, inst: Inst, bar: Bar, curPrice: real, idEnd: nat)
    requires forall e :: e in trades ==> e.oref in k.orders
    requires forall x :: x in k.orders ==> x < k.nextRef && 1 <= k.orders[x].id < idEnd
    ensures var r := ScanTradesKept(k, trades, inst, bar, curPrice);
      k.orders.Keys <= r.orders.Keys && k.nextRef <= r.nextRef
      && forall x :: x in r.orders ==> x < r.nextRef && 1 <= r.orders[x].id < idEnd
    decreases |trades|
  {
    if trades != [] && k.raised.None? {
      KeepStepBooks(k, trades[0], inst, bar, curPrice, idEnd);
      assert forall e :: e in trades[1..] ==> e in trades;
      ScanTradesKeptBooks(KeepStep(k, trades[0], inst, bar, curPrice), trades[1..], inst, bar, curPrice, idEnd);
    }
  }

  /** Every event the kept scan queues wraps an order it keeps stored. */
  lemma {:induction false} ScanTradesKeptQueued(k: Kept, trades: seq<Event>, inst: Inst, bar: Bar, curPrice: real)
    requires forall e :: e in trades ==> e.oref in k.orders
    requires forall e :: e in k.queued ==> e.oref in k.orders
    ensures var r := ScanTradesKept(k, trades, inst, bar, curPrice);
      forall e :: e in r.queued ==> e.oref in r.orders
    decreases |trades|
  {
    if trades != [] && k.raised.None? {
      assert forall e :: e in trades[1..] ==> e in trades;
      ScanTradesKeptQueued(KeepStep(k, trades[0], inst, bar, curPrice), trades[1..], inst, bar, curPrice);
    }
  }

  /** The running trailing stop of a buy with a points offset, over the prices seen bar after bar. */
  function Ratchet(stop: real, points: real, prices: seq<real>): (r: real)
    ensures r >= stop
    ensures forall j :: 0 <= j < |prices| ==> r >= StopBelow(prices[j], points, 1.0)
    decreases |prices|
  {
    if prices == [] then stop
    else
      var n := |prices| - 1;
      var before := Ratchet(stop, points, prices[..n]);
      assert forall j :: 0 <= j < n ==> prices[..n][j] == prices[j];
      if StopBelow(prices[n], points, 1.0) > before then StopBelow(prices[n], points, 1.0) else before
  }

  /**
   * A buy trade with a points trailing stop of 5 set at 95 (the example
   * order `Trail95`): the price reaches 120 and then falls back to 110. The
   * scan as written computes 115 on the first bar and 105 on the second,
   * since each bar starts again from 95; kept across bars, the stop stays at
   * 115, the running value of `Ratchet`.
   */
  function Trail95(): (o: Order)
    ensures o.orderType == BUY && o.trailingStop == Some(95.0) && o.direction == 1.0
  {
    Blank(1, BUY, Market, "X", 0.0, 0.0, 1.0).(date := Day(0), units := 1.0, price := 100.0,
      trailingStop := Some(95.0), trailingCalc := Some(Points(5.0)))
  }

  lemma TrailingDroppedAsWritten()
    ensures CheckTrade(Event(0, 0), Trail95(), "X", Bar(Day(1), 120.0, 121.0, 119.0, 120.0), 120.0)
      == Ok(Check(Some(115.0), None))
    ensures CheckTrade(Event(0, 0), Trail95(), "X", Bar(Day(2), 110.0, 111.0, 109.0, 110.0), 110.0).Ok?
    ensures CheckTrade(Event(0, 0), Trail95(), "X", Bar(Day(2), 110.0, 111.0, 109.0, 110.0), 110.0).value.stop
      == Some(105.0)
  {
    assert StopBelow(120.0, 5.0, 1.0) == 115.0;
    assert StopBelow(110.0, 5.0, 1.0) == 105.0;
  }

  lemma TrailingKeptCorrected()
    ensures CheckTrade(Event(0, 0), Trail95().(trailingStop := Some(115.0)), "X", Bar(Day(2), 110.0, 111.0, 109.0, 110.0), 110.0).Ok?
    ensures CheckTrade(Event(0, 0), Trail95().(trailingStop := Some(115.0)), "X", Bar(Day(2), 110.0, 111.0, 109.0, 110.0), 110.0).value.stop
      == Some(Ratchet(95.0, 5.0, [120.0, 110.0]))
  {
    assert StopBelow(110.0, 5.0, 1.0) == 105.0;
    assert StopBelow(120.0, 5.0, 1.0) == 115.0;
    assert Ratchet(95.0, 5.0, [120.0]) == 115.0 by {
      assert [120.0][..0] == [];
    }
    assert [120.0, 110.0][..1] == [120.0];
  }

  /** What one pending order does on this bar as the source tests it. */
  datatype Pending = Keep | FillAt(price: real) | FillTwice(price: real)

  /**
   * `check_order_list` for one pending order. The buy branch tests STOP
   * and LIMIT with two separate `if`s: a buy-stop triggered at the open is
   * tested again, now tagged as triggered and priced at the open, and fires
   * a second time when the open lies strictly inside the bar.
   */
  function PendingAsWritten(o: Order, bar: Bar): (p: Pending)
    ensures p.FillTwice? <==>
      o.orderType == BUY && o.execType == Stop && bar.open > o.price && Inside(bar.low, bar.open, bar.high)
    ensures p.FillTwice? ==> p.price == bar.open
    ensures p.FillAt? ==> p.price == bar.open || (p.price == o.price && Inside(bar.low, o.price, bar.high))
    ensures o.orderType !in {BUY, SELL} ==> p == Keep
    ensures p == Keep && o.orderType in {BUY, SELL} ==> !Inside(bar.low, o.price, bar.high)
  {
    if o.orderType == BUY then
      if o.execType == Stop && bar.open > o.price then
        if Inside(bar.low, bar.open, bar.high) then FillTwice(bar.open) else FillAt(bar.open)
      else if o.execType == Limit && bar.open < o.price then FillAt(bar.open)
      else if Inside(bar.low, o.price, bar.high) then FillAt(o.price)
      else Keep
    else if o.orderType == SELL then
      if o.execType == Limit && bar.open > o.price then FillAt(bar.open)
      else if o.execType == Stop && bar.open < o.price then FillAt(bar.open)
      else if Inside(bar.low, o.price, bar.high) then FillAt(o.price)
      else Keep
    else Keep
  }

  /**
   * The pending-order test as one chain: a buy-stop fills at the open when
   * the open is above its price, a buy-limit when it is below, otherwise
   * either fills at its own price when that lies strictly inside the bar;
   * sells mirror this.
   */
  function PendingCorrected(o: Order, bar: Bar): (p: Option<real>)
    ensures o.orderType !in {BUY, SELL} ==> p.None?
    ensures o.orderType == BUY && o.execType == Stop && bar.open > o.price ==> p == Some(bar.open)
    ensures o.orderType == BUY && o.execType == Limit && bar.open < o.price ==> p == Some(bar.open)
    ensures o.orderType == SELL && o.execType == Limit && bar.open > o.price ==> p == Some(bar.open)
    ensures o.orderType == SELL && o.execType == Stop && bar.open < o.price ==> p == Some(bar.open)
    ensures p.Some? ==> p.value == bar.open || (p.value == o.price && Inside(bar.low, o.price, bar.high))
    ensures p.None? && o.orderType in {BUY, SELL} ==> !Inside(bar.low, o.price, bar.high)
  {
    if o.orderType == BUY then
      if o.execType == Stop && bar.open > o.price then Some(bar.open)
      else if o.execType == Limit && bar.open < o.price then Some(bar.open)
      else if Inside(bar.low, o.price, bar.high) then Some(o.price)
      else None
    else if o.orderType == SELL then
      if o.execType == Limit && bar.open > o.price then Some(bar.open)
      else if o.execType == Stop && bar.open < o.price then Some(bar.open)
      else if Inside(bar.low, o.price, bar.high) then Some(o.price)
      else None
    else None
  }

  /** Where the source fires once the chain fires at the same price; the one difference is the second firing. */
  lemma PendingAgree(o: Order, bar: Bar)
    ensures PendingAsWritten(o, bar) == Keep <==> PendingCorrected(o, bar).None?
    ensures PendingAsWritten(o, bar).FillAt? ==> PendingCorrected(o, bar) == Some(PendingAsWritten(o, bar).price)
    ensures PendingAsWritten(o, bar).FillTwice? ==> PendingCorrected(o, bar) == Some(PendingAsWritten(o, bar).price)
  {
  }

  /** A buy-stop at 100 on a bar opening at 101 inside (99, 103) is triggered twice as written. */
  lemma BuyStopFiresTwice()
    ensures var o := Blank(1, BUY, Stop, "X", 0.0, 0.0, 1.0).(price := 100.0, execType := Stop);
      var bar := Bar(Day(1), 101.0, 103.0, 99.0, 102.0);
      PendingAsWritten(o, bar) == FillTwice(101.0) && PendingCorrected(o, bar) == Some(101.0)
  {
  }

  /** `set_event`: the triggered order keeps its side, is dated today, priced at `price` and tagged as triggered. */
  function Fired(o: Order, price: real, today: Date): (t: Order)
    ensures t.execType == Triggered(o.execType) && t.price == price && t.date == today
    ensures t.orderType == o.orderType && t.direction == Direction(o.orderType)
    ensures t.units == o.units && t.instrument == o.instrument && t.id == o.id
  {
    o.(price := price, orderType := o.orderType, direction := Direction(o.orderType), date := today,
       execType := Triggered(o.execType))
  }

  /** The pending scan's state: the hidden loop index, the pending list, the orders and the events queued. */
  datatype Scan = Scan(k: nat, pending: seq<Event>, orders: map<nat, Order>, queued: seq<Event>)

  ghost predicate ScanOk(w: Scan)
  {
    (forall e :: e in w.pending ==> e.oref in w.orders) && w.k <= |w.pending| + 1
  }

  /** The end of a scan: its state, and the exception it stopped with, if any. */
  datatype ScanEnd = ScanEnd(w: Scan, raised: Option<Exc>)

  /** One triggered order: removed at the index, updated, queued. */
  function FireAt(w: Scan, price: real, today: Date): (r: Scan)
    requires ScanOk(w) && w.k < |w.pending|
    ensures ScanOk(r) && r.pending == RemoveAt(w.pending, w.k) && r.k == w.k
    ensures r.queued == w.queued + [w.pending[w.k]]
    ensures r.orders == w.orders[w.pending[w.k].oref := Fired(w.orders[w.pending[w.k].oref], price, today)]
  {
    var e := w.pending[w.k];
    var rest := RemoveAt(w.pending, w.k);
    assert forall x :: x in rest ==> x in w.pending;
    Scan(w.k, rest, w.orders[e.oref := Fired(w.orders[e.oref], price, today)], w.queued + [e])
  }

  /**
   * The pending scan as the source runs it: Python's `for` over the list
   * the triggers remove from, so the order after a triggered one is not
   * tested this bar; a second trigger of the same order stops the scan with
   * `ValueError`, after its first event was queued.
   */
  function ScanPending(inst: Inst, bar: Bar, w: Scan): (r: ScanEnd)
    requires ScanOk(w)
    ensures ScanOk(r.w)
    decreases |w.pending| + 1 - w.k
  {
    if w.k >= |w.pending| then ScanEnd(w, None)
    else
      var o := w.orders[w.pending[w.k].oref];
      if o.instrument != inst then ScanPending(inst, bar, w.(k := w.k + 1))
      else match PendingAsWritten(o, bar)
        case Keep => ScanPending(inst, bar, w.(k := w.k + 1))
        case FillAt(p) => ScanPending(inst, bar, FireAt(w, p, bar.date).(k := w.k + 1))
        case FillTwice(p) => ScanEnd(FireAt(w, p, bar.date), Some(ValueError))
  }

  /** The pending scan that tests every order once, with the test chain of `PendingCorrected`. */
  function ScanPendingCorrected(inst: Inst, bar: Bar, w: Scan): (r: Scan)
    requires ScanOk(w)
    ensures ScanOk(r)
    ensures r.orders.Keys == w.orders.Keys
    decreases |w.pending| + 1 - w.k
  {
    if w.k >= |w.pending| then w
    else
      var o := w.orders[w.pending[w.k].oref];
      if o.instrument != inst then ScanPendingCorrected(inst, bar, w.(k := w.k + 1))
      else match PendingCorrected(o, bar)
        case None => ScanPendingCorrected(inst, bar, w.(k := w.k + 1))
        case Some(p) => ScanPendingCorrected(inst, bar, FireAt(w, p, bar.date))
  }

  /** The corrected scan only rewrites stored orders: no reference is added or dropped and every id is kept. */
  lemma {:induction false} ScanPendingCorrectedBooks(inst: Inst, bar: Bar, w: Scan, idEnd: nat)
    requires ScanOk(w) && forall x :: x in w.orders ==> 1 <= w.orders[x].id < idEnd
    ensures var r := ScanPendingCorrected(inst, bar, w);
      r.orders.Keys == w.orders.Keys && forall x :: x in r.orders ==> 1 <= r.orders[x].id < idEnd
    decreases |w.pending| + 1 - w.k
  {
    if w.k < |w.pending| {
      var o := w.orders[w.pending[w.k].oref];
      if o.instrument != inst || PendingCorrected(o, bar).None? {
        ScanPendingCorrectedBooks(inst, bar, w.(k := w.k + 1), idEnd);
      } else {
        ScanPendingCorrectedBooks(inst, bar, FireAt(w, PendingCorrected(o, bar).value, bar.date), idEnd);
      }
    }
  }

  /** Every event the corrected scan queues wraps a stored order. */
  lemma {:induction false} ScanPendingCorrectedQueued(inst: Inst, bar: Bar, w: Scan)
    requires ScanOk(w) && forall e :: e in w.queued ==> e.oref in w.orders
    ensures var r := ScanPendingCorrected(inst, bar, w);
      forall e :: e in r.queued ==> e.oref in r.orders
    decreases |w.pending| + 1 - w.k
  {
    if w.k < |w.pending| {
      var o := w.orders[w.pending[w.k].oref];
      if o.instrument != inst || PendingCorrected(o, bar).None? {
        ScanPendingCorrectedQueued(inst, bar, w.(k := w.k + 1));
      } else {
        ScanPendingCorrectedQueued(inst, bar, FireAt(w, PendingCorrected(o, bar).value, bar.date));
      }
    }
  }

  /** No order before the scan's index is one of this instrument that triggers on the bar. */
  ghost predicate Untriggered(inst: Inst, bar: Bar, w: Scan)
    requires ScanOk(w)
  {
    forall j :: 0 <= j < w.k && j < |w.pending| ==>
      var o := w.orders[w.pending[j].oref];
      o.instrument != inst || PendingCorrected(o, bar).None?
  }

  /**
   * After the corrected scan, no pending order of the instrument would
   * trigger on this bar (the orders in the list being distinct objects).
   */
  lemma {:induction false} ScanPendingCorrectedComplete(inst: Inst, bar: Bar, w: Scan)
    requires ScanOk(w) && Untriggered(inst, bar, w)
    requires forall a, b :: 0 <= a < b < |w.pending| ==> w.pending[a].oref != w.pending[b].oref
    ensures var r := ScanPendingCorrected(inst, bar, w);
      forall e :: e in r.pending ==> r.orders[e.oref].instrument != inst || PendingCorrected(r.orders[e.oref], bar).None?
    decreases |w.pending| + 1 - w.k
  {
    if w.k >= |w.pending| {
      forall e | e in w.pending
        ensures w.orders[e.oref].instrument != inst || PendingCorrected(w.orders[e.oref], bar).None?
      {
        var j :| 0 <= j < |w.pending| && w.pending[j] == e;
      }
    } else {
      var o := w.orders[w.pending[w.k].oref];
      if o.instrument != inst || PendingCorrected(o, bar).None? {
        ScanPendingCorrectedComplete(inst, bar, w.(k := w.k + 1));
      } else {
        var w1 := FireAt(w, PendingCorrected(o, bar).value, bar.date);
        FireKeepsUntriggered(inst, bar, w, PendingCorrected(o, bar).value);
        ScanPendingCorrectedComplete(inst, bar, w1);
      }
    }
  }

  /** Firing the order at the index keeps the orders before it untriggered and the list's objects distinct. */
  lemma FireKeepsUntriggered(inst: Inst, bar: Bar, w: Scan, price: real)
    requires ScanOk(w) && w.k < |w.pending| && Untriggered(inst, bar, w)
    requires forall a, b :: 0 <= a < b < |w.pending| ==> w.pending[a].oref != w.pending[b].oref
    ensures var w1 := FireAt(w, price, bar.date);
      Untriggered(inst, bar, w1)
      && forall a, b :: 0 <= a < b < |w1.pending| ==> w1.pending[a].oref != w1.pending[b].oref
  {
    var w1 := FireAt(w, price, bar.date);
    forall j | 0 <= j < w1.k && j < |w1.pending|
      ensures var o1 := w1.orders[w1.pending[j].oref]; o1.instrument != inst || PendingCorrected(o1, bar).None?
    {
      assert w1.pending[j] == w.pending[j];
      assert w.pending[j].oref != w.pending[w.k].oref;
    }
    forall a, b | 0 <= a < b < |w1.pending|
      ensures w1.pending[a].oref != w1.pending[b].oref
    {
      var a' := if a < w.k then a else a + 1;
      var b' := if b < w.k then b else b + 1;
      assert w1.pending[a] == w.pending[a'] && w1.pending[b] == w.pending[b'];
    }
  }

  /** A pending buy-limit order at 100 on instrument "X", for the example scans below. */
  function LimitAt100(id: nat): Order
  {
    Blank(id, BUY, Limit, "X", 0.0, 0.0, 1.0).(price := 100.0)
  }

  /**
   * Two buy-limit orders at 100 on a bar opening at 99: as written the scan
   * triggers the first and does not test the second; the corrected scan
   * triggers both.
   */
  lemma ScanPendingSkips()
    ensures var w := Scan(0, [Event(1, 0), Event(2, 1)], map[0 := LimitAt100(1), 1 := LimitAt100(2)], []);
      var bar := Bar(Day(1), 99.0, 101.0, 98.0, 100.0);
      ScanPending("X", bar, w) == ScanEnd(Scan(1, [Event(2, 1)], ScanPending("X", bar, w).w.orders, [Event(1, 0)]), None)
      && ScanPendingCorrected("X", bar, w).queued == [Event(1, 0), Event(2, 1)]
      && ScanPendingCorrected("X", bar, w).pending == []
  {
    var w := Scan(0, [Event(1, 0), Event(2, 1)], map[0 := LimitAt100(1), 1 := LimitAt100(2)], []);
    var bar := Bar(Day(1), 99.0, 101.0, 98.0, 100.0);
    assert PendingAsWritten(LimitAt100(1), bar) == FillAt(99.0);
    var w1 := FireAt(w, 99.0, bar.date).(k := 1);
    assert w1.pending == [Event(2, 1)];
    assert ScanPending("X", bar, w) == ScanPending("X", bar, w1);
    assert PendingCorrected(LimitAt100(1), bar) == Some(99.0);
    var c1 := FireAt(w, 99.0, bar.date);
    assert c1.pending == [Event(2, 1)] && c1.orders[1] == LimitAt100(2);
    assert ScanPendingCorrected("X", bar, w) == ScanPendingCorrected("X", bar, c1);
    var c2 := FireAt(c1, 99.0, bar.date);
    assert c2.pending == [] && c2.queued == [Event(1, 0), Event(2, 1)];
    assert ScanPendingCorrected("X", bar, c1) == ScanPendingCorrected("X", bar, c2);
  }
}
