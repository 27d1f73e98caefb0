/**
 * `BacktestFill`: the ledger of a back-test. Each fill rewrites the last
 * record of the position, margin, commission, average price, unrealized,
 * balance and cash series and is then netted against the resting trades or
 * parked as a pending order; once per bar the resting trades and pending
 * orders are checked against the bar.
 *
 * The eight series are held together as one `Accounts` value: the ledger
 * is their only owner, so each `self.<series>.<method>(...)` call of the
 * source becomes an assignment of the value that method leaves.
 */
module Fill {
  import opened Wrappers
  import opened PySeq
  import opened DataSeries
  import opened Orders
  import opened Ledger
  import opened Bars
  import opened Netting
  import opened Triggers
  import opened Accounts

  class BacktestFill {
    /** The position, margin, average price, commission, cash, realized, unrealized and balance series. */
    var ledger: Accounts
    /** The instrument the six per-instrument series address; `set_dataseries_instrument` sets all six at once. */
    var instrument: Inst
    /** The order objects the events of the run share. */
    const book: Book
    var initialCash: real
    /** Pending LIMIT and STOP fills (`_order_list`). */
    var orderList: seq<Event>
    /** Resting trades (`_trade_list`). */
    var tradeList: seq<Event>
    /** (trade order, fill order) pairs of every match (`_completed_list`). */
    var completed: seq<(nat, nat)>

    /**
     * Every store keeps a record per listed instrument, an instrument of the
     * position series has a list in each per-instrument series, and the
     * listed events refer to stored orders.
     */
    ghost predicate Valid()
      reads this`ledger, this`tradeList, this`orderList, book
    {
      Coupled(ledger) && Linked()
    }

    /** The book is consistent and the listed events refer to stored orders. */
    ghost predicate Linked()
      reads this`tradeList, this`orderList, book
    {
      book.Valid()
      && (forall e :: e in tradeList ==> e.oref in book.orders)
      && (forall e :: e in orderList ==> e.oref in book.orders)
    }

    /** The addressed instrument has been initialized, and so have cash and balance. */
    ghost predicate Ready()
      reads this, book
    {
      Valid() && Fits(ledger, instrument)
    }

    /** A ledger as `FillBase.__init__` leaves it: empty series, 100000 of initial cash, empty lists. */
    constructor ()
      ensures Valid() && fresh(book) && book.orders == map[] && book.nextId == 1
      ensures ledger == Accounts(Empty, Empty, Empty, Empty, Empty, Empty, Empty, Empty)
      ensures initialCash == 100000.0 && orderList == [] && tradeList == [] && completed == []
    {
      ledger := Accounts(Empty, Empty, Empty, Empty, Empty, Empty, Empty, Empty);
      instrument := "";
      book := new Book();
      initialCash := 100000.0;
      orderList := [];
      tradeList := [];
      completed := [];
    }

    /** `set_cash` */
    method SetCash(c: real)
      modifies this`initialCash
      ensures initialCash == c
    {
      initialCash := c;
    }

    /** `set_dataseries_instrument` */
    method SetInstrument(inst: Inst)
      modifies this`instrument
      ensures instrument == inst
    {
      instrument := inst;
    }

    /** The six per-instrument series each get `inst`'s 0 placeholder. */
    method InitInstrument(inst: Inst)
      requires Valid()
      modifies this`ledger
      ensures Valid() && ledger == InitInst(old(ledger), inst)
    {
      ledger := InitInst(ledger, inst);
    }

    /** Cash and balance (`equity`) each start at the initial cash under `'all'`. */
    method Fund()
      requires Valid()
      modifies this`ledger
      ensures Valid() && ledger == Funded(old(ledger), initialCash)
    {
      ledger := Funded(ledger, initialCash);
    }

    /** `update_position`: appends the position the fill moves to. */
    method UpdatePosition(fo: Order)
      requires Fits(ledger, instrument)
      modifies this`ledger
      ensures ledger == AddPosition(old(ledger), instrument, fo)
    {
      ledger := AddPosition(ledger, instrument, fo);
    }

    /** `update_margin`: appends the margin of the new position at the fill price. */
    method UpdateMargin(fo: Order)
      requires Fits(ledger, instrument)
      modifies this`ledger
      ensures ledger == AddMargin(old(ledger), instrument, fo)
    {
      ledger := AddMargin(ledger, instrument, fo);
    }

    /** `update_commission`: appends the running commission plus this fill's fee. */
    method UpdateCommission(fo: Order)
      requires Fits(ledger, instrument)
      modifies this`ledger
      ensures ledger == AddCommission(old(ledger), instrument, fo)
    {
      ledger := AddCommission(ledger, instrument, fo);
    }

    /** `update_avg_price`: appends the average price from the previous and the new position. */
    method UpdateAvgPrice(fo: Order)
      requires Fits(ledger, instrument) && |ledger.position.lists[instrument]| >= 2
      modifies this`ledger
      ensures ledger == AddAvgPrice(old(ledger), instrument, fo)
    {
      ledger := AddAvgPrice(ledger, instrument, fo);
    }

    /** `update_unrealized_gain_and_loss`: appends the mark of the new position at the bar's close, high and low. */
    method UpdateUnrealized(fo: Order, bar: Bar)
      requires Fits(ledger, instrument)
      modifies this`ledger
      ensures ledger == AddUnrealized(old(ledger), instrument, fo, bar)
    {
      ledger := AddUnrealized(ledger, instrument, fo, bar);
    }

    /** `update_balance`: appends the balance, with its high and low companions, under `'all'`. */
    method UpdateBalance(fo: Order)
      requires Fits(ledger, instrument)
      modifies this`ledger
      ensures ledger == AddBalance(old(ledger), instrument, fo, initialCash)
    {
      ledger := AddBalance(ledger, instrument, fo, initialCash);
    }

    /** `update_cash`: appends the balance less the margin held over all instruments. */
    method UpdateCash(fo: Order)
      requires Fits(ledger, instrument)
      modifies this`ledger
      ensures ledger == AddCash(old(ledger), instrument, fo)
    {
      ledger := AddCash(ledger, instrument, fo);
    }

    /** Every listed event refers to a stored order. */
    ghost predicate Refs()
      reads this, book
    {
      (forall e :: e in tradeList ==> e.oref in book.orders)
      && (forall e :: e in orderList ==> e.oref in book.orders)
    }

    /** The walk `_update_trade_list` starts from: the index at 0 over the current lists and the instrument's realized records. */
    function Walked(): Walk
      requires instrument in ledger.realized.lists
      reads this, book
    {
      Walk(0, tradeList, book.orders, completed, ledger.realized.lists[instrument])
    }

    /** The pending list, the trade list, the orders and the completed pairs are those of the filed fill `r`. */
    ghost predicate Holds(r: Filed)
      reads this, book
    {
      orderList == r.pending && tradeList == r.w.trades && book.orders == r.w.orders && completed == r.w.completed
    }

    /** Writes a finished walk back: the trade list, the orders, the completed pairs and the instrument's realized records. */
    method Record(r: Walk)
      requires instrument in ledger.realized.lists && |r.realized| > 0
      modifies this`tradeList, this`completed, this`ledger, book`orders
      ensures tradeList == r.trades && book.orders == r.orders && completed == r.completed
      ensures ledger == old(ledger).(realized := Put(old(ledger.realized), instrument, r.realized))
    {
      tradeList, completed, book.orders := r.trades, r.completed, r.orders;
      ledger := ledger.(realized := Put(ledger.realized, instrument, r.realized));
    }

    /**
     * `_update_trade_list`: an exit fill closes its parent trade, a BUY
     * while short nets against the SELL trades and a SELL while long against
     * the BUY trades, with the previous position read as `position[-2]`.
     */
    method UpdateTradeList(f: Event)
      requires instrument in ledger.position.lists && instrument in ledger.realized.lists
      requires f.oref in book.orders && forall e :: e in tradeList ==> e.oref in book.orders
      modifies this`tradeList, this`completed, this`ledger, book`orders
      ensures var r := Settle(f, PreviousPosition(old(ledger), instrument), old(Walked()));
        tradeList == r.trades && book.orders == r.orders && completed == r.completed
        && ledger == old(ledger).(realized := Put(old(ledger.realized), instrument, r.realized))
    {
      var lastPos := PreviousPosition(ledger, instrument);
      var fo := book.orders[f.oref];
      if IsExit(fo.execType) {
        var r := CloseWalk(f, Walked());
        Record(r);
      } else if fo.orderType == BUY && lastPos < 0.0 {
        var r := NetWalk(SELL, f, Walked());
        Record(r);
      } else if fo.orderType == SELL && lastPos > 0.0 {
        var r := NetWalk(BUY, f, Walked());
        Record(r);
      } else {
        PutSame(ledger.realized, instrument);
      }
    }

    /**
     * `__to_list`: a LIMIT or STOP fill is parked as a pending order; any
     * other fill settles the trade list and then rests as a trade while it
     * has units.
     */
    method ToList(f: Event, ghost lastPos: real, ghost w: Walk)
      requires Valid() && instrument in ledger.position.lists && f.oref in book.orders
      requires lastPos == PreviousPosition(ledger, instrument) && w == Walked()
      modifies this`orderList, this`tradeList, this`completed, this`ledger, book`orders
      ensures Valid()
      ensures Holds(Listed(f, lastPos, w, old(orderList)))
      ensures ledger == old(ledger).(realized := Put(old(ledger.realized), instrument, Listed(f, lastPos, w, old(orderList)).w.realized))
    {
      if Resting(book.orders[f.oref].execType) {
        orderList := orderList + [f];
        PutSame(ledger.realized, instrument);
      } else {
        UpdateTradeList(f);
        if book.orders[f.oref].units != 0.0 {
          tradeList := tradeList + [f];
        }
      }
      PutRealizedCoupled(old(ledger), instrument, ledger.realized.lists[instrument]);
      ListedKeepsOrders(f, lastPos, w, old(orderList), book.nextRef, book.nextId);
    }

    /** `update_info` and then `__to_list`, for a fill on the addressed instrument. */
    method FileFill(f: Event, bar: Bar)
      requires Valid() && Fits(ledger, instrument) && f.oref in book.orders
      modifies this`ledger, this`tradeList, this`orderList, this`completed, book`orders
      ensures Valid()
      ensures var a := Info(old(ledger), instrument, old(book.orders[f.oref]), bar, initialCash);
        var r := Listed(f, PreviousPosition(a, instrument),
                        Walk(0, old(tradeList), old(book.orders), old(completed), a.realized.lists[instrument]), old(orderList));
        Holds(r) && ledger == a.(realized := Put(a.realized, instrument, r.w.realized))
    {
      ghost var a := Info(ledger, instrument, book.orders[f.oref], bar, initialCash);
      UpdateInfo(book.orders[f.oref], bar);
      ToList(f, PreviousPosition(a, instrument), Walk(0, old(tradeList), old(book.orders), old(completed), a.realized.lists[instrument]));
    }

    /**
     * `run_fill`: the series are set to the fill's instrument, `update_info`
     * records the fill against the bar of its feed and `__to_list` files it.
     * For an instrument the ledger was not initialized for, the first series
     * read raises `KeyError`.
     */
    method RunFill(f: Event, bar: Bar) returns (raised: Option<Exc>)
      requires Valid() && f.oref in book.orders
      modifies this`instrument, this`ledger, this`tradeList, this`orderList, this`completed, book`orders
      ensures Valid() && instrument == old(book.orders[f.oref].instrument)
      ensures OnlyUnits(old(book.orders), book.orders)
      ensures !Fits(old(ledger), instrument) ==>
        raised == Some(KeyError) && ledger == old(ledger) && book.orders == old(book.orders)
        && tradeList == old(tradeList) && orderList == old(orderList) && completed == old(completed)
      ensures Fits(old(ledger), instrument) ==>
        raised.None? && (var a := Info(old(ledger), instrument, old(book.orders[f.oref]), bar, initialCash);
        var r := Listed(f, PreviousPosition(a, instrument),
                        Walk(0, old(tradeList), old(book.orders), old(completed), a.realized.lists[instrument]), old(orderList));
        Holds(r) && ledger == a.(realized := Put(a.realized, instrument, r.w.realized)))
    {
      SetInstrument(book.orders[f.oref].instrument);
      if !Fits(ledger, instrument) {
        return Some(KeyError);
      }
      ghost var a := Info(ledger, instrument, book.orders[f.oref], bar, initialCash);
      ghost var w := Walk(0, tradeList, book.orders, completed, a.realized.lists[instrument]);
      ghost var pending := orderList;
      FileFill(f, bar);
      ListedOnlyUnits(f, PreviousPosition(a, instrument), w, pending);
      raised := None;
    }

    /**
     * `check_trade_list` for the feed of instrument `inst`, whose current
     * bar is `bar`: every resting trade is tested for its take-profit,
     * stop-loss and trailing stop, the trailing stop being updated at the
     * bar's `col` price, and for each trade that triggers a new event
     * wrapping a new closing order is queued. The updated trailing stop is
     * written back to the trade's order (see `ScanTradesKept`).
     */
    method CheckTradeList(inst: Inst, bar: Bar, col: Column) returns (queued: seq<Event>, raised: Option<Exc>)
      requires Valid()
      modifies book`orders, book`nextRef, book`nextEid
      ensures Valid()
      ensures var s := ScanTradesKept(Kept(old(book.orders), old(book.nextRef), old(book.nextEid), [], None),
                                      tradeList, inst, bar, ColumnOf(bar, col));
        book.orders == s.orders && book.nextRef == s.nextRef && book.nextEid == s.nextEid
        && queued == s.queued && raised == s.raised
    {
      var price := ColumnOf(bar, col);
      var k := Kept(book.orders, book.nextRef, book.nextEid, [], None);
      ghost var total := ScanTradesKept(k, tradeList, inst, bar, price);
      var j := 0;
      while j < |tradeList| && k.raised.None?
        invariant 0 <= j <= |tradeList| && book.orders.Keys <= k.orders.Keys
        invariant ScanTradesKept(k, tradeList[j..], inst, bar, price) == total
      {
        assert tradeList[j..][0] == tradeList[j] && tradeList[j..][1..] == tradeList[j + 1..];
        k := KeepStep(k, tradeList[j], inst, bar, price);
        j := j + 1;
      }
      book.orders, book.nextRef, book.nextEid := k.orders, k.nextRef, k.nextEid;
      queued, raised := k.queued, k.raised;
      ScanTradesKeptBooks(Kept(old(book.orders), old(book.nextRef), old(book.nextEid), [], None),
                          tradeList, inst, bar, price, book.nextId);
    }

    /**
     * `check_order_list` for the feed of instrument `inst`, whose current
     * bar is `bar`: every pending order of the instrument that the bar
     * triggers is removed from the pending list, priced, dated, tagged as
     * triggered and queued (see `ScanPendingCorrected`).
     */
    method CheckOrderList(inst: Inst, bar: Bar) returns (queued: seq<Event>)
      requires Valid()
      modifies this`orderList, book`orders
      ensures Valid()
      ensures var r := ScanPendingCorrected(inst, bar, Scan(0, old(orderList), old(book.orders), []));
        orderList == r.pending && book.orders == r.orders && queued == r.queued
    {
      var w := Scan(0, orderList, book.orders, []);
      ghost var total := ScanPendingCorrected(inst, bar, w);
      while w.k < |w.pending|
        invariant ScanOk(w) && ScanPendingCorrected(inst, bar, w) == total
        decreases |w.pending| + 1 - w.k
      {
        var o := w.orders[w.pending[w.k].oref];
        if o.instrument != inst {
          w := w.(k := w.k + 1);
        } else {
          match PendingCorrected(o, bar)
          case None => w := w.(k := w.k + 1);
          case Some(p) => w := FireAt(w, p, bar.date);
        }
      }
      ScanPendingCorrectedBooks(inst, bar, Scan(0, orderList, book.orders, []), book.nextId);
      orderList, book.orders := w.pending, w.orders;
      queued := w.queued;
    }

    /**
     * The body of `update_time_index`'s loop for one feed: the series are
     * set to the feed's instrument, then position, margin, average price,
     * commission and unrealized are updated in that order, each reading the
     * ones before it.
     */
    method MarkStep(m: Mark, d: Date)
      requires Fits(ledger, m.inst)
      modifies this`ledger, this`instrument
      ensures instrument == m.inst && ledger == MarkFeed(old(ledger), m, d)
    {
      SetInstrument(m.inst);
      ledger := ledger.(position := Put(ledger.position, instrument, CopiedLast(ledger.position.lists[instrument], d)));
      var p := LastOf(ledger.position, instrument);
      ledger := ledger.(margin := Push(ledger.margin, instrument, Point(d, MarginOf(m.perMargin, p, m.mult, m.bar.close))));
      ledger := ledger.(avgPrice := Put(ledger.avgPrice, instrument, CopiedLast(ledger.avgPrice.lists[instrument], d)));
      ledger := ledger.(commission := Put(ledger.commission, instrument, CopiedLast(ledger.commission.lists[instrument], d)));
      var avg := LastOf(ledger.avgPrice, instrument);
      ledger := ledger.(unrealized := Push(ledger.unrealized, instrument, MarkRec(d, m.bar, avg, p, m.mult)));
    }

    /**
     * One turn of `update_time_index`'s loop, after the feeds before `j`:
     * the `j`-th feed is marked, or, when the ledger was not initialized
     * for its instrument, the turn stops with the series set to it.
     */
    method MarkNext(ghost a: Accounts, marks: seq<Mark>, j: nat, d: Date) returns (ok: bool)
      requires j < |marks| && MarksFit(a, marks[..j]) && ledger == MarkAll(a, marks[..j], d)
      modifies this`ledger, this`instrument
      ensures instrument == marks[j].inst
      ensures ok <==> Fits(a, marks[j].inst)
      ensures ok ==> MarksFit(a, marks[..j + 1]) && ledger == MarkAll(a, marks[..j + 1], d)
      ensures !ok ==> ledger == old(ledger)
    {
      if !Fits(ledger, marks[j].inst) {
        SetInstrument(marks[j].inst);
        return false;
      }
      MarksFitGrow(a, marks, j);
      MarkAllSnoc(a, marks[..j], marks[j], d);
      MarkStep(marks[j], d);
      ok := true;
    }

    /**
     * The loop of `update_time_index`: the feeds are marked in order, `n`
     * of them; a feed whose instrument the ledger was not initialized for
     * raises `KeyError`, the feeds before it already marked.
     */
    method MarkFeeds(marks: seq<Mark>, d: Date) returns (n: nat, raised: Option<Exc>)
      modifies this`ledger, this`instrument
      ensures n <= |marks| && MarksFit(old(ledger), marks[..n])
      ensures ledger == MarkAll(old(ledger), marks[..n], d)
      ensures n < |marks| <==> raised == Some(KeyError)
      ensures n < |marks| ==> !Fits(old(ledger), marks[n].inst) && instrument == marks[n].inst
      ensures n == |marks| ==> raised.None? && (n > 0 ==> instrument == marks[n - 1].inst)
    {
      ghost var a := ledger;
      n := 0;
      assert marks[..0] == [];
      ghost var last := 0;
      while n < |marks|
        invariant n <= |marks| && MarksFit(a, marks[..n]) && ledger == MarkAll(a, marks[..n], d)
        invariant n > 0 ==> last + 1 == n && instrument == marks[last].inst
      {
        var ok := MarkNext(a, marks, n, d);
        if !ok {
          return n, Some(KeyError);
        }
        last := n;
        n := n + 1;
      }
      raised := None;
    }

    /** The tail of `update_time_index`: the balance and then the cash are appended under `'all'`. */
    method BookBalance(d: Date) returns (ruined: bool)
      requires Fits(ledger, instrument)
      modifies this`ledger
      ensures ledger == BalanceBooked(old(ledger), instrument, d, initialCash)
      ensures ruined == Ruined(LastOf(ledger.balance, All), LastOf(ledger.cash, All))
    {
      var commission := LastOf(ledger.commission, instrument);
      var realized := Sum(Values(ledger.realized.lists[instrument]));
      var bal := Rec(d, Balance(initialCash, realized, TotalLast(ledger.unrealized, Value), commission),
                     Balance(initialCash, realized, TotalLast(ledger.unrealized, High), commission),
                     Balance(initialCash, realized, TotalLast(ledger.unrealized, Low), commission));
      ledger := ledger.(balance := Push(ledger.balance, All, bal));
      var cash := Cash(LastOf(ledger.balance, All), TotalLast(ledger.margin, Value));
      ledger := ledger.(cash := Push(ledger.cash, All, Point(d, cash)));
      ruined := Ruined(LastOf(ledger.balance, All), cash);
    }

    /**
     * `update_time_index`, once per bar, under the date of the last feed's
     * bar: the feeds are marked, the balance and the cash appended, and the
     * account is ruined once either is no longer positive. With no feed the
     * date cannot be read (`IndexError`); a feed whose instrument the ledger
     * was not initialized for raises `KeyError`, the feeds before it marked
     * and no balance appended.
     */
    method UpdateTimeIndex(marks: seq<Mark>) returns (ruined: bool, raised: Option<Exc>)
      modifies this`ledger, this`instrument
      ensures marks == [] ==> raised == Some(IndexError) && !ruined && ledger == old(ledger) && instrument == old(instrument)
      ensures marks != [] && MarksFit(old(ledger), marks) ==>
        raised.None? && instrument == marks[|marks| - 1].inst
        && ledger == TimeIndex(old(ledger), marks, initialCash)
        && ruined == Ruined(LastOf(ledger.balance, All), LastOf(ledger.cash, All))
      ensures marks != [] && !MarksFit(old(ledger), marks) ==> raised == Some(KeyError) && !ruined
    {
      if marks == [] {
        return false, Some(IndexError);
      }
      ruined, raised := MarkAndClose(marks);
    }

    /** `update_time_index` once there is a last feed: mark every feed, then close the bar. */
    method MarkAndClose(marks: seq<Mark>) returns (ruined: bool, raised: Option<Exc>)
      requires marks != []
      modifies this`ledger, this`instrument
      ensures MarksFit(old(ledger), marks) ==>
        raised.None? && instrument == marks[|marks| - 1].inst
        && ledger == TimeIndex(old(ledger), marks, initialCash)
        && ruined == Ruined(LastOf(ledger.balance, All), LastOf(ledger.cash, All))
      ensures !MarksFit(old(ledger), marks) ==> raised == Some(KeyError) && !ruined
    {
      ghost var a := ledger;
      var d := marks[|marks| - 1].bar.date;
      var n;
      n, raised := MarkFeeds(marks, d);
      if raised.Some? {
        MarksStopped(a, marks, n);
        return false, raised;
      }
      MarksWhole(a, marks, d);
      ruined := CloseBar(a, marks);
    }

    /** The balance booked after every feed of the bar was marked. */
    method CloseBar(ghost a: Accounts, marks: seq<Mark>) returns (ruined: bool)
      requires marks != [] && MarksFit(a, marks) && instrument == marks[|marks| - 1].inst
      requires ledger == MarkAll(a, marks, marks[|marks| - 1].bar.date)
      modifies this`ledger
      ensures ledger == TimeIndex(a, marks, initialCash) && Readable(ledger)
      ensures ruined == Ruined(LastOf(ledger.balance, All), LastOf(ledger.cash, All))
    {
      ruined := BookBalance(marks[|marks| - 1].bar.date);
    }

    /** The seven `del_last` calls of `update_info`. */
    method DelLastAll()
      requires Fits(ledger, instrument) && Poppable(ledger, instrument)
      modifies this`ledger
      ensures ledger == Dropped(old(ledger), instrument)
    {
      ledger := Dropped(ledger, instrument);
    }

    /** The seven appends of `update_info`, each reading the series the ones before it grew. */
    method AppendAll(fo: Order, bar: Bar)
      requires Fits(ledger, instrument)
      modifies this`ledger
      ensures ledger == Appended(old(ledger), instrument, fo, bar, initialCash)
      ensures Poppable(ledger, instrument)
    {
      UpdatePosition(fo);
      UpdateMargin(fo);
      UpdateCommission(fo);
      UpdateAvgPrice(fo);
      UpdateUnrealized(fo, bar);
      UpdateBalance(fo);
      UpdateCash(fo);
    }

    /**
     * `update_info`: the seven appends and then the seven `del_last` calls;
     * every series of the instrument and the account-wide balance and cash
     * end with their last record rewritten (`Info`), realized untouched.
     */
    method UpdateInfo(fo: Order, bar: Bar)
      requires Fits(ledger, instrument)
      modifies this`ledger
      ensures ledger == Info(old(ledger), instrument, fo, bar, initialCash)
    {
      ghost var a := ledger;
      AppendAll(fo, bar);
      DelLastAll();
      AppendThenDropIsInfo(a, instrument, fo, bar, initialCash);
    }
  }
}
