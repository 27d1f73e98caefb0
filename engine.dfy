/**
 * The engine (`Quant`): the feeds, the strategies, the ledger and the broker
 * of one back-test, the event queue they share, and the loop that drains
 * it. Market events go to every strategy, signal events become order
 * events (the portfolio), order events go to the broker and fill events to
 * the ledger.
 */
module Engine {
  import opened Wrappers
  import opened DataSeries
  import opened Orders
  import opened Bars
  import opened Accounts
  import Ledger
  import opened Netting
  import opened Triggers
  import opened Fill
  import opened Feeds
  import opened Brokers
  import opened Strategies

  /**
   * A queued event: a market event of a feed, or a signal, order or fill
   * event together with the feed of the order it wraps (the feed whose
   * current bar the ledger reads when the fill is recorded).
   */
  datatype Ev =
    | MarketEv(feed: nat)
    | SignalEv(e: Event, feed: nat)
    | OrderEv(e: Event, feed: nat)
    | FillEv(e: Event, feed: nat)

  /** How a run ended: the end of the back-test, an exception out of the loop, or the turn bound. */
  datatype Outcome = Ended | Raised(exc: Exc) | OutOfFuel

  /** A strategy class: the calls its `next` makes on a market event. */
  type Plan = Market -> seq<Call>

  /** An argument of `set_backtest`: one object, or a list of them. */
  datatype OneOrMany<T> = One(item: T) | Many(items: seq<T>)

  /** The list `set_backtest` makes of its argument. */
  function AsList<T>(a: OneOrMany<T>): seq<T>
  {
    match a
    case One(x) => [x]
    case Many(xs) => xs
  }

  /** Events of a strategy, queued as signal events of feed `feed`. */
  function AsSignals(q: seq<Event>, feed: nat): seq<Ev>
  {
    seq(|q|, k requires 0 <= k < |q| => SignalEv(q[k], feed))
  }

  /** Events of the pending checks, queued as order events of feed `feed`. */
  function AsOrders(q: seq<Event>, feed: nat): seq<Ev>
  {
    seq(|q|, k requires 0 <= k < |q| => OrderEv(q[k], feed))
  }

  /** What the checks of a bar work on: the stored orders, the next reference and event identity, and the pending list. */
  datatype Desk = Desk(orders: map<nat, Order>, nextRef: nat, nextEid: nat, pending: seq<Event>)

  /** The desk of the ledger `fill`. */
  function DeskOf(fill: BacktestFill): Desk
    reads fill, fill.book
  {
    Desk(fill.book.orders, fill.book.nextRef, fill.book.nextEid, fill.orderList)
  }

  /** Every resting trade and every pending order is stored. */
  ghost predicate Filed(d: Desk, trades: seq<Event>)
  {
    (forall e :: e in trades ==> e.oref in d.orders) && (forall e :: e in d.pending ==> e.oref in d.orders)
  }

  /** How the checks end: the events queued, the exception that stopped them, and the desk they leave. */
  datatype Checked<T> = Checked(queued: seq<T>, raised: Option<Exc>, desk: Desk)

  /**
   * `check_trade_list` and then `check_order_list` for the feed of `inst`
   * on bar `b`, on values: the kept trade scan and, unless it raised, the
   * corrected pending scan on the book the trade scan left.
   */
  function FeedChecked(d: Desk, trades: seq<Event>, inst: Inst, b: Bar, col: Column): (r: Checked<Event>)
    requires Filed(d, trades)
    ensures Filed(r.desk, trades) && d.orders.Keys <= r.desk.orders.Keys
    ensures r.raised.Some? ==> r.desk.pending == d.pending
  {
    var s := ScanTradesKept(Kept(d.orders, d.nextRef, d.nextEid, [], None), trades, inst, b, ColumnOf(b, col));
    if s.raised.Some? then Checked(s.queued, s.raised, d.(orders := s.orders, nextRef := s.nextRef, nextEid := s.nextEid))
    else
      var w := ScanPendingCorrected(inst, b, Scan(0, d.pending, s.orders, []));
      Checked(s.queued + w.queued, None, Desk(w.orders, s.nextRef, s.nextEid, w.pending))
  }

  /** Every event the checks of one feed queue wraps an order the desk they leave holds. */
  lemma FeedCheckedQueued(d: Desk, trades: seq<Event>, inst: Inst, b: Bar, col: Column)
    requires Filed(d, trades)
    ensures var r := FeedChecked(d, trades, inst, b, col);
      forall e :: e in r.queued ==> e.oref in r.desk.orders
  {
    var k := Kept(d.orders, d.nextRef, d.nextEid, [], None);
    ScanTradesKeptQueued(k, trades, inst, b, ColumnOf(b, col));
    var s := ScanTradesKept(k, trades, inst, b, ColumnOf(b, col));
    if s.raised.None? {
      var w0 := Scan(0, d.pending, s.orders, []);
      ScanPendingCorrectedQueued(inst, b, w0);
    }
  }

  /** What `__check_pending_order` reads of a feed: its current bar or the error reading it, its instrument and its trailing-stop column. */
  datatype Probe = Probe(bar: Result<Bar>, inst: Inst, col: Column)

  /**
   * The turn of feed number `n` in `__check_pending_order`: an unreadable
   * current bar raises; otherwise the feed's checks run, and what they
   * queue becomes order events of that feed.
   */
  function FeedPass(d: Desk, trades: seq<Event>, p: Probe, n: nat): (r: Checked<Ev>)
    requires Filed(d, trades)
    ensures Filed(r.desk, trades) && d.orders.Keys <= r.desk.orders.Keys
    ensures p.bar.Err? ==> r == Checked([], Some(p.bar.error), d)
  {
    match p.bar
    case Err(e) => Checked([], Some(e), d)
    case Ok(b) =>
      var c := FeedChecked(d, trades, p.inst, b, p.col);
      Checked(AsOrders(c.queued, n), c.raised, c.desk)
  }

  /**
   * `__check_pending_order` on values: the feeds' turns in list order, each
   * on the desk the one before left, until one raises; what the earlier
   * feeds queued stays queued.
   */
  function Pass(d: Desk, trades: seq<Event>, probes: seq<Probe>): (r: Checked<Ev>)
    requires Filed(d, trades)
    ensures Filed(r.desk, trades) && d.orders.Keys <= r.desk.orders.Keys
    ensures r.raised.None? ==> forall k :: 0 <= k < |probes| ==> probes[k].bar.Ok?
    decreases |probes|
  {
    if probes == [] then Checked([], None, d)
    else
      var n := |probes| - 1;
      var r := Pass(d, trades, probes[..n]);
      if r.raised.Some? then r
      else
        var c := FeedPass(r.desk, trades, probes[n], n);
        Checked(r.queued + c.queued, c.raised, c.desk)
  }

  /** Every event the pass queues is an order event of one of the feeds, wrapping an order the desk holds at the end. */
  lemma {:induction false} PassQueued(d: Desk, trades: seq<Event>, probes: seq<Probe>)
    requires Filed(d, trades)
    ensures var r := Pass(d, trades, probes);
      forall v :: v in r.queued ==>
        v.OrderEv? && v.feed < |probes| && probes[v.feed].bar.Ok? && v.e.oref in r.desk.orders
    decreases |probes|
  {
    if probes != [] {
      var n := |probes| - 1;
      PassQueued(d, trades, probes[..n]);
      var r := Pass(d, trades, probes[..n]);
      if r.raised.None? && probes[n].bar.Ok? {
        FeedCheckedQueued(r.desk, trades, probes[n].inst, probes[n].bar.value, probes[n].col);
      }
    }
  }

  /** Once a feed's turn raised, the later feeds change nothing. */
  lemma {:induction false} PassStops(d: Desk, trades: seq<Event>, probes: seq<Probe>, k: nat)
    requires Filed(d, trades)
    requires k <= |probes| && Pass(d, trades, probes[..k]).raised.Some?
    ensures Pass(d, trades, probes) == Pass(d, trades, probes[..k])
    decreases |probes| - k
  {
    if k < |probes| {
      assert probes[..k + 1][..k] == probes[..k];
      PassStops(d, trades, probes, k + 1);
    } else {
      assert probes[..k] == probes;
    }
  }

  /** What `__check_pending_order` reads of each feed, in list order. */
  function Probes(fs: seq<Feed>): (ps: seq<Probe>)
    reads set f | f in fs, set f | f in fs :: f.cur
    requires forall k :: 0 <= k < |fs| ==> fs[k].cur.Valid()
    ensures |ps| == |fs|
    ensures forall k :: 0 <= k < |fs| ==> ps[k] == Probe(fs[k].cur.CurData(), fs[k].instrument, fs[k].trailingCol)
  {
    if fs == [] then []
    else
      var n := |fs| - 1;
      Probes(fs[..n]) + [Probe(fs[n].cur.CurData(), fs[n].instrument, fs[n].trailingCol)]
  }

  /**
   * A pass over what the feeds show queues only events of feeds whose bar
   * has arrived, for orders on the desk it leaves, and finishes only when
   * every feed has a bar.
   */
  lemma PassLoaded(d: Desk, trades: seq<Event>, fs: seq<Feed>)
    requires Filed(d, trades) && forall k :: 0 <= k < |fs| ==> fs[k].cur.Valid()
    ensures var r := Pass(d, trades, Probes(fs));
      (forall v :: v in r.queued ==>
         v.OrderEv? && v.feed < |fs| && fs[v.feed].cur.slots[0].Filled? && v.e.oref in r.desk.orders)
      && (r.raised.None? ==> AllLoaded(fs))
  {
    PassQueued(d, trades, Probes(fs));
  }

  /** The calls each strategy class makes on market event `m`, in list order. */
  function Plans(ps: seq<Plan>, m: Market): (r: seq<seq<Call>>)
    ensures |r| == |ps| && forall k :: 0 <= k < |ps| ==> r[k] == ps[k](m)
  {
    seq(|ps|, k requires 0 <= k < |ps| => ps[k](m))
  }

  /** The instruments of the feeds, in list order. */
  function Instruments(fs: seq<Feed>): seq<Inst>
  {
    seq(|fs|, k requires 0 <= k < |fs| => fs[k].instrument)
  }

  /** Two entries of the list that are different feeds have different current bars and histories. */
  ghost predicate Apart(fs: seq<Feed>)
  {
    forall i, j :: 0 <= i < |fs| && 0 <= j < |fs| && fs[i] != fs[j] ==>
      fs[i].cur != fs[j].cur && fs[i].history != fs[j].history
  }

  /**
   * An event names one of `n` feeds, one whose current bar has arrived,
   * and the order it wraps is one of `refs`.
   */
  predicate Dispatchable(v: Ev, n: nat, arrived: set<nat>, refs: set<nat>)
  {
    v.feed < n && v.feed in arrived && (!v.MarketEv? ==> v.e.oref in refs)
  }

  /** Every event of the queue is dispatchable. */
  predicate AllDispatchable(q: seq<Ev>, n: nat, arrived: set<nat>, refs: set<nat>)
  {
    forall v :: v in q ==> Dispatchable(v, n, arrived, refs)
  }

  /** The feeds' histories, in list order. */
  ghost function Histories(fs: seq<Feed>): (hs: seq<map<Inst, seq<Bar>>>)
    reads set f | f in fs :: f.history
    ensures |hs| == |fs| && forall k :: 0 <= k < |fs| ==> hs[k] == fs[k].history.dict
  {
    if fs == [] then [] else Histories(fs[..|fs| - 1]) + [fs[|fs| - 1].history.dict]
  }

  /** The histories merged in order into one store, a later one winning on a shared instrument. */
  function Merged(hs: seq<map<Inst, seq<Bar>>>): (m: map<Inst, seq<Bar>>)
    ensures forall j :: 0 <= j < |hs| ==> hs[j].Keys <= m.Keys
    ensures hs != [] ==> forall inst :: inst in hs[|hs| - 1] ==> m[inst] == hs[|hs| - 1][inst]
  {
    if hs == [] then map[]
    else
      var n := |hs| - 1;
      assert forall j :: 0 <= j < n ==> hs[..n][j] == hs[j];
      Merged(hs[..n]) + hs[n]
  }

  /** The merged store holds exactly the instruments of the histories. */
  lemma {:induction false} MergedKeys(hs: seq<map<Inst, seq<Bar>>>, inst: Inst)
    ensures inst in Merged(hs) <==> exists j :: 0 <= j < |hs| && inst in hs[j]
  {
    if hs != [] {
      var n := |hs| - 1;
      MergedKeys(hs[..n], inst);
      if inst in hs[n] {
      } else if exists j :: 0 <= j < |hs| && inst in hs[j] {
        var j :| 0 <= j < |hs| && inst in hs[j];
        assert hs[..n][j] == hs[j];
      } else {
        assert forall j :: 0 <= j < n ==> hs[..n][j] == hs[j];
      }
    }
  }

  /** An instrument's merged history is that of the last history holding it. */
  lemma {:induction false} MergedLast(hs: seq<map<Inst, seq<Bar>>>, j: nat, inst: Inst)
    requires j < |hs| && inst in hs[j]
    requires forall k :: j < k < |hs| ==> inst !in hs[k]
    ensures inst in Merged(hs) && Merged(hs)[inst] == hs[j][inst]
  {
    var n := |hs| - 1;
    if j < n {
      assert hs[..n][j] == hs[j];
      MergedLast(hs[..n], j, inst);
    }
  }

  /** What a strategy takes from the market event of a feed whose current bar has arrived. */
  function MarketOf(f: Feed): Market
    requires f.cur.Valid() && f.cur.slots[0].Filled?
    reads f, f.cur
  {
    var b := f.cur.slots[0].bar;
    Strategies.Market(f.instrument, f.perComm, f.perMargin, f.units, f.executeMode, b.date, b.close)
  }

  /** A feed's part in the bar update. */
  function MarkOf(f: Feed): Mark
    requires f.cur.Valid() && f.cur.slots[0].Filled?
    reads f, f.cur
  {
    Mark(f.instrument, f.cur.slots[0].bar, f.perMargin, f.units)
  }

  /** `set_commission`'s `instrument` selects the feed: it is that feed's, or it is not given. */
  predicate Applies(instrument: Option<Inst>, inst: Inst)
  {
    instrument.None? || instrument.value == inst
  }

  /** `feed_list.count(feed) > 1` holds exactly when the feed is also at another position of the list. */
  lemma Repeated(s: seq<Feed>, i: nat)
    requires i < |s|
    ensures multiset(s)[s[i]] > 1 <==> exists j :: 0 <= j < |s| && j != i && s[j] == s[i]
  {
    var x := s[i];
    assert s == s[..i] + [x] + s[i + 1..];
    assert multiset(s)[x] == multiset(s[..i])[x] + 1 + multiset(s[i + 1..])[x];
    if exists j :: 0 <= j < |s| && j != i && s[j] == x {
      var j :| 0 <= j < |s| && j != i && s[j] == x;
      if j < i {
        assert s[..i][j] == x;
        assert x in multiset(s[..i]);
      } else {
        assert s[i + 1..][j - i - 1] == x;
        assert x in multiset(s[i + 1..]);
      }
    }
  }

  /**
   * The ledger `run_fill` leaves for the fill `e` on the bar `b`: the fill
   * recorded by `update_info`, then the instrument's realized records as
   * `__to_list` files it against the trades.
   */
  ghost function Ledgered(a0: Accounts, e: Event, b: Bar, cash: real, trades: seq<Event>, orders: map<nat, Order>,
                          completed: seq<(nat, nat)>, pending: seq<Event>): Accounts
    requires e.oref in orders && Fits(a0, orders[e.oref].instrument)
    requires forall x :: x in trades ==> x.oref in orders
  {
    var inst := orders[e.oref].instrument;
    var a := Info(a0, inst, orders[e.oref], b, cash);
    var r := Listed(e, PreviousPosition(a, inst), Walk(0, trades, orders, completed, a.realized.lists[inst]), pending);
    a.(realized := Put(a.realized, inst, r.w.realized))
  }

  /**
   * `run_fill` as the engine sees it: the ledger stays consistent, the book
   * keeps its references, and a fill that fits leaves the ledger at
   * `Ledgered` of the old state.
   */
  method FileOn(fill: BacktestFill, e: Event, b: Bar) returns (raised: Option<Exc>)
    requires fill.Valid() && e.oref in fill.book.orders
    modifies fill`instrument, fill`ledger, fill`tradeList, fill`orderList, fill`completed, fill.book`orders
    ensures fill.Valid() && fill.book.orders.Keys == old(fill.book.orders).Keys
    ensures raised.Some? <==> !Fits(old(fill.ledger), old(fill.book.orders[e.oref].instrument))
    ensures raised.Some? ==> raised == Some(KeyError) && fill.ledger == old(fill.ledger)
    ensures raised.None? ==>
      fill.ledger == Ledgered(old(fill.ledger), e, b, fill.initialCash, old(fill.tradeList), old(fill.book.orders),
                              old(fill.completed), old(fill.orderList))
  {
    raised := fill.RunFill(e, b);
  }

  /**
   * `strategy(event).run_strategy()` as the engine sees it: a new strategy
   * on the ledger and the market event. The ledger stays consistent, and
   * the queued signals, the exception, the book and the current instrument
   * are those of `TurnOf` from the book and instrument before.
   */
  method Consult(fill: BacktestFill, m: Market, calls: seq<Call>) returns (queued: seq<Event>, raised: Option<Exc>)
    requires fill.Valid()
    modifies fill`instrument, fill.book
    ensures fill.Valid() && old(fill.book.orders).Keys <= fill.book.orders.Keys
    ensures forall e :: e in queued ==> e.oref in fill.book.orders
    ensures raised.Some? ==> queued == []
    ensures var r := TurnOf(old(BookTape(fill.book)), fill.ledger.position, old(fill.instrument), m, calls);
      queued == r.queued && raised == r.raised && fill.instrument == r.inst && BookTape(fill.book) == r.tape.(signals := [])
  {
    var s := new Strategy(fill, m);
    queued, raised := s.RunStrategy(calls);
  }

  /**
   * `check_trade_list` and then `check_order_list` for one feed, as the
   * engine sees them: the ledger stays consistent, and the events queued,
   * the exception and the book and pending list left are `FeedChecked` of
   * the ones before. The trades' events come first; an exception out of
   * the trade check skips the pending orders.
   */
  method CheckFeed(fill: BacktestFill, inst: Inst, b: Bar, col: Column) returns (queued: seq<Event>, raised: Option<Exc>)
    requires fill.Valid()
    modifies fill`orderList, fill.book
    ensures fill.Valid() && old(fill.book.orders).Keys <= fill.book.orders.Keys
    ensures forall e :: e in queued ==> e.oref in fill.book.orders
    ensures var r := FeedChecked(old(DeskOf(fill)), fill.tradeList, inst, b, col);
      queued == r.queued && raised == r.raised && DeskOf(fill) == r.desk
  {
    ghost var k0 := Kept(fill.book.orders, fill.book.nextRef, fill.book.nextEid, [], None);
    ScanTradesKeptBooks(k0, fill.tradeList, inst, b, ColumnOf(b, col), fill.book.nextId);
    ScanTradesKeptQueued(k0, fill.tradeList, inst, b, ColumnOf(b, col));
    queued, raised := fill.CheckTradeList(inst, b, col);
    if raised.Some? {
      return;
    }
    ghost var w0 := Scan(0, fill.orderList, fill.book.orders, []);
    ScanPendingCorrectedBooks(inst, b, w0, fill.book.nextId);
    ScanPendingCorrectedQueued(inst, b, w0);
    var q2 := fill.CheckOrderList(inst, b);
    queued := queued + q2;
  }

  /**
   * The strategies of a market event in list order, `plans` holding the
   * calls of each, each a new strategy on the ledger, until one raises:
   * the signals they queue, the exception, the book and the current
   * instrument are those of `Turns`.
   */
  method ConsultAll(fill: BacktestFill, m: Market, plans: seq<seq<Call>>) returns (queued: seq<Event>, raised: Option<Exc>)
    requires fill.Valid()
    modifies fill`instrument, fill.book
    ensures fill.Valid() && old(fill.book.orders).Keys <= fill.book.orders.Keys
    ensures forall e :: e in queued ==> e.oref in fill.book.orders
    ensures var r := Turns(old(BookTape(fill.book)), fill.ledger.position, old(fill.instrument), m, plans);
      queued == r.queued && raised == r.raised && fill.instrument == r.inst && BookTape(fill.book) == r.tape.(signals := [])
  {
    ghost var b0, inst0 := BookTape(fill.book), fill.instrument;
    queued := [];
    for k := 0 to |plans|
      invariant fill.Valid()
      invariant var r := Turns(b0, fill.ledger.position, inst0, m, plans[..k]);
        r.raised.None? && queued == r.queued && fill.instrument == r.inst && BookTape(fill.book) == r.tape.(signals := [])
    {
      assert plans[..k + 1][..k] == plans[..k];
      var q, r := Consult(fill, m, plans[k]);
      queued := queued + q;
      if r.Some? {
        TurnsStop(b0, fill.ledger.position, inst0, m, plans, k + 1);
        TurnsQueued(b0, fill.ledger.position, inst0, m, plans);
        return queued, r;
      }
    }
    assert plans[..|plans|] == plans;
    TurnsQueued(b0, fill.ledger.position, inst0, m, plans);
    raised := None;
  }

  /**
   * The turn of feed number `n` in `__check_pending_order`, on what the
   * feed shows in `p`: an unreadable bar raises, otherwise `CheckFeed` runs
   * on it; the events, the exception, the book and the pending list are
   * those of `FeedPass`.
   */
  method CheckProbe(fill: BacktestFill, p: Probe, n: nat) returns (queued: seq<Ev>, raised: Option<Exc>)
    requires fill.Valid()
    modifies fill`orderList, fill.book
    ensures fill.Valid()
    ensures var c := old(FeedPass(DeskOf(fill), fill.tradeList, p, n));
      queued == c.queued && raised == c.raised && DeskOf(fill) == c.desk
  {
    match p.bar
    case Err(e) =>
      queued, raised := [], Some(e);
    case Ok(b) =>
      var q;
      q, raised := CheckFeed(fill, p.inst, b, p.col);
      queued := AsOrders(q, n);
  }

  /**
   * `__check_pending_order`'s loop over the feeds, on what they show in
   * `ps` (the checks change no feed, so reading every bar first is the
   * same): each feed's trades and pending orders are checked, until one
   * raises; the events queued, the exception, the book and the pending
   * list are those of `Pass`.
   */
  method CheckFeeds(fill: BacktestFill, ps: seq<Probe>) returns (queued: seq<Ev>, raised: Option<Exc>)
    requires fill.Valid()
    modifies fill`orderList, fill.book
    ensures fill.Valid()
    ensures var r := old(Pass(DeskOf(fill), fill.tradeList, ps));
      queued == r.queued && raised == r.raised && DeskOf(fill) == r.desk
  {
    ghost var d0 := DeskOf(fill);
    queued := [];
    for k := 0 to |ps|
      invariant fill.Valid()
      invariant var r := Pass(d0, fill.tradeList, ps[..k]);
        r.raised.None? && queued == r.queued && DeskOf(fill) == r.desk
    {
      assert ps[..k + 1][..k] == ps[..k];
      var q, r := CheckProbe(fill, ps[k], k);
      queued := queued + q;
      if r.Some? {
        PassStops(d0, fill.tradeList, ps, k + 1);
        return queued, r;
      }
    }
    assert ps[..|ps|] == ps;
    raised := None;
  }

  /** `load_once` on each feed in turn: each feed's rows are those its reader yields. */
  method LoadRows(fs: seq<Feed>, rows: map<Feed, seq<Bar>>)
    requires forall i :: 0 <= i < |fs| ==> fs[i] in rows
    modifies set f | f in fs
    ensures forall i :: 0 <= i < |fs| ==> fs[i].data == rows[fs[i]]
  {
    for i := 0 to |fs|
      invariant forall j :: 0 <= j < i ==> fs[j].data == rows[fs[j]]
    {
      fs[i].LoadOnce(rows[fs[i]]);
    }
  }

  /**
   * The ledger part of `__initialization`: a 0 placeholder for each
   * instrument in every per-instrument series, in list order, then cash
   * and equity the initial cash under `'all'`.
   */
  method Prepare(fill: BacktestFill, insts: seq<Inst>)
    requires fill.Valid()
    modifies fill`ledger
    ensures fill.Valid() && fill.ledger == Funded(InitEach(old(fill.ledger), insts), fill.initialCash)
  {
    ghost var a0 := fill.ledger;
    for i := 0 to |insts|
      invariant fill.Valid() && fill.ledger == InitEach(a0, insts[..i])
    {
      InitEachStep(a0, insts, i);
      fill.InitInstrument(insts[i]);
    }
    assert insts[..|insts|] == insts;
    fill.Fund();
  }

  /** A new empty `Bar` with the histories of `fs` merged into it in list order; no existing object changes. */
  method Combined(fs: seq<Feed>) returns (b: BarStore)
    ensures fresh(b) && b.dict == Merged(Histories(fs))
  {
    ghost var hs := Histories(fs);
    b := new BarStore("");
    b.Initialize();
    for i := 0 to |fs|
      invariant fresh(b) && b.dict == Merged(hs[..i])
      modifies b
    {
      b.Combine(fs[i].history.dict);
      assert hs[..i + 1][..i] == hs[..i];
    }
    assert hs[..|fs|] == hs;
  }

  /** Every feed of `fs` holds its current bar. */
  ghost predicate AllLoaded(fs: seq<Feed>)
    reads set f | f in fs :: f.cur
  {
    forall k :: 0 <= k < |fs| ==> fs[k].cur.Valid() && fs[k].cur.slots[0].Filled?
  }

  /**
   * The per-feed reads of `update_time_index`: the current bar, margin rate
   * and contract size of each feed in turn; a feed without a current bar
   * raises `TypeError`.
   */
  method CollectMarks(fs: seq<Feed>) returns (raised: Option<Exc>, marks: seq<Mark>)
    requires forall k :: 0 <= k < |fs| ==> fs[k].Valid()
    ensures raised.None? <==> AllLoaded(fs)
    ensures raised.Some? ==> raised == Some(TypeError)
    ensures raised.None? ==> |marks| == |fs| && forall k :: 0 <= k < |fs| ==> marks[k] == MarkOf(fs[k])
  {
    marks := [];
    for i := 0 to |fs|
      invariant |marks| == i && forall k :: 0 <= k < i ==>
        fs[k].cur.Valid() && fs[k].cur.slots[0].Filled? && marks[k] == MarkOf(fs[k])
    {
      match fs[i].cur.CurData()
      case Err(e) =>
        return Some(e), marks;
      case Ok(b) =>
        marks := marks + [Mark(fs[i].instrument, b, fs[i].perMargin, fs[i].units)];
    }
    raised := None;
  }

  /** The ledger's bar update over the marks (see `BacktestFill.UpdateTimeIndex`), keeping it consistent when it succeeds. */
  method TimeOn(fill: BacktestFill, marks: seq<Mark>) returns (ruined: bool, raised: Option<Exc>)
    requires Coupled(fill.ledger)
    modifies fill`ledger, fill`instrument
    ensures marks == [] ==> raised == Some(IndexError) && !ruined && fill.ledger == old(fill.ledger)
    ensures marks != [] && !MarksFit(old(fill.ledger), marks) ==> raised == Some(KeyError) && !ruined
    ensures marks != [] && MarksFit(old(fill.ledger), marks) ==>
      raised.None? && Coupled(fill.ledger) && Readable(fill.ledger)
      && ruined == Ledger.Ruined(LastOf(fill.ledger.balance, All), LastOf(fill.ledger.cash, All))
  {
    ghost var a0 := fill.ledger;
    ruined, raised := fill.UpdateTimeIndex(marks);
    if raised.None? {
      TimeIndexCoupled(a0, marks, fill.initialCash);
    }
  }

  /** A ruined account stops every feed. */
  method StopEach(fs: seq<Feed>)
    modifies (set f | f in fs)`continueBacktest
    ensures forall k :: 0 <= k < |fs| ==> !fs[k].continueBacktest
  {
    for i := 0 to |fs|
      invariant forall k :: 0 <= k < i ==> !fs[k].continueBacktest
    {
      fs[i].continueBacktest := false;
    }
  }

  /**
   * `update_time_index` with its ruin check: the ledger's bar update, after
   * which a ruined account stops every feed.
   */
  method BookBar(fill: BacktestFill, fs: seq<Feed>, marks: seq<Mark>) returns (raised: Option<Exc>)
    requires Coupled(fill.ledger)
    modifies fill`ledger, fill`instrument, (set f | f in fs)`continueBacktest
    ensures marks == [] ==> raised == Some(IndexError) && fill.ledger == old(fill.ledger)
    ensures marks != [] && !MarksFit(old(fill.ledger), marks) ==> raised == Some(KeyError)
    ensures marks != [] && MarksFit(old(fill.ledger), marks) ==>
      raised.None? && Coupled(fill.ledger) && Readable(fill.ledger)
      && (Ledger.Ruined(LastOf(fill.ledger.balance, All), LastOf(fill.ledger.cash, All)) ==>
            forall k :: 0 <= k < |fs| ==> !fs[k].continueBacktest)
      && (!Ledger.Ruined(LastOf(fill.ledger.balance, All), LastOf(fill.ledger.cash, All)) ==>
            forall k :: 0 <= k < |fs| ==> fs[k].continueBacktest == old(fs[k].continueBacktest))
  {
    var ruined;
    ruined, raised := TimeOn(fill, marks);
    if ruined {
      StopEach(fs);
    }
  }

  /** `feed_list.count(f)`: how often the feed object is in the list. */
  method CountIn(fs: seq<Feed>, f: Feed) returns (n: nat)
    ensures n == multiset(fs)[f]
  {
    n := 0;
    for j := 0 to |fs|
      invariant n == multiset(fs[..j])[f]
    {
      assert fs[..j + 1] == fs[..j] + [fs[j]];
      if fs[j] == f {
        n := n + 1;
      }
    }
    assert fs[..|fs|] == fs;
  }

  /** With more than one feed, a feed object listed twice raises `SyntaxError`. */
  method CheckRepeats(fs: seq<Feed>) returns (raised: Option<Exc>)
    ensures raised.None? || raised == Some(SyntaxError)
    ensures raised == Some(SyntaxError) <==> exists i, j :: 0 <= i < j < |fs| && fs[i] == fs[j]
  {
    if |fs| > 1 {
      for i := 0 to |fs|
        invariant forall k :: 0 <= k < i ==> multiset(fs)[fs[k]] <= 1
      {
        var c := CountIn(fs, fs[i]);
        if c > 1 {
          Repeated(fs, i);
          return Some(SyntaxError);
        }
      }
      forall i, j | 0 <= i < j < |fs|
        ensures fs[i] != fs[j]
      {
        Repeated(fs, i);
      }
    }
    raised := None;
  }

  /** Every feed of `fs` gets the execute mode. */
  method ExecuteEach(fs: seq<Feed>, mode: ExecMode)
    modifies (set f | f in fs)`executeMode
    ensures forall i :: 0 <= i < |fs| ==> fs[i].executeMode == mode
  {
    for i := 0 to |fs|
      invariant forall j :: 0 <= j < i ==> fs[j].executeMode == mode
    {
      fs[i].SetExecuteMode(mode);
    }
  }

  /** Every feed of `fs` gets the trailing-stop column. */
  method TrailEach(fs: seq<Feed>, col: Column)
    modifies (set f | f in fs)`trailingCol
    ensures forall i :: 0 <= i < |fs| ==> fs[i].trailingCol == col
  {
    for i := 0 to |fs|
      invariant forall j :: 0 <= j < i ==> fs[j].trailingCol == col
    {
      fs[i].SetTrailingMode(col);
    }
  }

  /** Every feed of `fs` gets the buffer days. */
  method BufferEach(fs: seq<Feed>, days: int)
    modifies (set f | f in fs)`bufferDays
    ensures forall i :: 0 <= i < |fs| ==> fs[i].bufferDays == days
  {
    for i := 0 to |fs|
      invariant forall j :: 0 <= j < i ==> fs[j].bufferDays == days
    {
      fs[i].SetBufferDays(days);
    }
  }

  /** The feeds of `fs` the instrument applies to get the four contract parameters; the others keep theirs. */
  method ContractEach(fs: seq<Feed>, commission: real, margin: real, units: real, lots: real, instrument: Option<Inst>)
    modifies set f | f in fs
    ensures forall i :: 0 <= i < |fs| && Applies(instrument, fs[i].instrument) ==>
      fs[i].perComm == commission && fs[i].perMargin == margin && fs[i].units == units && fs[i].lots == lots
    ensures forall i :: 0 <= i < |fs| && !Applies(instrument, fs[i].instrument) ==>
      fs[i].perComm == old(fs[i].perComm) && fs[i].perMargin == old(fs[i].perMargin)
      && fs[i].units == old(fs[i].units) && fs[i].lots == old(fs[i].lots)
  {
    for i := 0 to |fs|
      invariant forall j :: 0 <= j < i && Applies(instrument, fs[j].instrument) ==>
        fs[j].perComm == commission && fs[j].perMargin == margin && fs[j].units == units && fs[j].lots == lots
      invariant forall j :: 0 <= j < |fs| && !Applies(instrument, fs[j].instrument) ==>
        fs[j].perComm == old(fs[j].perComm) && fs[j].perMargin == old(fs[j].perMargin)
        && fs[j].units == old(fs[j].units) && fs[j].lots == old(fs[j].lots)
    {
      if Applies(instrument, fs[i].instrument) {
        fs[i].SetPerComm(commission);
        fs[i].SetPerMargin(margin);
        fs[i].SetUnits(units);
        fs[i].SetLots(lots);
      }
    }
  }

  /** The engine stays wired up across steps that leave its fields, the book, the broker's ledger, the current bars and the histories alone. */
  twostate lemma WiredKept(q: Quant)
    requires old(q.Wired())
    requires unchanged(q`feeds, q`fill, q`broker, q`queue)
    requires unchanged(old(q.fill.book), old(q.broker)`fill)
    requires unchanged(old(q.Curs()), old(q.Hists()))
    ensures q.Wired()
  {
  }

  /** The wiring survives a book that only gains orders. */
  twostate lemma WiredGrown(q: Quant)
    requires old(q.Wired())
    requires unchanged(q`feeds, q`fill, q`broker, q`queue)
    requires unchanged(old(q.broker)`fill, old(q.Curs()), old(q.Hists()))
    requires old(q.fill.book.orders).Keys <= q.fill.book.orders.Keys
    ensures q.Wired()
  {
    assert q.Arrived() == old(q.Arrived());
  }

  class Quant {
    var feeds: seq<Feed>
    /** The strategy classes; each market event makes a new strategy of each. */
    var strategies: seq<Plan>
    var fill: BacktestFill
    var broker: Broker
    /** `self.bar`: every feed's history merged into one store. */
    var bar: BarStore
    /** The event queue, front first. */
    var queue: seq<Ev>

    /** The feed objects of the list. */
    ghost function FeedSet(): set<Feed>
      reads this`feeds
    {
      set f | f in feeds
    }

    /** The current bars of the feeds. */
    ghost function Curs(): set<CurrentBar>
      reads this`feeds
    {
      set f | f in feeds :: f.cur
    }

    /** The histories of the feeds. */
    ghost function Hists(): set<BarStore>
      reads this`feeds
    {
      set f | f in feeds :: f.history
    }

    /** The positions of the feeds whose current bar has arrived. */
    ghost function Arrived(): set<nat>
      reads this`feeds, Curs()
    {
      set k | 0 <= k < |feeds| && feeds[k].cur.Valid() && feeds[k].cur.slots[0].Filled?
    }

    /** A queued event can be dispatched now. */
    ghost predicate Queued(v: Ev)
      reads this`feeds, this`fill, fill.book, Curs()
    {
      Dispatchable(v, |feeds|, Arrived(), fill.book.orders.Keys)
    }

    /** The ledger is consistent and the rest of the engine is wired up. */
    ghost predicate Valid()
      reads this`feeds, this`fill, this`broker, this`queue, fill, fill.book, broker`fill, Curs(), Hists()
    {
      fill.Valid() && Wired()
    }

    /**
     * The ledger is the broker's, every feed is consistent, distinct feeds
     * share no bar objects, and every queued event can be dispatched.
     */
    ghost predicate Wired()
      reads this`feeds, this`fill, this`broker, this`queue, fill.book, broker`fill, Curs(), Hists()
    {
      broker.fill == fill && Apart(feeds)
      && (forall i :: 0 <= i < |feeds| ==> feeds[i].Valid())
      && AllDispatchable(queue, |feeds|, Arrived(), fill.book.orders.Keys)
    }

    /** No feed continues the back-test. */
    ghost predicate Finished()
      reads this, FeedSet()
    {
      forall i :: 0 <= i < |feeds| ==> !feeds[i].continueBacktest
    }

    /** `Quant()`: no feed and no strategy yet, a ledger and a broker, an empty queue. */
    constructor ()
      ensures Valid() && feeds == [] && strategies == [] && queue == []
    {
      feeds := [];
      strategies := [];
      var f := new BacktestFill();
      fill := f;
      broker := new Broker(f);
      bar := new BarStore("");
      queue := [];
    }

    /** `__check_backtest_finished`: the number of feeds that continue is zero. */
    method CheckFinished() returns (done: bool)
      ensures done <==> Finished()
    {
      var sum := 0;
      for i := 0 to |feeds|
        invariant sum >= 0 && (sum == 0 <==> forall j :: 0 <= j < i ==> !feeds[j].continueBacktest)
      {
        if feeds[i].continueBacktest {
          sum := sum + 1;
        }
      }
      done := sum == 0;
    }

    /** Events go to the back of the queue. */
    method Push(vs: seq<Ev>)
      requires Valid() && AllDispatchable(vs, |feeds|, Arrived(), fill.book.orders.Keys)
      modifies this`queue
      ensures Valid() && queue == old(queue) + vs
    {
      queue := queue + vs;
    }

    /** `events.get`: the front event leaves the queue. */
    method Pop() returns (v: Ev)
      requires Valid() && queue != []
      modifies this`queue
      ensures Valid() && Queued(v) && [v] + queue == old(queue)
    {
      v := queue[0];
      ghost var arrived, refs := Arrived(), fill.book.orders.Keys;
      assert Dispatchable(v, |feeds|, arrived, refs);
      assert AllDispatchable(queue[1..], |feeds|, arrived, refs);
      queue := queue[1..];
      assert Arrived() == arrived;
    }

    /** `start`, `prenext` and `next` on feed `i`; no other feed changes. */
    method LoadFeed(i: nat) returns (raised: Option<Exc>)
      requires Valid() && i < |feeds|
      modifies this`queue, feeds[i], feeds[i].cur, feeds[i].history
      ensures Valid()
      ensures queue == old(queue) || queue == old(queue) + [MarketEv(i)]
    {
      var market;
      market, raised := feeds[i].Load();
      if market {
        Push([MarketEv(i)]);
      }
    }

    /**
     * `__load_all_feed`: `start`, `prenext` and `next` on every feed in list
     * order. The market events go to the back of the queue in feed order; a
     * feed whose `next` raises stops the loading.
     */
    method LoadAllFeeds() returns (raised: Option<Exc>)
      requires Valid() && queue == []
      modifies this`queue, FeedSet(), Curs(), Hists()
      ensures Valid()
      ensures forall k :: 0 <= k < |queue| ==> queue[k].MarketEv?
      ensures forall k :: 0 <= k < |queue| - 1 ==> queue[k].feed < queue[k + 1].feed
    {
      var i := 0;
      while i < |feeds|
        invariant i <= |feeds| && Valid()
        invariant forall k :: 0 <= k < |queue| ==> queue[k].MarketEv? && queue[k].feed < i
        invariant forall k :: 0 <= k < |queue| - 1 ==> queue[k].feed < queue[k + 1].feed
      {
        var r := LoadFeed(i);
        if r.Some? {
          return r;
        }
        i := i + 1;
      }
      raised := None;
    }

    /**
     * A market event (`__pass_to_market`, then `strategy(event).run_strategy()`
     * for each strategy in list order): the signals of each strategy go to
     * the back of the queue as signal events of the event's feed, and the
     * queue, the exception, the book and the current instrument are those
     * of `Turns` over the strategies' calls. An exception out of a strategy
     * ends the dispatch.
     */
    method DispatchMarket(i: nat) returns (raised: Option<Exc>)
      requires Valid() && Queued(MarketEv(i))
      modifies this`queue, broker, fill`instrument, fill.book
      ensures raised.None? ==> Valid()
      ensures |queue| >= |old(queue)| && queue[..|old(queue)|] == old(queue)
      ensures forall k :: |old(queue)| <= k < |queue| ==> queue[k].SignalEv? && queue[k].feed == i
      ensures var r := old(Turns(BookTape(fill.book), fill.ledger.position, fill.instrument, MarketOf(feeds[i]),
                                 Plans(strategies, MarketOf(feeds[i]))));
        queue == old(queue) + AsSignals(r.queued, i) && raised == r.raised
        && fill.instrument == r.inst && BookTape(fill.book) == r.tape.(signals := [])
    {
      var m := MarketOf(feeds[i]);
      ghost var arrived := Arrived();
      broker.fill := fill;
      var q;
      q, raised := ConsultAll(fill, m, Plans(strategies, m));
      assert unchanged(Curs());
      assert Arrived() == arrived;
      Push(AsSignals(q, i));
    }

    /** A signal event (`run_portfolio`): an order event wrapping the same order goes to the back of the queue. */
    method DispatchSignal(e: Event, i: nat) returns (raised: Option<Exc>)
      requires Valid() && Queued(SignalEv(e, i))
      modifies this`queue, fill.book`nextEid
      ensures Valid() && raised.None?
      ensures queue == old(queue) + [OrderEv(Event(old(fill.book.nextEid), e.oref), i)]
      ensures fill.book.nextEid == old(fill.book.nextEid) + 1
    {
      var o := fill.book.NewEvent(e.oref);
      Push([OrderEv(o, i)]);
      raised := None;
    }

    /**
     * An order event (`run_broker`): an order the broker accepts puts one
     * fill event of the same feed at the back of the queue; a rejected one
     * puts nothing.
     */
    method DispatchOrder(e: Event, i: nat) returns (raised: Option<Exc>)
      requires Valid() && Queued(OrderEv(e, i))
      modifies this`queue, broker`order, fill.book`orders, fill.book`nextEid
      ensures raised.None? ==> Valid()
      ensures old(broker.Verdict(e)).Err? ==> raised == Some(old(broker.Verdict(e)).error)
      ensures old(broker.Verdict(e)) == Ok(false) ==> raised.None? && queue == old(queue)
      ensures old(broker.Verdict(e)) == Ok(true) ==>
        raised.None? && queue == old(queue) + [FillEv(Event(old(fill.book.nextEid), e.oref), i)]
    {
      var q, r := broker.RunBroker(e);
      if r.Some? {
        return r;
      }
      Push(seq(|q|, k requires 0 <= k < |q| => FillEv(q[k], i)));
      raised := None;
    }

    /**
     * A fill event (`run_fill`) with the current bar of its feed. The
     * ledger raises `KeyError` for an instrument it was not initialized for,
     * and otherwise becomes `Ledgered` of the old state. The feeds' bars are
     * not touched, so every queued event stays dispatchable.
     */
    method DispatchFill(e: Event, i: nat) returns (raised: Option<Exc>)
      requires Valid() && Queued(FillEv(e, i))
      modifies fill`instrument, fill`ledger, fill`tradeList, fill`orderList, fill`completed, fill.book`orders
      ensures Valid() && fill.book.orders.Keys == old(fill.book.orders).Keys
      ensures raised.Some? <==> !Fits(old(fill.ledger), old(fill.book.orders[e.oref].instrument))
      ensures raised.Some? ==> raised == Some(KeyError) && fill.ledger == old(fill.ledger)
      ensures raised.None? ==>
        fill.ledger == Ledgered(old(fill.ledger), e, old(feeds[i].cur.slots[0].bar), fill.initialCash,
                                old(fill.tradeList), old(fill.book.orders), old(fill.completed), old(fill.orderList))
    {
      ghost var arrived, keys := Arrived(), fill.book.orders.Keys;
      assert AllDispatchable(queue, |feeds|, arrived, keys);
      raised := FileOn(fill, e, feeds[i].cur.slots[0].bar);
      assert unchanged(Curs()) && unchanged(this);
      assert Arrived() == arrived;
      assert fill.book.orders.Keys == keys;
    }

    /**
     * The loop on an empty queue: every feed loads, and the run is not
     * tested for its end there. While some feed continues, the source goes
     * on to `__update_time_index` and `__check_pending_order` only when the
     * last feed's current-bar list holds two entries, which it never does.
     */
    method Refill() returns (raised: Option<Exc>)
      requires Valid() && queue == []
      modifies this`queue, FeedSet(), Curs(), Hists()
      ensures raised.None? ==> Valid()
      ensures forall k :: 0 <= k < |queue| ==> queue[k].MarketEv?
    {
      raised := LoadAllFeeds();
      if raised.Some? {
        return;
      }
      var done := CheckFinished();
      if !done && feeds[|feeds| - 1].cur.Count() >= 2 {
        assert false;
      }
    }

    /**
     * The loop on a non-empty queue: the front event is taken off and
     * dispatched by its type.
     */
    method Dispatch() returns (raised: Option<Exc>)
      requires Valid() && queue != []
      modifies this`queue, broker, fill, fill.book
      ensures raised.None? ==> Valid()
      ensures raised.None? ==> |queue| >= |old(queue)| - 1 && queue[..|old(queue)| - 1] == old(queue)[1..]
    {
      var v := Pop();
      match v {
        case MarketEv(i) => raised := DispatchMarket(i);
        case SignalEv(e, i) => raised := DispatchSignal(e, i);
        case OrderEv(e, i) => raised := DispatchOrder(e, i);
        case FillEv(e, i) => raised := DispatchFill(e, i);
      }
    }

    /**
     * One pass of the loop (`run`'s `while True` body): on an empty queue
     * the feeds load; otherwise the front event is dispatched and only then
     * is the run tested for its end. An exception ends the run.
     */
    method Turn() returns (stop: Option<Outcome>)
      requires Valid()
      modifies this`queue, broker, fill, fill.book, FeedSet(), Curs(), Hists()
      ensures !(stop.Some? && stop.value.Raised?) ==> Valid()
      ensures stop != Some(OutOfFuel)
      ensures old(queue) == [] ==> stop != Some(Ended)
      ensures stop == Some(Ended) ==> Finished()
      ensures old(queue) != [] && stop.None? ==> !Finished()
    {
      var raised;
      if queue == [] {
        raised := Refill();
        stop := if raised.Some? then Some(Raised(raised.value)) else None;
        return;
      }
      raised := Dispatch();
      if raised.Some? {
        return Some(Raised(raised.value));
      }
      var done := CheckFinished();
      stop := if done then Some(Ended) else None;
    }

    /**
     * `__initialization`: every feed loads its reader's rows; every
     * per-instrument series of the ledger gets a 0 placeholder for each
     * feed's instrument, then cash and equity the initial cash; finally
     * `__combine_all_feed` merges the feeds' histories into `bar`.
     */
    method Initialization(rows: map<Feed, seq<Bar>>)
      requires Valid() && forall i :: 0 <= i < |feeds| ==> feeds[i] in rows
      modifies this`bar, fill`ledger, FeedSet()
      ensures Valid() && fresh(bar)
      ensures forall i :: 0 <= i < |feeds| ==> feeds[i].data == rows[feeds[i]]
      ensures fill.ledger == Funded(InitEach(old(fill.ledger), Instruments(feeds)), fill.initialCash)
      ensures bar.dict == Merged(old(Histories(feeds)))
    {
      ghost var hs := Histories(feeds);
      LoadRows(feeds, rows);
      WiredKept(this);
      assert Histories(feeds) == hs;
      Setup();
    }

    /** The ledger and the combined `bar` of `__initialization`, once the feeds have loaded. */
    method Setup()
      requires Valid()
      modifies this`bar, fill`ledger
      ensures Valid() && fresh(bar)
      ensures fill.ledger == Funded(InitEach(old(fill.ledger), Instruments(feeds)), fill.initialCash)
      ensures bar.dict == Merged(old(Histories(feeds)))
    {
      ghost var hs := Histories(feeds);
      var insts := Instruments(feeds);
      Prepare(fill, insts);
      assert Histories(feeds) == hs;
      CombineAllFeeds();
      WiredKept(this);
    }

    /** `__combine_all_feed`: a new empty `Bar`, and every feed's history merged into it in list order. */
    method CombineAllFeeds()
      modifies this`bar
      ensures fresh(bar) && bar.dict == Merged(old(Histories(feeds)))
    {
      bar := Combined(feeds);
    }

    /** `set_execute_mode`: every feed gets the mode. */
    method SetExecuteMode(mode: ExecMode)
      requires Valid()
      modifies FeedSet()
      ensures Valid() && forall i :: 0 <= i < |feeds| ==> feeds[i].executeMode == mode
    {
      ExecuteEach(feeds, mode);
      WiredKept(this);
    }

    /** `set_trailing_stop_price`: every feed gets the column its trailing stops are updated at. */
    method SetTrailingStopPrice(col: Column)
      requires Valid()
      modifies FeedSet()
      ensures Valid() && forall i :: 0 <= i < |feeds| ==> feeds[i].trailingCol == col
    {
      TrailEach(feeds, col);
      WiredKept(this);
    }

    /** `set_buffer`: every feed gets the buffer days. */
    method SetBuffer(days: int)
      requires Valid()
      modifies FeedSet()
      ensures Valid() && forall i :: 0 <= i < |feeds| ==> feeds[i].bufferDays == days
    {
      BufferEach(feeds, days);
      WiredKept(this);
    }

    /**
     * `set_backtest`: one feed or strategy becomes a list of one; the feeds
     * and strategies are appended, a new broker and a new ledger are made,
     * and every feed executes and trails at the open with 10 buffer days.
     */
    method SetBacktest(fs: OneOrMany<Feed>, ss: OneOrMany<Plan>)
      requires Valid() && queue == []
      requires Apart(feeds + AsList(fs)) && forall f :: f in AsList(fs) ==> f.Valid()
      modifies this, FeedSet(), set f | f in AsList(fs) :: f
      ensures Valid() && fresh(fill) && fresh(broker) && queue == []
      ensures feeds == old(feeds) + AsList(fs) && strategies == old(strategies) + AsList(ss)
      ensures fill.ledger == Accounts(Empty, Empty, Empty, Empty, Empty, Empty, Empty, Empty)
      ensures fill.initialCash == 100000.0 && fill.book.orders == map[]
      ensures forall i :: 0 <= i < |feeds| ==>
        feeds[i].executeMode == OpenMode && feeds[i].trailingCol == OpenCol && feeds[i].bufferDays == 10
    {
      Attach(fs, ss);
      label Wired:
      ExecuteEach(feeds, OpenMode);
      TrailEach(feeds, OpenCol);
      BufferEach(feeds, 10);
      WiredKept@Wired(this);
    }

    /** The list part of `set_backtest`: the feeds and strategies appended, a new broker on a new ledger. */
    method Attach(fs: OneOrMany<Feed>, ss: OneOrMany<Plan>)
      requires Valid() && queue == []
      requires Apart(feeds + AsList(fs)) && forall f :: f in AsList(fs) ==> f.Valid()
      modifies this
      ensures Valid() && fresh(fill) && fresh(broker) && queue == []
      ensures feeds == old(feeds) + AsList(fs) && strategies == old(strategies) + AsList(ss)
      ensures fill.ledger == Accounts(Empty, Empty, Empty, Empty, Empty, Empty, Empty, Empty)
      ensures fill.initialCash == 100000.0 && fill.book.orders == map[]
    {
      feeds := feeds + AsList(fs);
      strategies := strategies + AsList(ss);
      var f := new BacktestFill();
      broker := new Broker(f);
      fill := f;
    }

    /**
     * `set_commission`: the feeds of the instrument, or all feeds when none
     * is named, get the commission rate, the margin rate, the contract
     * size and the lots; the others keep theirs.
     */
    method SetCommission(commission: real, margin: real, units: real, lots: real, instrument: Option<Inst>)
      requires Valid()
      modifies FeedSet()
      ensures Valid()
      ensures forall i :: 0 <= i < |feeds| && Applies(instrument, feeds[i].instrument) ==>
        feeds[i].perComm == commission && feeds[i].perMargin == margin && feeds[i].units == units && feeds[i].lots == lots
      ensures forall i :: 0 <= i < |feeds| && !Applies(instrument, feeds[i].instrument) ==>
        feeds[i].perComm == old(feeds[i].perComm) && feeds[i].perMargin == old(feeds[i].perMargin)
        && feeds[i].units == old(feeds[i].units) && feeds[i].lots == old(feeds[i].lots)
    {
      ContractEach(feeds, commission, margin, units, lots, instrument);
      WiredKept(this);
    }

    /** `set_cash`: the ledger's initial cash. */
    method SetCash(cash: real)
      requires Valid()
      modifies fill`initialCash
      ensures Valid() && fill.initialCash == cash
    {
      fill.SetCash(cash);
    }

    /** Every feed's current bar has arrived. */
    ghost predicate Loaded()
      reads this`feeds, Curs()
    {
      AllLoaded(feeds)
    }

    /**
     * `__update_time_index`: the ledger's bar update over the feeds (see
     * `BacktestFill.UpdateTimeIndex`); a ruined account stops every feed;
     * then, with more than one feed, a feed object listed twice raises
     * `SyntaxError`.
     */
    method UpdateTimeIndex() returns (raised: Option<Exc>, marks: seq<Mark>)
      requires Valid()
      modifies fill`ledger, fill`instrument, FeedSet()
      ensures !old(Loaded()) ==> raised == Some(TypeError) && fill.ledger == old(fill.ledger)
      ensures old(Loaded()) ==> |marks| == |feeds| && forall k :: 0 <= k < |feeds| ==> marks[k] == old(MarkOf(feeds[k]))
      ensures old(Loaded()) && feeds == [] ==> raised == Some(IndexError)
      ensures old(Loaded()) && feeds != [] && !MarksFit(old(fill.ledger), marks) ==> raised == Some(KeyError)
      ensures old(Loaded()) && feeds != [] && MarksFit(old(fill.ledger), marks) ==>
        Valid() && Readable(fill.ledger)
        && (Ledger.Ruined(LastOf(fill.ledger.balance, All), LastOf(fill.ledger.cash, All)) ==> Finished())
        && (!Ledger.Ruined(LastOf(fill.ledger.balance, All), LastOf(fill.ledger.cash, All)) ==>
              forall k :: 0 <= k < |feeds| ==> feeds[k].continueBacktest == old(feeds[k].continueBacktest))
        && (raised == Some(SyntaxError) <==> exists i, j :: 0 <= i < j < |feeds| && feeds[i] == feeds[j])
        && (raised.None? || raised == Some(SyntaxError))
    {
      raised, marks := CollectMarks(feeds);
      if raised.Some? {
        return;
      }
      raised := BookBar(fill, feeds, marks);
      if raised.Some? {
        return;
      }
      WiredKept(this);
      raised := CheckRepeats(feeds);
    }

    /**
     * `__check_pending_order`: for each feed in turn, the resting trades and
     * then the pending orders are checked against its current bar; every
     * event the checks put goes to the back of the queue as an order event
     * of that feed. The queue, the exception, the book and the pending list
     * are those of `Pass` over what the feeds show.
     */
    method CheckPendingOrder() returns (raised: Option<Exc>)
      requires Valid()
      modifies this`queue, fill`orderList, fill.book
      ensures raised.None? ==> Valid()
      ensures |queue| >= |old(queue)| && queue[..|old(queue)|] == old(queue)
      ensures forall k :: |old(queue)| <= k < |queue| ==> queue[k].OrderEv?
      ensures !Loaded() ==> raised.Some?
      ensures var r := old(Pass(DeskOf(fill), fill.tradeList, Probes(feeds)));
        queue == old(queue) + r.queued && raised == r.raised && DeskOf(fill) == r.desk
    {
      PassLoaded(DeskOf(fill), fill.tradeList, feeds);
      var q;
      q, raised := CheckFeeds(fill, Probes(feeds));
      WiredGrown(this);
      Push(q);
    }

    /**
     * `run`: `__initialization`, then pass after pass of the loop until the
     * run finishes or raises; `fuel` bounds the number of passes.
     */
    method Run(rows: map<Feed, seq<Bar>>, fuel: nat) returns (outcome: Outcome)
      requires Valid() && forall i :: 0 <= i < |feeds| ==> feeds[i] in rows
      modifies this, fill, fill.book, broker, FeedSet(), Curs(), Hists()
      ensures outcome == Ended ==> Finished()
      ensures !outcome.Raised? ==> Valid()
    {
      Initialization(rows);
      outcome := Passes(fuel);
    }

    /** The loop of `run`: at most `fuel` passes, each a `Turn`, until one finishes the run or raises. */
    method Passes(fuel: nat) returns (outcome: Outcome)
      requires Valid()
      modifies this`queue, broker, fill, fill.book, FeedSet(), Curs(), Hists()
      ensures outcome == Ended ==> Finished()
      ensures !outcome.Raised? ==> Valid()
    {
      var n := 0;
      while n < fuel
        invariant Valid() && feeds == old(feeds) && fill == old(fill) && broker == old(broker)
      {
        var stop := Turn();
        if stop.Some? {
          return stop.value;
        }
        n := n + 1;
      }
      outcome := OutOfFuel;
    }
  }
}
