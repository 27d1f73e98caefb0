/**
 * The account ledger as a value: the eight series of `BacktestFill` taken
 * together, and what one fill (`update_info`) and one bar update
 * (`update_time_index`) make of them.
 */
module Accounts {
  import opened Wrappers
  import opened PySeq
  import opened DataSeries
  import opened Orders
  import opened Ledger
  import opened Bars

  /** The key the account-wide series (cash and balance) keep their one list under. */
  const All: Inst := "all"

  /** A record written by the one-value `add`. */
  function Point(d: Date, v: real): (r: Rec)
    ensures r.date == d && r.value == v && r.high == v && r.low == v
  {
    Rec(d, v, v, v)
  }

  function Last(s: seq<Rec>): Rec
    requires |s| > 0
  {
    s[|s| - 1]
  }

  /** A list whose last record is `r` instead: what an append followed by `del_last` leaves. */
  function Replaced(s: seq<Rec>, r: Rec): (t: seq<Rec>)
    requires |s| > 0
    ensures |t| == |s| && t[..|s| - 1] == s[..|s| - 1] && Last(t) == r
  {
    s[..|s| - 1] + [r]
  }

  /** Appending a record and then popping the second-to-last one replaces the last record. */
  lemma AddThenDelLast(s: seq<Rec>, r: Rec)
    requires |s| > 0
    ensures DroppedPenultimate(s + [r]) == Replaced(s, r)
  {
    assert (s + [r])[..|s| - 1] == s[..|s| - 1];
  }

  /** Each key has a list, each list a record. */
  predicate StoreOk(st: Store)
  {
    (forall k :: k in st.keys ==> k in st.lists) && (forall k :: k in st.lists ==> |st.lists[k]| > 0)
  }

  /** A store whose every listed instrument has a list and every list a record. */
  type SeriesStore = st: Store | StoreOk(st) witness Store([], map[])

  /** `total()`, `total_high()` or `total_low()` at the last records, which always exist. */
  function TotalLast(st: SeriesStore, f: Field): real
  {
    LastIndexable(st.lists, st.keys);
    TotalOf(st.lists, st.keys, -1, f).value
  }

  /** One instrument's list replaced, the instrument order kept. */
  function Put(st: SeriesStore, inst: Inst, s: seq<Rec>): (r: SeriesStore)
    requires inst in st.lists && |s| > 0
  {
    Store(st.keys, st.lists[inst := s])
  }

  /** A store with no instrument yet. */
  const Empty: SeriesStore := Store([], map[])

  /** The eight series of the ledger. */
  datatype Accounts = Accounts(position: SeriesStore, margin: SeriesStore, avgPrice: SeriesStore,
                               commission: SeriesStore, cash: SeriesStore, realized: SeriesStore,
                               unrealized: SeriesStore, balance: SeriesStore)

  /** Every instrument of the position series known to the other per-instrument series. */
  predicate Coupled(a: Accounts)
  {
    forall k :: k in a.position.lists ==>
      k in a.margin.lists && k in a.avgPrice.lists && k in a.commission.lists
      && k in a.realized.lists && k in a.unrealized.lists
  }

  /** `inst` known to the per-instrument series, the account-wide series keyed by `All`. */
  predicate Fits(a: Accounts, inst: Inst)
  {
    inst in a.position.lists && inst in a.margin.lists && inst in a.avgPrice.lists && inst in a.commission.lists
    && inst in a.realized.lists && inst in a.unrealized.lists && All in a.cash.lists && All in a.balance.lists
  }

  /** The account-wide balance and cash each hold a record, so their last values can be read. */
  predicate Readable(a: Accounts)
  {
    All in a.balance.lists && |a.balance.lists[All]| > 0 && All in a.cash.lists && |a.cash.lists[All]| > 0
  }

  /** The last value of one instrument's list in a store. */
  function LastOf(st: Store, inst: Inst): real
    requires inst in st.lists && |st.lists[inst]| > 0
  {
    Last(st.lists[inst]).value
  }

  /** The position a fill moves to, from the last recorded one. */
  function NewPosition(a: Accounts, inst: Inst, fo: Order): real
    requires Fits(a, inst)
  {
    NextPosition(fo.execType, LastOf(a.position, inst), fo.units, fo.direction)
  }

  /** The average price a fill records. */
  function NewAvg(a: Accounts, inst: Inst, fo: Order): (avg: real)
    requires Fits(a, inst)
    ensures avg >= 0.0
    ensures NewPosition(a, inst, fo) == 0.0 ==> avg == 0.0
    ensures NewPosition(a, inst, fo) != 0.0 && Resting(fo.execType) ==> avg == Abs(LastOf(a.avgPrice, inst))
    ensures NewPosition(a, inst, fo) != 0.0 && !Resting(fo.execType) && LastOf(a.position, inst) == 0.0 ==> avg == Abs(fo.price)
  {
    NextAvg(fo.execType, fo.orderType, LastOf(a.position, inst), NewPosition(a, inst, fo),
            LastOf(a.avgPrice, inst), fo.units, fo.price)
  }

  /** The unrealized record a fill writes, marking the new position at the bar's close, high and low. */
  function MarkRec(d: Date, bar: Bar, avg: real, pos: real, mult: real): (r: Rec)
    ensures r.date == d && r.value == Unrealized(bar.close, avg, pos, mult)
    ensures r.high == Unrealized(bar.high, avg, pos, mult) && r.low == Unrealized(bar.low, avg, pos, mult)
  {
    Rec(d, Unrealized(bar.close, avg, pos, mult), Unrealized(bar.high, avg, pos, mult), Unrealized(bar.low, avg, pos, mult))
  }

  /**
   * The balance record: initial cash plus the current instrument's realized
   * total and every instrument's unrealized mark (close, high, low), less
   * every instrument's commission.
   */
  function BalanceRec(d: Date, initialCash: real, realized: real, unrealized: SeriesStore, commission: SeriesStore): (r: Rec)
  {
    var tc := TotalLast(commission, Value);
    Rec(d, Balance(initialCash, realized, TotalLast(unrealized, Value), tc),
        Balance(initialCash, realized, TotalLast(unrealized, High), tc),
        Balance(initialCash, realized, TotalLast(unrealized, Low), tc))
  }

  /**
   * `update_info` for a fill of `fo` on instrument `inst`: every series of
   * the instrument, and the account-wide balance and cash, get a new last
   * record in place of the old one (each series appends and then pops its
   * second-to-last record); the realized series is not touched.
   */
  function Info(a: Accounts, inst: Inst, fo: Order, bar: Bar, initialCash: real): (r: Accounts)
    requires Fits(a, inst)
    ensures Fits(r, inst) && r.realized == a.realized && (Coupled(a) ==> Coupled(r))
  {
    var d := fo.date;
    var pos1 := NewPosition(a, inst, fo);
    var avg1 := NewAvg(a, inst, fo);
    var margin := Put(a.margin, inst, Replaced(a.margin.lists[inst],
      Point(d, NextMargin(fo.execType, LastOf(a.margin, inst), fo.perMargin, pos1, fo.mult, fo.price))));
    var commission := Put(a.commission, inst, Replaced(a.commission.lists[inst],
      Point(d, NextCommission(fo.execType, LastOf(a.commission, inst), fo.perComm, fo.mult, fo.units, fo.price))));
    var unrealized := Put(a.unrealized, inst, Replaced(a.unrealized.lists[inst], MarkRec(d, bar, avg1, pos1, fo.mult)));
    var b1 := BalanceRec(d, initialCash, Sum(Values(a.realized.lists[inst])), unrealized, commission);
    Accounts(
      Put(a.position, inst, Replaced(a.position.lists[inst], Point(d, pos1))),
      margin,
      Put(a.avgPrice, inst, Replaced(a.avgPrice.lists[inst], Point(d, avg1))),
      commission,
      Put(a.cash, All, Replaced(a.cash.lists[All], Point(d, Cash(b1.value, TotalLast(margin, Value))))),
      a.realized,
      unrealized,
      Put(a.balance, All, Replaced(a.balance.lists[All], b1)))
  }

  /** No list changes length and no other instrument's list changes: a fill only rewrites last records. */
  lemma InfoRewritesLastOnly(a: Accounts, inst: Inst, fo: Order, bar: Bar, initialCash: real, other: Inst)
    requires Fits(a, inst) && other != inst
    ensures var r := Info(a, inst, fo, bar, initialCash);
      |r.position.lists[inst]| == |a.position.lists[inst]|
      && |r.margin.lists[inst]| == |a.margin.lists[inst]|
      && |r.avgPrice.lists[inst]| == |a.avgPrice.lists[inst]|
      && |r.commission.lists[inst]| == |a.commission.lists[inst]|
      && |r.unrealized.lists[inst]| == |a.unrealized.lists[inst]|
      && |r.cash.lists[All]| == |a.cash.lists[All]| && |r.balance.lists[All]| == |a.balance.lists[All]|
      && r.position.lists[inst][..|a.position.lists[inst]| - 1] == a.position.lists[inst][..|a.position.lists[inst]| - 1]
      && (other in a.position.lists ==> r.position.lists[other] == a.position.lists[other])
      && (other in a.margin.lists ==> r.margin.lists[other] == a.margin.lists[other])
      && (other in a.unrealized.lists ==> r.unrealized.lists[other] == a.unrealized.lists[other])
  {
  }

  /**
   * After a fill, cash plus the margin held over all instruments is the
   * balance, and the balance less the initial cash is the realized total
   * plus the unrealized total less the commission total.
   */
  lemma InfoBalances(a: Accounts, inst: Inst, fo: Order, bar: Bar, initialCash: real)
    requires Fits(a, inst)
    ensures var r := Info(a, inst, fo, bar, initialCash);
      LastOf(r.cash, All) + TotalLast(r.margin, Value) == LastOf(r.balance, All)
      && LastOf(r.balance, All) - initialCash
         == Sum(Values(r.realized.lists[inst])) + TotalLast(r.unrealized, Value) - TotalLast(r.commission, Value)
  {
  }

  /** A LIMIT or STOP fill keeps the position, margin, commission and average price values. */
  lemma InfoRestingKeeps(a: Accounts, inst: Inst, fo: Order, bar: Bar, initialCash: real)
    requires Fits(a, inst) && Resting(fo.execType)
    ensures var r := Info(a, inst, fo, bar, initialCash);
      LastOf(r.position, inst) == LastOf(a.position, inst)
      && LastOf(r.margin, inst) == LastOf(a.margin, inst)
      && LastOf(r.commission, inst) == LastOf(a.commission, inst)
      && (LastOf(r.position, inst) != 0.0 ==> LastOf(r.avgPrice, inst) == Abs(LastOf(a.avgPrice, inst)))
  {
  }

  /**
   * Any other fill moves the position by units × direction, sets the margin
   * from the new position at the fill price, and adds the fill's fee to the
   * commission.
   */
  lemma InfoTradeMoves(a: Accounts, inst: Inst, fo: Order, bar: Bar, initialCash: real)
    requires Fits(a, inst) && !Resting(fo.execType)
    ensures var r := Info(a, inst, fo, bar, initialCash);
      LastOf(r.position, inst) - LastOf(a.position, inst) == fo.units * fo.direction
      && LastOf(r.margin, inst) == MarginOf(fo.perMargin, LastOf(r.position, inst), fo.mult, fo.price)
      && LastOf(r.commission, inst) - LastOf(a.commission, inst) == FeeOf(fo.units, fo.price, fo.perComm, fo.mult)
      && LastOf(r.unrealized, inst) == Unrealized(bar.close, LastOf(r.avgPrice, inst), LastOf(r.position, inst), fo.mult)
  {
    var r := Info(a, inst, fo, bar, initialCash);
    var pos1 := NewPosition(a, inst, fo);
    assert LastOf(r.position, inst) == pos1;
    assert LastOf(r.avgPrice, inst) == NewAvg(a, inst, fo);
    assert LastOf(r.margin, inst) == NextMargin(fo.execType, LastOf(a.margin, inst), fo.perMargin, pos1, fo.mult, fo.price);
    assert LastOf(r.commission, inst)
      == NextCommission(fo.execType, LastOf(a.commission, inst), fo.perComm, fo.mult, fo.units, fo.price);
    assert Last(r.unrealized.lists[inst]) == MarkRec(fo.date, bar, NewAvg(a, inst, fo), pos1, fo.mult);
  }

  /** A store holding just one instrument's list. */
  predicate Single(st: Store, inst: Inst)
  {
    st.keys == [inst] && st.lists.Keys == {inst} && |st.lists[inst]| > 0
  }

  lemma SingleTotal(st: Store, inst: Inst, f: Field)
    requires Single(st, inst)
    ensures StoreOk(st) && TotalLast(st, f) == FieldOf(Last(st.lists[inst]), f)
  {
    assert StoreOk(st);
    LastIndexable(st.lists, st.keys);
    var x := FieldOf(Last(st.lists[inst]), f);
    var c := DataSeries.Column(st.lists, st.keys, -1, f);
    assert |c| == 1 && c[0] == FieldOf(At(st.lists[inst], -1).value, f);
    assert c == [x];
    assert Sum(c) == Sum(c[..0]) + x;
    assert c[..0] == [];
  }

  /**
   * With a single instrument the balance after a fill is initial cash plus
   * that instrument's realized total and mark, less its commission.
   */
  lemma {:induction false} InfoSingleInstrument(a: Accounts, inst: Inst, fo: Order, bar: Bar, initialCash: real)
    requires Fits(a, inst) && Single(a.unrealized, inst) && Single(a.commission, inst) && Single(a.margin, inst)
    ensures var r := Info(a, inst, fo, bar, initialCash);
      LastOf(r.balance, All) == initialCash + Sum(Values(a.realized.lists[inst]))
        + LastOf(r.unrealized, inst) - LastOf(r.commission, inst)
      && LastOf(r.cash, All) == LastOf(r.balance, All) - LastOf(r.margin, inst)
  {
    var r := Info(a, inst, fo, bar, initialCash);
    assert Single(r.unrealized, inst) && Single(r.commission, inst) && Single(r.margin, inst);
    SingleTotal(r.unrealized, inst, Value);
    SingleTotal(r.commission, inst, Value);
    SingleTotal(r.margin, inst, Value);
  }

  /**
   * From the ledger initialization every list holds one record, and a fill
   * keeps it at one: the previous position `position[-2]` never exists
   * when the trade list is updated.
   */
  lemma InfoKeepsOneRecord(a: Accounts, inst: Inst, fo: Order, bar: Bar, initialCash: real)
    requires Fits(a, inst) && |a.position.lists[inst]| == 1
    ensures |Info(a, inst, fo, bar, initialCash).position.lists[inst]| == 1
    ensures At(Info(a, inst, fo, bar, initialCash).position.lists[inst], -2).None?
  {
  }

  /** `position[-2]` as the trade-list update reads it: 0 where the index raises `IndexError`. */
  function PreviousPosition(a: Accounts, inst: Inst): (p: real)
    requires inst in a.position.lists
    ensures |a.position.lists[inst]| < 2 ==> p == 0.0
    ensures |a.position.lists[inst]| >= 2 ==> p == a.position.lists[inst][|a.position.lists[inst]| - 2].value
  {
    match At(a.position.lists[inst], -2)
    case None => 0.0
    case Some(r) => r.value
  }

  /** A new list for an instrument the realized series already holds keeps the series coupled. */
  lemma PutRealizedCoupled(a: Accounts, inst: Inst, s: seq<Rec>)
    requires Coupled(a) && inst in a.realized.lists && |s| > 0
    ensures Coupled(a.(realized := Put(a.realized, inst, s)))
  {
  }

  /** Writing an instrument's own list back leaves the store as it was. */
  lemma PutSame(st: SeriesStore, inst: Inst)
    requires inst in st.lists
    ensures Put(st, inst, st.lists[inst]) == st
  {
    assert st.lists[inst := st.lists[inst]] == st.lists;
  }

  /** `initialize(inst, v)`: `inst`'s list becomes one `'start'` record holding `v`; a new instrument goes last. */
  function Placeholder(st: SeriesStore, inst: Inst, v: real): (r: SeriesStore)
    ensures forall k :: k in r.lists <==> k in st.lists || k == inst
    ensures inst in r.lists && r.lists[inst] == [Rec(Start, v, v, v)]
    ensures forall k :: k in st.lists && k != inst ==> r.lists[k] == st.lists[k]
    ensures forall k :: k in st.keys ==> k in r.keys
    ensures inst in r.keys
  {
    Store(if inst in st.keys then st.keys else st.keys + [inst], st.lists[inst := [Rec(Start, v, v, v)]])
  }

  /** `initialize(inst, v)` for each instrument in turn. */
  function InitAll(st: SeriesStore, insts: seq<Inst>, v: real): (r: SeriesStore)
    ensures forall k :: k in st.keys ==> k in r.keys
    ensures forall k :: k in insts ==> k in r.keys && k in r.lists
    decreases |insts|
  {
    if insts == [] then st else Placeholder(InitAll(st, insts[..|insts| - 1], v), insts[|insts| - 1], v)
  }

  /**
   * After the initialization every listed instrument holds exactly its
   * placeholder and every other instrument keeps its list.
   */
  lemma {:induction false} InitAllPlaceholders(st: SeriesStore, insts: seq<Inst>, v: real)
    ensures var r := InitAll(st, insts, v);
      r.lists.Keys == st.lists.Keys + (set k | k in insts)
      && (forall k :: k in insts ==> r.lists[k] == [Rec(Start, v, v, v)])
      && (forall k :: k in st.lists && k !in insts ==> r.lists[k] == st.lists[k])
    decreases |insts|
  {
    if insts != [] {
      var n := |insts| - 1;
      InitAllPlaceholders(st, insts[..n], v);
      assert forall k :: k in insts <==> k in insts[..n] || k == insts[n];
    }
  }

  /** The six per-instrument series each get `inst`'s 0 placeholder. */
  function InitInst(a: Accounts, inst: Inst): (r: Accounts)
    ensures Coupled(a) ==> Coupled(r)
    ensures r.cash == a.cash && r.balance == a.balance
  {
    a.(position := Placeholder(a.position, inst, 0.0), margin := Placeholder(a.margin, inst, 0.0),
       avgPrice := Placeholder(a.avgPrice, inst, 0.0), commission := Placeholder(a.commission, inst, 0.0),
       realized := Placeholder(a.realized, inst, 0.0), unrealized := Placeholder(a.unrealized, inst, 0.0))
  }

  /** `InitInst` for each instrument in turn. */
  function InitEach(a: Accounts, insts: seq<Inst>): (r: Accounts)
    ensures Coupled(a) ==> Coupled(r)
    ensures r.cash == a.cash && r.balance == a.balance
    decreases |insts|
  {
    if insts == [] then a else InitInst(InitEach(a, insts[..|insts| - 1]), insts[|insts| - 1])
  }

  /** Initialising one more instrument of the list extends the previous ledger by that instrument. */
  lemma InitEachStep(a: Accounts, insts: seq<Inst>, i: nat)
    requires i < |insts|
    ensures InitEach(a, insts[..i + 1]) == InitInst(InitEach(a, insts[..i]), insts[i])
  {
    assert insts[..i + 1][..i] == insts[..i];
  }

  /** Cash and balance each get the initial cash as their `All` placeholder. */
  function Funded(a: Accounts, initialCash: real): (r: Accounts)
    ensures Coupled(a) ==> Coupled(r)
    ensures All in r.cash.lists && All in r.balance.lists
  {
    a.(cash := Placeholder(a.cash, All, initialCash), balance := Placeholder(a.balance, All, initialCash))
  }

  /** One instrument's list with a record appended, the instrument order kept. */
  function Push(st: SeriesStore, inst: Inst, r: Rec): (t: SeriesStore)
    requires inst in st.lists
  {
    Put(st, inst, st.lists[inst] + [r])
  }

  /** `update_position`: the position the fill moves to is appended. */
  function AddPosition(a: Accounts, inst: Inst, fo: Order): (r: Accounts)
    requires Fits(a, inst)
    ensures Fits(r, inst)
    ensures |r.position.lists[inst]| == |a.position.lists[inst]| + 1
  {
    a.(position := Push(a.position, inst,
         Point(fo.date, NextPosition(fo.execType, LastOf(a.position, inst), fo.units, fo.direction))))
  }

  /** `update_margin`: the margin of the last position at the fill price is appended. */
  function AddMargin(a: Accounts, inst: Inst, fo: Order): (r: Accounts)
    requires Fits(a, inst)
    ensures Fits(r, inst) && r.position == a.position
  {
    a.(margin := Push(a.margin, inst, Point(fo.date,
         NextMargin(fo.execType, LastOf(a.margin, inst), fo.perMargin, LastOf(a.position, inst), fo.mult, fo.price))))
  }

  /** `update_commission`: the running commission plus this fill's fee is appended. */
  function AddCommission(a: Accounts, inst: Inst, fo: Order): (r: Accounts)
    requires Fits(a, inst)
    ensures Fits(r, inst) && r.position == a.position
  {
    a.(commission := Push(a.commission, inst, Point(fo.date,
         NextCommission(fo.execType, LastOf(a.commission, inst), fo.perComm, fo.mult, fo.units, fo.price))))
  }

  /** `update_avg_price`: the average price from the previous and the last position is appended. */
  function AddAvgPrice(a: Accounts, inst: Inst, fo: Order): (r: Accounts)
    requires Fits(a, inst) && |a.position.lists[inst]| >= 2
    ensures Fits(r, inst)
  {
    var s := a.position.lists[inst];
    a.(avgPrice := Push(a.avgPrice, inst, Point(fo.date,
         NextAvg(fo.execType, fo.orderType, s[|s| - 2].value, s[|s| - 1].value, LastOf(a.avgPrice, inst),
                 fo.units, fo.price))))
  }

  /** `update_unrealized_gain_and_loss`: the mark of the last position at the bar's close, high and low is appended. */
  function AddUnrealized(a: Accounts, inst: Inst, fo: Order, bar: Bar): (r: Accounts)
    requires Fits(a, inst)
    ensures Fits(r, inst)
  {
    a.(unrealized := Push(a.unrealized, inst,
         MarkRec(fo.date, bar, LastOf(a.avgPrice, inst), LastOf(a.position, inst), fo.mult)))
  }

  /** `update_balance`: the balance with its high and low companions is appended under `All`. */
  function AddBalance(a: Accounts, inst: Inst, fo: Order, initialCash: real): (r: Accounts)
    requires Fits(a, inst)
    ensures Fits(r, inst)
  {
    a.(balance := Push(a.balance, All,
         BalanceRec(fo.date, initialCash, Sum(Values(a.realized.lists[inst])), a.unrealized, a.commission)))
  }

  /** `update_cash`: the last balance less the margin held over all instruments is appended under `All`. */
  function AddCash(a: Accounts, inst: Inst, fo: Order): (r: Accounts)
    requires Fits(a, inst)
    ensures Fits(r, inst)
  {
    a.(cash := Push(a.cash, All, Point(fo.date, Cash(LastOf(a.balance, All), TotalLast(a.margin, Value)))))
  }

  /**
   * The ledger after the seven appends of `update_info` and before its
   * seven `del_last` calls: each series has grown by the record the fill
   * writes, each computed from the series written before it.
   */
  function Appended(a: Accounts, inst: Inst, fo: Order, bar: Bar, initialCash: real): (r: Accounts)
    requires Fits(a, inst)
    ensures Fits(r, inst)
  {
    AddCash(AddBalance(AddUnrealized(AddAvgPrice(AddCommission(AddMargin(AddPosition(a, inst, fo), inst, fo), inst, fo),
      inst, fo), inst, fo, bar), inst, fo, initialCash), inst, fo)
  }

  /** One instrument's list with its second-to-last record popped. */
  function Pop(st: SeriesStore, inst: Inst): (t: SeriesStore)
    requires inst in st.lists && |st.lists[inst]| >= 2
  {
    Put(st, inst, DroppedPenultimate(st.lists[inst]))
  }

  /** Every series but realized has at least two records for `inst` (cash and balance under `'all'`). */
  predicate Poppable(a: Accounts, inst: Inst)
    requires Fits(a, inst)
  {
    |a.position.lists[inst]| >= 2 && |a.margin.lists[inst]| >= 2 && |a.avgPrice.lists[inst]| >= 2
    && |a.commission.lists[inst]| >= 2 && |a.unrealized.lists[inst]| >= 2
    && |a.cash.lists[All]| >= 2 && |a.balance.lists[All]| >= 2
  }

  /** The seven `del_last` calls of `update_info`. */
  function Dropped(a: Accounts, inst: Inst): (r: Accounts)
    requires Fits(a, inst) && Poppable(a, inst)
    ensures Fits(r, inst)
  {
    Accounts(Pop(a.position, inst), Pop(a.margin, inst), Pop(a.avgPrice, inst), Pop(a.commission, inst),
             Pop(a.cash, All), a.realized, Pop(a.unrealized, inst), Pop(a.balance, All))
  }

  /** Appending and then popping the second-to-last record rewrites the last record. */
  lemma PushThenPop(st: SeriesStore, inst: Inst, r: Rec)
    requires inst in st.lists
    ensures Pop(Push(st, inst, r), inst) == Put(st, inst, Replaced(st.lists[inst], r))
  {
    AddThenDelLast(st.lists[inst], r);
  }

  /** A total over last records sees the appended record exactly as it sees the rewritten one. */
  lemma PushedTotal(st: SeriesStore, inst: Inst, r: Rec, f: Field)
    requires inst in st.lists
    ensures TotalLast(Push(st, inst, r), f) == TotalLast(Put(st, inst, Replaced(st.lists[inst], r)), f)
  {
    var p := Push(st, inst, r);
    PushThenPop(st, inst, r);
    TotalIgnoresPenultimate(p.lists, p.keys, inst, f);
  }

  /**
   * The seven appends followed by the seven pops are `Info`: each series'
   * last record is replaced, and the balance and cash computed from the
   * grown series equal those computed from the rewritten ones, because
   * every total reads last records only.
   */
  lemma AppendThenDropIsInfo(a: Accounts, inst: Inst, fo: Order, bar: Bar, initialCash: real)
    requires Fits(a, inst)
    ensures Poppable(Appended(a, inst, fo, bar, initialCash), inst)
    ensures Dropped(Appended(a, inst, fo, bar, initialCash), inst) == Info(a, inst, fo, bar, initialCash)
  {
    var d := fo.date;
    var pos1 := NewPosition(a, inst, fo);
    var avg1 := NewAvg(a, inst, fo);
    var rm := Point(d, NextMargin(fo.execType, LastOf(a.margin, inst), fo.perMargin, pos1, fo.mult, fo.price));
    var rc := Point(d, NextCommission(fo.execType, LastOf(a.commission, inst), fo.perComm, fo.mult, fo.units, fo.price));
    var ru := MarkRec(d, bar, avg1, pos1, fo.mult);
    PushedTotal(a.margin, inst, rm, Value);
    PushedTotal(a.commission, inst, rc, Value);
    PushedTotal(a.unrealized, inst, ru, Value);
    PushedTotal(a.unrealized, inst, ru, High);
    PushedTotal(a.unrealized, inst, ru, Low);
    var x := Appended(a, inst, fo, bar, initialCash);
    var y := Info(a, inst, fo, bar, initialCash);
    assert x.balance.lists[All] == a.balance.lists[All] + [Last(y.balance.lists[All])];
    assert x.cash.lists[All] == a.cash.lists[All] + [Last(y.cash.lists[All])];
    PushThenPop(a.position, inst, Point(d, pos1));
    PushThenPop(a.margin, inst, rm);
    PushThenPop(a.avgPrice, inst, Point(d, avg1));
    PushThenPop(a.commission, inst, rc);
    PushThenPop(a.unrealized, inst, ru);
    PushThenPop(a.balance, All, Last(y.balance.lists[All]));
    PushThenPop(a.cash, All, Last(y.cash.lists[All]));
  }

  /** One feed's part in a bar update: its instrument, its current bar, its margin rate and its multiplier. */
  datatype Mark = Mark(inst: Inst, bar: Bar, perMargin: real, mult: real)

  /** Every marked instrument is known to the ledger. */
  predicate MarksFit(a: Accounts, marks: seq<Mark>)
  {
    forall k :: 0 <= k < |marks| ==> Fits(a, marks[k].inst)
  }

  /** Every series of `b` lists the instruments `a`'s does. */
  predicate SameKeys(a: Accounts, b: Accounts)
  {
    b.position.lists.Keys == a.position.lists.Keys && b.margin.lists.Keys == a.margin.lists.Keys
    && b.avgPrice.lists.Keys == a.avgPrice.lists.Keys && b.commission.lists.Keys == a.commission.lists.Keys
    && b.cash.lists.Keys == a.cash.lists.Keys && b.realized.lists.Keys == a.realized.lists.Keys
    && b.unrealized.lists.Keys == a.unrealized.lists.Keys && b.balance.lists.Keys == a.balance.lists.Keys
  }

  /** A ledger whose series keep their instruments stays coupled. */
  lemma SameKeysCoupled(a: Accounts, b: Accounts)
    requires Coupled(a) && SameKeys(a, b)
    ensures Coupled(b)
  {
    forall k | k in b.position.lists
      ensures k in b.margin.lists && k in b.avgPrice.lists && k in b.commission.lists
      ensures k in b.realized.lists && k in b.unrealized.lists
    {
      assert k in a.position.lists;
    }
  }

  /**
   * The body of `update_time_index`'s loop for one feed: position, average
   * price and commission re-append their last record under the bar's date
   * (`copy_last`), margin appends the copied position's margin at the
   * close, and unrealized appends the mark at the close, high and low.
   */
  function MarkFeed(a: Accounts, m: Mark, d: Date): (r: Accounts)
    requires Fits(a, m.inst)
    ensures SameKeys(a, r)
    ensures r.cash == a.cash && r.balance == a.balance && r.realized == a.realized
  {
    var pos := CopiedLast(a.position.lists[m.inst], d);
    var avg := CopiedLast(a.avgPrice.lists[m.inst], d);
    var p := Last(pos).value;
    Accounts(
      Put(a.position, m.inst, pos),
      Push(a.margin, m.inst, Point(d, MarginOf(m.perMargin, p, m.mult, m.bar.close))),
      Put(a.avgPrice, m.inst, avg),
      Put(a.commission, m.inst, CopiedLast(a.commission.lists[m.inst], d)),
      a.cash,
      a.realized,
      Push(a.unrealized, m.inst, MarkRec(d, m.bar, Last(avg).value, p, m.mult)),
      a.balance)
  }

  /** Marking a feed keeps every instrument known to the ledger. */
  lemma MarkFeedFits(a: Accounts, m: Mark, d: Date, marks: seq<Mark>)
    requires Fits(a, m.inst) && MarksFit(a, marks)
    ensures MarksFit(MarkFeed(a, m, d), marks)
  {
    var r := MarkFeed(a, m, d);
    forall k | 0 <= k < |marks|
      ensures Fits(r, marks[k].inst)
    {
      assert Fits(a, marks[k].inst);
    }
  }

  /** The loop of `update_time_index` over the feeds, in feed order. */
  function MarkAll(a: Accounts, marks: seq<Mark>, d: Date): (r: Accounts)
    requires MarksFit(a, marks)
    ensures SameKeys(a, r)
    ensures r.cash == a.cash && r.balance == a.balance && r.realized == a.realized
    decreases |marks|
  {
    if marks == [] then a
    else
      var b := MarkFeed(a, marks[0], d);
      MarkFeedFits(a, marks[0], d, marks[1..]);
      MarkAll(b, marks[1..], d)
  }

  /** One more known feed extends a known prefix of the feeds. */
  lemma MarksFitGrow(a: Accounts, marks: seq<Mark>, j: nat)
    requires j < |marks| && MarksFit(a, marks[..j]) && Fits(a, marks[j].inst)
    ensures marks[..j + 1] == marks[..j] + [marks[j]] && MarksFit(a, marks[..j + 1])
  {
    var p := marks[..j + 1];
    assert p == marks[..j] + [marks[j]];
    forall k | 0 <= k < |p|
      ensures Fits(a, p[k].inst)
    {
      if k < j {
        assert p[k] == marks[..j][k];
      }
    }
  }

  /** The feed loop over a prefix and one more feed is that loop followed by marking the feed. */
  lemma {:induction false} MarkAllSnoc(a: Accounts, marks: seq<Mark>, m: Mark, d: Date)
    requires MarksFit(a, marks + [m])
    ensures MarksFit(a, marks) && Fits(MarkAll(a, marks, d), m.inst)
    ensures MarkAll(a, marks + [m], d) == MarkFeed(MarkAll(a, marks, d), m, d)
    decreases |marks|
  {
    assert Fits(a, (marks + [m])[|marks|].inst);
    assert MarksFit(a, marks) by {
      forall k | 0 <= k < |marks|
        ensures Fits(a, marks[k].inst)
      {
        assert (marks + [m])[k] == marks[k];
      }
    }
    if marks != [] {
      var b := MarkFeed(a, marks[0], d);
      assert (marks + [m])[0] == marks[0] && (marks + [m])[1..] == marks[1..] + [m];
      MarkFeedFits(a, marks[0], d, marks[1..] + [m]);
      MarkAllSnoc(b, marks[1..], m, d);
    }
  }

  /**
   * `update_time_index`: every feed is marked at its current bar under the
   * date of the last feed's bar; then, with the series addressing the last
   * feed's instrument, the balance is initial cash plus that instrument's
   * realized total and every instrument's mark, less that instrument's
   * commission, and cash is the balance less the margin of every
   * instrument.
   */
  function TimeIndex(a: Accounts, marks: seq<Mark>, initialCash: real): (r: Accounts)
    requires |marks| > 0 && MarksFit(a, marks)
    ensures SameKeys(a, r)
  {
    var last := marks[|marks| - 1];
    assert Fits(a, last.inst);
    BalanceBooked(MarkAll(a, marks, last.bar.date), last.inst, last.bar.date, initialCash)
  }
  /** The bar update keeps the per-instrument series coupled and leaves a balance and a cash to read. */
  lemma TimeIndexCoupled(a: Accounts, marks: seq<Mark>, initialCash: real)
    requires |marks| > 0 && MarksFit(a, marks) && Coupled(a)
    ensures Coupled(TimeIndex(a, marks, initialCash)) && Readable(TimeIndex(a, marks, initialCash))
  {
    SameKeysCoupled(a, TimeIndex(a, marks, initialCash));
    TimeIndexBalances(a, marks, initialCash);
  }

  /**
   * The tail of `update_time_index`: the balance, from `inst`'s realized
   * total and commission and every instrument's mark, and then the cash,
   * the balance less every instrument's margin, are appended under `'all'`.
   */
  function BalanceBooked(b: Accounts, inst: Inst, d: Date, initialCash: real): (r: Accounts)
    requires Fits(b, inst)
    ensures SameKeys(b, r)
  {
    var realized := Sum(Values(b.realized.lists[inst]));
    var commission := LastOf(b.commission, inst);
    var bal := Rec(d, Balance(initialCash, realized, TotalLast(b.unrealized, Value), commission),
                   Balance(initialCash, realized, TotalLast(b.unrealized, High), commission),
                   Balance(initialCash, realized, TotalLast(b.unrealized, Low), commission));
    b.(balance := Push(b.balance, All, bal),
       cash := Push(b.cash, All, Point(d, Cash(bal.value, TotalLast(b.margin, Value)))))
  }

  /**
   * After a bar update cash plus the margin held over all instruments is the
   * balance, and the balance less the initial cash is the last instrument's
   * realized total plus every instrument's mark less that instrument's
   * commission; both account-wide series grow by one record.
   */
  lemma TimeIndexBalances(a: Accounts, marks: seq<Mark>, initialCash: real)
    requires |marks| > 0 && MarksFit(a, marks)
    ensures var r := TimeIndex(a, marks, initialCash);
      var inst := marks[|marks| - 1].inst;
      Fits(r, inst)
      && LastOf(r.cash, All) + TotalLast(r.margin, Value) == LastOf(r.balance, All)
      && LastOf(r.balance, All) - initialCash
         == Sum(Values(r.realized.lists[inst])) + TotalLast(r.unrealized, Value) - LastOf(r.commission, inst)
      && |r.cash.lists[All]| == |a.cash.lists[All]| + 1 && |r.balance.lists[All]| == |a.balance.lists[All]| + 1
  {
    assert Fits(a, marks[|marks| - 1].inst);
  }

  /**
   * `r` holds `inst`'s lists as marking it at `m` under `d` leaves them:
   * position, average price and commission copied forward, the margin of
   * the (unchanged) position at the close and the mark at the close, high
   * and low appended.
   */
  predicate Marked(a: Accounts, r: Accounts, inst: Inst, m: Mark, d: Date)
    requires Fits(a, inst) && Fits(r, inst)
  {
    r.position.lists[inst] == CopiedLast(a.position.lists[inst], d)
    && r.avgPrice.lists[inst] == CopiedLast(a.avgPrice.lists[inst], d)
    && r.commission.lists[inst] == CopiedLast(a.commission.lists[inst], d)
    && r.margin.lists[inst] == a.margin.lists[inst]
         + [Point(d, MarginOf(m.perMargin, LastOf(a.position, inst), m.mult, m.bar.close))]
    && r.unrealized.lists[inst] == a.unrealized.lists[inst]
         + [MarkRec(d, m.bar, LastOf(a.avgPrice, inst), LastOf(a.position, inst), m.mult)]
  }

  /** `r` holds `inst`'s per-instrument lists as `a` does. */
  predicate Untouched(a: Accounts, r: Accounts, inst: Inst)
    requires Fits(a, inst) && Fits(r, inst)
  {
    r.position.lists[inst] == a.position.lists[inst] && r.avgPrice.lists[inst] == a.avgPrice.lists[inst]
    && r.commission.lists[inst] == a.commission.lists[inst] && r.margin.lists[inst] == a.margin.lists[inst]
    && r.unrealized.lists[inst] == a.unrealized.lists[inst]
  }

  /** Marking one feed changes its own instrument's lists only. */
  lemma MarkFeedEffect(a: Accounts, m: Mark, d: Date, inst: Inst)
    requires Fits(a, m.inst) && Fits(a, inst)
    ensures Fits(MarkFeed(a, m, d), inst)
    ensures m.inst == inst ==> Marked(a, MarkFeed(a, m, d), inst, m, d)
    ensures m.inst != inst ==> Untouched(a, MarkFeed(a, m, d), inst)
  {
  }

  lemma UntouchedTrans(a: Accounts, b: Accounts, r: Accounts, inst: Inst)
    requires Fits(a, inst) && Fits(b, inst) && Fits(r, inst)
    requires Untouched(a, b, inst) && Untouched(b, r, inst)
    ensures Untouched(a, r, inst)
  {
  }

  lemma UntouchedThenMarked(a: Accounts, b: Accounts, r: Accounts, inst: Inst, m: Mark, d: Date)
    requires Fits(a, inst) && Fits(b, inst) && Fits(r, inst)
    requires Untouched(a, b, inst) && Marked(b, r, inst, m, d)
    ensures Marked(a, r, inst, m, d)
  {
  }

  lemma MarkedThenUntouched(a: Accounts, b: Accounts, r: Accounts, inst: Inst, m: Mark, d: Date)
    requires Fits(a, inst) && Fits(b, inst) && Fits(r, inst)
    requires Marked(a, b, inst, m, d) && Untouched(b, r, inst)
    ensures Marked(a, r, inst, m, d)
  {
  }

  /** An instrument no feed trades keeps its lists through the feed loop. */
  lemma {:induction false} MarkAllUntouched(a: Accounts, marks: seq<Mark>, d: Date, inst: Inst)
    requires MarksFit(a, marks) && Fits(a, inst)
    requires forall k :: 0 <= k < |marks| ==> marks[k].inst != inst
    ensures Fits(MarkAll(a, marks, d), inst) && Untouched(a, MarkAll(a, marks, d), inst)
    decreases |marks|
  {
    if marks != [] {
      var b := MarkFeed(a, marks[0], d);
      MarkFeedEffect(a, marks[0], d, inst);
      MarkAllUntouched(b, marks[1..], d, inst);
      UntouchedTrans(a, b, MarkAll(a, marks, d), inst);
    }
  }

  /** No two feeds trade the same instrument. */
  predicate Distinct(marks: seq<Mark>)
  {
    forall i, j :: 0 <= i < j < |marks| ==> marks[i].inst != marks[j].inst
  }

  /**
   * The feed loop, for feeds of distinct instruments: each marked
   * instrument's lists are copied forward or grown as marking it at its
   * own feed prescribes, whatever the other feeds do.
   */
  lemma {:induction false} MarkAllEffect(a: Accounts, marks: seq<Mark>, d: Date, k: nat)
    requires MarksFit(a, marks) && Distinct(marks) && k < |marks|
    ensures Fits(MarkAll(a, marks, d), marks[k].inst)
    ensures Marked(a, MarkAll(a, marks, d), marks[k].inst, marks[k], d)
    decreases |marks|
  {
    var inst := marks[k].inst;
    var b := MarkFeed(a, marks[0], d);
    var r := MarkAll(a, marks, d);
    assert Fits(a, inst);
    MarkFeedEffect(a, marks[0], d, inst);
    if k == 0 {
      assert forall j :: 0 <= j < |marks[1..]| ==> marks[1..][j].inst != inst by {
        forall j | 0 <= j < |marks[1..]|
          ensures marks[1..][j].inst != inst
        {
          assert marks[1..][j] == marks[j + 1];
        }
      }
      MarkAllUntouched(b, marks[1..], d, inst);
      MarkedThenUntouched(a, b, r, inst, marks[0], d);
    } else {
      assert Distinct(marks[1..]) by {
        forall i, j | 0 <= i < j < |marks[1..]|
          ensures marks[1..][i].inst != marks[1..][j].inst
        {
          assert marks[1..][i] == marks[i + 1] && marks[1..][j] == marks[j + 1];
        }
      }
      assert marks[1..][k - 1] == marks[k];
      MarkAllEffect(b, marks[1..], d, k - 1);
      UntouchedThenMarked(a, b, r, inst, marks[k], d);
    }
  }

  /** A bar update moves no position: every marked instrument's last position keeps its value. */
  lemma TimeIndexKeepsPositions(a: Accounts, marks: seq<Mark>, initialCash: real, inst: Inst)
    requires |marks| > 0 && MarksFit(a, marks) && Fits(a, inst) && Distinct(marks)
    ensures var r := TimeIndex(a, marks, initialCash);
      Fits(r, inst)
      && LastOf(r.position, inst) == LastOf(a.position, inst) && LastOf(r.avgPrice, inst) == LastOf(a.avgPrice, inst)
      && LastOf(r.commission, inst) == LastOf(a.commission, inst)
  {
    var d := marks[|marks| - 1].bar.date;
    if k :| 0 <= k < |marks| && marks[k].inst == inst {
      MarkAllEffect(a, marks, d, k);
    } else {
      MarkAllUntouched(a, marks, d, inst);
    }
  }

  /** A feed the ledger was not initialized for spoils the whole list. */
  lemma MarksStopped(a: Accounts, marks: seq<Mark>, n: nat)
    requires n < |marks| && !Fits(a, marks[n].inst)
    ensures !MarksFit(a, marks)
  {
  }

  /** The prefix of every feed is the whole list. */
  lemma MarksWhole(a: Accounts, marks: seq<Mark>, d: Date)
    requires MarksFit(a, marks[..|marks|])
    ensures MarksFit(a, marks) && MarkAll(a, marks[..|marks|], d) == MarkAll(a, marks, d)
  {
    assert marks[..|marks|] == marks;
  }
}
