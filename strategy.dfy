/**
 * A strategy's turn on one market event: the buy and sell helpers gated by
 * the sign of the current position, `exit_all`, the user's `next` (given as
 * the calls it makes), the exceptions `__process` swallows, the CLOSE_ALL
 * precedence of `__prestop` and the queueing of the signals that are for the
 * strategy's own instrument.
 */
module Strategies {
  import opened Wrappers
  import opened PySeq
  import opened DataSeries
  import opened Orders
  import opened Ledger
  import opened Fill
  import opened SeriesReads

  /** What a strategy takes from its market event; `mult` is the feed's contract size. */
  datatype Market = Market(instrument: Inst, perComm: real, perMargin: real, mult: real,
                           mode: ExecMode, date: Date, close: real)

  /** The arguments of `buy`, `sell` and their even-and-open variants. */
  datatype Args = Args(lots: real, instrument: Option<Inst>, price: PriceSpec,
                       tp: Option<Offset>, sl: Option<Offset>, ts: Option<Offset>)

  /** One call the user's `next` makes, or an exception it raises itself. */
  datatype Call =
    | BuyCall(a: Args)
    | SellCall(a: Args)
    | BuyEvenCall(a: Args)
    | SellEvenCall(a: Args)
    | ExitAllCall(inst: Option<Inst>, price: PriceSpec)
    | RaiseCall(e: Exc)

  /** What a strategy changes: the order objects and the counters of the book, and `_signal_list`. */
  datatype Tape = Tape(orders: map<nat, Order>, nextId: nat, nextRef: nat, nextEid: nat, signals: seq<Event>)

  /** A tape and the exception that stopped the calls, if one did. */
  datatype Step = Step(tape: Tape, raised: Option<Exc>)

  /** What the helpers read: the market event and `position[-1]` and `position[-2]`. */
  datatype View = View(market: Market, last: Result<real>, prev: Result<real>)

  /** `r` is `s` with `k` more signals appended, each wrapping a stored order of side `t` for `units`. */
  ghost predicate Appended(s: Tape, r: Tape, k: nat, t: OrderType, units: real)
  {
    |r.signals| == |s.signals| + k && r.signals[..|s.signals|] == s.signals
    && forall j :: |s.signals| <= j < |r.signals| ==>
         r.signals[j].oref in r.orders && r.orders[r.signals[j].oref].orderType == t
         && r.orders[r.signals[j].oref].units == units
  }

  /** Every step only appends signals, and drops no stored order. */
  ghost predicate Extends(s: Tape, r: Tape)
  {
    |s.signals| <= |r.signals| && r.signals[..|s.signals|] == s.signals && s.orders.Keys <= r.orders.Keys
  }

  /** The order a fresh `BuyOrder`, `SellOrder` or `ExitAllOrder` is, with the next id. */
  function Fresh(s: Tape, t: OrderType, e: ExecType, m: Market): Order
  {
    Blank(s.nextId, t, e, m.instrument, m.perComm, m.perMargin, m.mult)
  }

  /** Stores the order `o` and appends a signal event wrapping it. */
  function Signal(s: Tape, o: Order): (r: Tape)
    ensures Appended(s, r, 1, o.orderType, o.units)
    ensures r.nextId == s.nextId && r.nextRef == s.nextRef + 1 && r.nextEid == s.nextEid + 1
  {
    Tape(s.orders[s.nextRef := o], s.nextId, s.nextRef + 1, s.nextEid + 1, s.signals + [Event(s.nextEid, s.nextRef)])
  }

  /**
   * `buy_base` / `sell_base`: a fresh order of side `t` takes the next id and
   * is executed with the arguments; `position[-1]` is then read, and the
   * signal is appended.
   */
  function PlaceStep(s: Tape, t: OrderType, a: Args, v: View): (r: Step)
    ensures r.tape.nextId == s.nextId + 1
    ensures r.raised.None? <==>
      Execute(Fresh(s, t, Unset, v.market), a.instrument, a.lots, a.price, a.tp, a.sl, a.ts,
              v.market.mode, v.market.date, v.market.close).Ok? && v.last.Ok?
    ensures r.raised.None? ==> Appended(s, r.tape, 1, t, a.lots)
    ensures r.raised.Some? ==> r.tape == s.(nextId := s.nextId + 1)
  {
    var s1 := s.(nextId := s.nextId + 1);
    match Execute(Fresh(s, t, Unset, v.market), a.instrument, a.lots, a.price, a.tp, a.sl, a.ts,
                  v.market.mode, v.market.date, v.market.close)
    case Err(e) => Step(s1, Some(e))
    case Ok(o) => if v.last.Err? then Step(s1, Some(v.last.error)) else Step(Signal(s1, o), None)
  }

  /** Two placements, the second only if the first raised nothing. */
  function TwiceStep(s: Tape, t: OrderType, a: Args, v: View): (r: Step)
    ensures r.raised.None? ==> Appended(s, r.tape, 2, t, a.lots)
    ensures Extends(s, r.tape) && r.tape.nextId <= s.nextId + 2
    ensures r.raised.Some? ==> |r.tape.signals| <= |s.signals| + 1
  {
    var r1 := PlaceStep(s, t, a, v);
    if r1.raised.Some? then r1
    else
      var r2 := PlaceStep(r1.tape, t, a, v);
      assert r2.tape.signals[..|s.signals|] == r1.tape.signals[..|s.signals|];
      r2
  }

  /** How many signals `buy` emits at position `p`: one unless long. */
  function BuyCount(p: real): nat { if p <= 0.0 then 1 else 0 }

  /** How many signals `sell` emits at position `p`: one unless short. */
  function SellCount(p: real): nat { if p >= 0.0 then 1 else 0 }

  /** How many signals `buy_even_and_open` emits: two when short, one when flat, none when long. */
  function BuyEvenCount(p: real): nat { if p < 0.0 then 2 else if p == 0.0 then 1 else 0 }

  /** How many signals `sell_even_and_open` emits: two when long, one when flat, none when short. */
  function SellEvenCount(p: real): nat { if p > 0.0 then 2 else if p == 0.0 then 1 else 0 }

  /** `Strategy.buy`: a buy only when the position is flat or short. */
  function BuyStep(s: Tape, a: Args, v: View): (r: Step)
    ensures Extends(s, r.tape) && r.tape.nextId <= s.nextId + 1
    ensures v.last.Err? ==> r == Step(s, Some(v.last.error))
    ensures r.raised.Some? ==> r.tape.signals == s.signals
  {
    match v.last
    case Err(e) => Step(s, Some(e))
    case Ok(p) => if p <= 0.0 then PlaceStep(s, BUY, a, v) else Step(s, None)
  }

  /** `Strategy.sell`: a sell only when the position is flat or long. */
  function SellStep(s: Tape, a: Args, v: View): (r: Step)
    ensures Extends(s, r.tape) && r.tape.nextId <= s.nextId + 1
    ensures v.last.Err? ==> r == Step(s, Some(v.last.error))
    ensures r.raised.Some? ==> r.tape.signals == s.signals
  {
    match v.last
    case Err(e) => Step(s, Some(e))
    case Ok(p) => if p >= 0.0 then PlaceStep(s, SELL, a, v) else Step(s, None)
  }

  /** `Strategy.buy_even_and_open`: two buys close a short and open a long; one buy opens from flat. */
  function BuyEvenStep(s: Tape, a: Args, v: View): (r: Step)
    ensures Extends(s, r.tape) && r.tape.nextId <= s.nextId + 2
    ensures v.last.Err? ==> r == Step(s, Some(v.last.error))
    ensures r.raised.Some? ==> |r.tape.signals| <= |s.signals| + 1
  {
    match v.last
    case Err(e) => Step(s, Some(e))
    case Ok(p) =>
      if p < 0.0 then TwiceStep(s, BUY, a, v)
      else if p == 0.0 then PlaceStep(s, BUY, a, v)
      else Step(s, None)
  }

  /**
   * `Strategy.sell_even_and_open`: the mirror of `buy_even_and_open`, except
   * that it first reads `position[-2]` for its log line, which raises when
   * the position series holds a single record.
   */
  function SellEvenStep(s: Tape, a: Args, v: View): (r: Step)
    ensures Extends(s, r.tape) && r.tape.nextId <= s.nextId + 2
    ensures v.last.Err? ==> r == Step(s, Some(v.last.error))
    ensures v.last.Ok? && v.prev.Err? ==> r == Step(s, Some(v.prev.error))
    ensures r.raised.Some? ==> |r.tape.signals| <= |s.signals| + 1
  {
    match v.last
    case Err(e) => Step(s, Some(e))
    case Ok(p) =>
      if v.prev.Err? then Step(s, Some(v.prev.error))
      else if p > 0.0 then TwiceStep(s, SELL, a, v)
      else if p == 0.0 then PlaceStep(s, SELL, a, v)
      else Step(s, None)
  }

  /** The side `exit_all` sets as written: the strings `'Buy'` and `'Sell'`, which are not order sides. */
  function ExitSideAsWritten(p: real): OrderType
  {
    if p < 0.0 then Other("Buy") else Other("Sell")
  }

  /** The side closing a position: buy back a short, sell out a long. */
  function ExitSide(p: real): OrderType
  {
    if p < 0.0 then BUY else SELL
  }

  /** The CLOSE_ALL order of side `side` for `|p|` lots, executed with no offsets and appended as a signal. */
  function ExitOrder(s: Tape, id: nat, side: OrderType, p: real, inst: Option<Inst>, price: PriceSpec, m: Market): (r: Step)
  {
    match Execute(Blank(id, side, CloseAll, m.instrument, m.perComm, m.perMargin, m.mult),
                  inst, Abs(p), price, None, None, None, m.mode, m.date, m.close)
    case Err(e) => Step(s, Some(e))
    case Ok(o) => Step(Signal(s, o), None)
  }

  /**
   * `exit_all` as written: the order takes the next id, nothing more
   * happens when flat, and otherwise the order is executed with the side
   * `'Buy'` or `'Sell'`.
   */
  function ExitAllAsWritten(s: Tape, inst: Option<Inst>, price: PriceSpec, v: View): (r: Step)
    ensures r.tape.nextId == s.nextId + 1
    ensures Extends(s, r.tape) && |r.tape.signals| <= |s.signals| + 1
    ensures r.raised.Some? ==> r.tape.signals == s.signals
    ensures v.last.Err? ==> r.raised == Some(v.last.error)
  {
    var s1 := s.(nextId := s.nextId + 1);
    match v.last
    case Err(e) => Step(s1, Some(e))
    case Ok(p) => if p == 0.0 then Step(s1, None) else ExitOrder(s1, s.nextId, ExitSideAsWritten(p), p, inst, price, v.market)
  }

  /** `exit_all` with the sides `'BUY'` and `'SELL'` it means. */
  function ExitAllStep(s: Tape, inst: Option<Inst>, price: PriceSpec, v: View): (r: Step)
    ensures r.tape.nextId == s.nextId + 1
    ensures Extends(s, r.tape) && |r.tape.signals| <= |s.signals| + 1
    ensures r.raised.Some? ==> r.tape.signals == s.signals
    ensures v.last.Err? ==> r.raised == Some(v.last.error)
  {
    var s1 := s.(nextId := s.nextId + 1);
    match v.last
    case Err(e) => Step(s1, Some(e))
    case Ok(p) => if p == 0.0 then Step(s1, None) else ExitOrder(s1, s.nextId, ExitSide(p), p, inst, price, v.market)
  }

  /** One call of the user's `next`. */
  function CallStep(s: Tape, c: Call, v: View): (r: Step)
    ensures Extends(s, r.tape)
  {
    match c
    case BuyCall(a) => BuyStep(s, a, v)
    case SellCall(a) => SellStep(s, a, v)
    case BuyEvenCall(a) => BuyEvenStep(s, a, v)
    case SellEvenCall(a) => SellEvenStep(s, a, v)
    case ExitAllCall(inst, price) => ExitAllStep(s, inst, price, v)
    case RaiseCall(e) => Step(s, Some(e))
  }

  /** The calls of `next` made in order, stopping at the first exception. */
  function Run(s: Tape, calls: seq<Call>, v: View): (r: Step)
    decreases |calls|
  {
    if calls == [] then Step(s, None)
    else
      var r := Run(s, calls[..|calls| - 1], v);
      if r.raised.Some? then r else CallStep(r.tape, calls[|calls| - 1], v)
  }

  /** `__process`: a `Warning` or an `IndexError` out of `next` is swallowed; any other exception propagates. */
  function ProcessStep(s: Tape, calls: seq<Call>, v: View): (r: Step)
    ensures r.tape == Run(s, calls, v).tape
    ensures r.raised.Some? <==> Run(s, calls, v).raised.Some? && Run(s, calls, v).raised.value !in {Warning, IndexError}
    ensures r.raised.Some? ==> r.raised == Run(s, calls, v).raised
  {
    var r := Run(s, calls, v);
    if r.raised == Some(Warning) || r.raised == Some(IndexError) then Step(r.tape, None) else r
  }

  /** `buy` emits only when the position is not long, and then exactly one buy signal for the lots asked. */
  lemma BuyGate(s: Tape, a: Args, v: View, p: real)
    requires v.last == Ok(p)
    ensures p > 0.0 ==> BuyStep(s, a, v) == Step(s, None)
    ensures BuyStep(s, a, v).raised.None? ==> Appended(s, BuyStep(s, a, v).tape, BuyCount(p), BUY, a.lots)
  {
  }

  /** `sell` emits only when the position is not short, and then exactly one sell signal for the lots asked. */
  lemma SellGate(s: Tape, a: Args, v: View, p: real)
    requires v.last == Ok(p)
    ensures p < 0.0 ==> SellStep(s, a, v) == Step(s, None)
    ensures SellStep(s, a, v).raised.None? ==> Appended(s, SellStep(s, a, v).tape, SellCount(p), SELL, a.lots)
  {
  }

  /** Flat, both `buy` and `sell` emit; otherwise exactly one of them can. */
  lemma BuySellOverlapOnlyFlat(p: real)
    ensures BuyCount(p) + SellCount(p) == (if p == 0.0 then 2 else 1)
  {
  }

  /** `buy_even_and_open` emits two buys when short, one when flat and none when long. */
  lemma BuyEvenGate(s: Tape, a: Args, v: View, p: real)
    requires v.last == Ok(p)
    ensures p > 0.0 ==> BuyEvenStep(s, a, v) == Step(s, None)
    ensures BuyEvenStep(s, a, v).raised.None? ==> Appended(s, BuyEvenStep(s, a, v).tape, BuyEvenCount(p), BUY, a.lots)
  {
  }

  /** `sell_even_and_open` mirrors `buy_even_and_open`, once `position[-2]` can be read. */
  lemma SellEvenGate(s: Tape, a: Args, v: View, p: real)
    requires v.last == Ok(p)
    ensures v.prev.Err? ==> SellEvenStep(s, a, v) == Step(s, Some(v.prev.error))
    ensures v.prev.Ok? && p < 0.0 ==> SellEvenStep(s, a, v) == Step(s, None)
    ensures SellEvenStep(s, a, v).raised.None? ==> Appended(s, SellEvenStep(s, a, v).tape, SellEvenCount(p), SELL, a.lots)
    ensures SellEvenCount(p) == BuyEvenCount(-p)
  {
  }

  /**
   * With any position other than flat, `exit_all` as written raises
   * `AttributeError` (the price spec being one `execute` accepts) and emits
   * nothing: `'Buy'` and `'Sell'` give the order data no direction.
   */
  lemma ExitAllAsWrittenRaises(s: Tape, inst: Option<Inst>, price: PriceSpec, v: View, p: real)
    requires v.last == Ok(p) && p != 0.0 && price != OtherPriceKind
    ensures ExitAllAsWritten(s, inst, price, v) == Step(s.(nextId := s.nextId + 1), Some(AttributeError))
  {
    var m := v.market;
    var o := Blank(s.nextId, ExitSideAsWritten(p), CloseAll, m.instrument, m.perComm, m.perMargin, m.mult);
    assert o.orderType !in {BUY, SELL};
    assert NoDirectionError(None, None, None) == AttributeError;
  }

  /**
   * `exit_all` with the intended sides emits nothing when flat; otherwise
   * exactly one CLOSE_ALL signal for `|position|` lots whose direction is
   * opposite to the position.
   */
  lemma ExitAllCloses(s: Tape, inst: Option<Inst>, price: PriceSpec, v: View, p: real)
    requires v.last == Ok(p) && price != OtherPriceKind
    ensures p == 0.0 ==> ExitAllStep(s, inst, price, v) == Step(s.(nextId := s.nextId + 1), None)
    ensures p != 0.0 ==>
      var r := ExitAllStep(s, inst, price, v);
      var o := r.tape.orders[r.tape.signals[|s.signals|].oref];
      r.raised.None? && Appended(s, r.tape, 1, ExitSide(p), Abs(p))
      && o.execType == CloseAll && o.direction * p < 0.0
  {
    if p != 0.0 {
      var m := v.market;
      var b := Blank(s.nextId, ExitSide(p), CloseAll, m.instrument, m.perComm, m.perMargin, m.mult);
      var e := Execute(b, inst, Abs(p), price, None, None, None, m.mode, m.date, m.close);
      assert DataDirection(b.orderType).Some?;
      assert e.Ok?;
      assert e.value.execType == Classify(CloseAll, b.orderType, e.value.price, m.close) == CloseAll;
    }
  }

  /** Once a call raised, the later calls change nothing. */
  lemma {:induction false} RunStops(s: Tape, calls: seq<Call>, k: nat, v: View)
    requires k <= |calls| && Run(s, calls[..k], v).raised.Some?
    ensures Run(s, calls, v) == Run(s, calls[..k], v)
    decreases |calls| - k
  {
    if k < |calls| {
      assert calls[..k + 1][..k] == calls[..k];
      RunStops(s, calls, k + 1, v);
    } else {
      assert calls[..k] == calls;
    }
  }

  /** The calls only ever append to the signal list. */
  lemma {:induction false} RunExtends(s: Tape, calls: seq<Call>, v: View)
    ensures Extends(s, Run(s, calls, v).tape)
    decreases |calls|
  {
    if calls != [] {
      RunExtends(s, calls[..|calls| - 1], v);
    }
  }

  /**
   * The signals appended by the calls before an exception survive it: the
   * signal list after the first `k` calls, when none of them raised, is a
   * prefix of the list `__process` leaves.
   */
  lemma {:induction false} ProcessKeepsEarlier(s: Tape, calls: seq<Call>, v: View, k: nat)
    requires k <= |calls| && Run(s, calls[..k], v).raised.None?
    ensures Extends(Run(s, calls[..k], v).tape, ProcessStep(s, calls, v).tape)
    decreases |calls| - k
  {
    if k == |calls| {
      assert calls[..k] == calls;
    } else {
      var r := Run(s, calls[..k + 1], v);
      assert calls[..k + 1][..k] == calls[..k];
      if r.raised.Some? {
        RunStops(s, calls, k + 1, v);
      } else {
        ProcessKeepsEarlier(s, calls, v, k + 1);
      }
    }
  }

  /** A signal wraps a stored order. */
  ghost predicate Stored(sigs: seq<Event>, orders: map<nat, Order>)
  {
    forall e :: e in sigs ==> e.oref in orders
  }

  /** The position of the first CLOSE_ALL signal, if there is one. */
  function FirstCloseAll(sigs: seq<Event>, orders: map<nat, Order>): (k: Option<nat>)
    requires Stored(sigs, orders)
    ensures k.Some? ==> k.value < |sigs| && orders[sigs[k.value].oref].execType == CloseAll
    ensures k.Some? ==> forall j :: 0 <= j < k.value ==> orders[sigs[j].oref].execType != CloseAll
    ensures k.None? ==> forall j :: 0 <= j < |sigs| ==> orders[sigs[j].oref].execType != CloseAll
  {
    if sigs == [] then None
    else if orders[sigs[0].oref].execType == CloseAll then Some(0)
    else match FirstCloseAll(sigs[1..], orders)
      case None => None
      case Some(k) => Some(k + 1)
  }

  /**
   * The first loop of `__prestop`: a CLOSE_ALL signal replaces the whole
   * list by itself, or by nothing when it is for zero lots; without one the
   * list stays as it is.
   */
  function Survivors(sigs: seq<Event>, orders: map<nat, Order>): (r: seq<Event>)
    requires Stored(sigs, orders)
    ensures FirstCloseAll(sigs, orders).None? ==> r == sigs
    ensures FirstCloseAll(sigs, orders).Some? ==> |r| <= 1
    ensures forall e :: e in r ==> e in sigs
    ensures (exists j :: 0 <= j < |sigs| && orders[sigs[j].oref].execType == CloseAll) ==>
      forall e :: e in r ==> orders[e.oref].execType == CloseAll && orders[e.oref].units != 0.0
  {
    match FirstCloseAll(sigs, orders)
    case None => sigs
    case Some(k) => if orders[sigs[k].oref].units == 0.0 then [] else [sigs[k]]
  }

  /** The second loop of `__prestop`: the signals for `inst`, in list order. */
  function ForInstrument(sigs: seq<Event>, orders: map<nat, Order>, inst: Inst): (r: seq<Event>)
    requires Stored(sigs, orders)
    ensures |r| <= |sigs|
    decreases |sigs|
  {
    if sigs == [] then []
    else
      var e := sigs[|sigs| - 1];
      ForInstrument(sigs[..|sigs| - 1], orders, inst) + (if orders[e.oref].instrument == inst then [e] else [])
  }

  /** A signal is queued exactly when it is in the list and for the instrument. */
  lemma {:induction false} ForInstrumentMembers(sigs: seq<Event>, orders: map<nat, Order>, inst: Inst, e: Event)
    requires Stored(sigs, orders)
    ensures e in ForInstrument(sigs, orders, inst) <==> e in sigs && orders[e.oref].instrument == inst
    decreases |sigs|
  {
    if sigs != [] {
      var init := sigs[..|sigs| - 1];
      assert sigs == init + [sigs[|sigs| - 1]];
      ForInstrumentMembers(init, orders, inst, e);
    }
  }

  /** Filtering keeps the order of the list: the signals of a concatenation are those of each part, in turn. */
  lemma {:induction false} ForInstrumentConcat(s: seq<Event>, t: seq<Event>, orders: map<nat, Order>, inst: Inst)
    requires Stored(s + t, orders)
    ensures Stored(s, orders) && Stored(t, orders)
    ensures ForInstrument(s + t, orders, inst) == ForInstrument(s, orders, inst) + ForInstrument(t, orders, inst)
    decreases |t|
  {
    assert forall e :: e in s ==> e in s + t;
    assert forall e :: e in t ==> e in s + t;
    if t != [] {
      var init := t[..|t| - 1];
      assert (s + t)[..|s + t| - 1] == s + init;
      assert forall e :: e in s + init ==> e in s + t;
      ForInstrumentConcat(s, init, orders, inst);
    } else {
      assert s + t == s;
    }
  }

  /** Every call keeps each signal wrapping a stored order. */
  lemma CallStepStored(s: Tape, c: Call, v: View)
    requires Stored(s.signals, s.orders)
    ensures Stored(CallStep(s, c, v).tape.signals, CallStep(s, c, v).tape.orders)
  {
  }

  /** The calls of `next` keep each signal wrapping a stored order. */
  lemma {:induction false} RunStored(s: Tape, calls: seq<Call>, v: View)
    requires Stored(s.signals, s.orders)
    ensures Stored(Run(s, calls, v).tape.signals, Run(s, calls, v).tape.orders)
    decreases |calls|
  {
    if calls != [] {
      var init := calls[..|calls| - 1];
      RunStored(s, init, v);
      if Run(s, init, v).raised.None? {
        CallStepStored(Run(s, init, v).tape, calls[|calls| - 1], v);
      }
    }
  }

  /** The book's orders and counters as a tape with no signal: what a new strategy starts from. */
  function BookTape(b: Book): (t: Tape)
    reads b
    ensures t.signals == [] && t.orders == b.orders
  {
    Tape(b.orders, b.nextId, b.nextRef, b.nextEid, [])
  }

  /** How a strategy's turn ends: the signals it queues, the exception that ended it, its tape and the ledger's current instrument. */
  datatype Turn = Turn(queued: seq<Event>, raised: Option<Exc>, tape: Tape, inst: Inst)

  /**
   * `strategy(event).run_strategy()` on values, from the book `b`, the
   * position series and the ledger's current instrument `inst`:
   * `Strategy.__init__` reads `position[-1]` through `inst`; the calls then
   * read the position of the market's instrument, and the survivors of
   * `__prestop` that are for that instrument are queued.
   */
  function TurnOf(b: Tape, position: Store, inst: Inst, m: Market, calls: seq<Call>): (r: Turn)
    ensures Read(position, inst, -1).Err? ==>
      r == Turn([], Some(Read(position, inst, -1).error), b.(signals := []), inst)
    ensures Read(position, inst, -1).Ok? ==> r.inst == m.instrument
    ensures r.raised.Some? ==> r.queued == []
    ensures b.orders.Keys <= r.tape.orders.Keys && Stored(r.tape.signals, r.tape.orders)
  {
    var s0 := b.(signals := []);
    var init := Read(position, inst, -1);
    if init.Err? then Turn([], Some(init.error), s0, inst)
    else
      var v := View(m, Read(position, m.instrument, -1), Read(position, m.instrument, -2));
      var r := ProcessStep(s0, calls, v);
      RunExtends(s0, calls, v);
      RunStored(s0, calls, v);
      if r.raised.Some? then Turn([], r.raised, r.tape, m.instrument)
      else
        var sigs := Survivors(r.tape.signals, r.tape.orders);
        Turn(ForInstrument(sigs, r.tape.orders, m.instrument), None, r.tape.(signals := sigs), m.instrument)
  }

  /** A turn queues exactly the signals it keeps that are for the market's instrument, and only when nothing escaped. */
  lemma TurnQueued(b: Tape, position: Store, inst: Inst, m: Market, calls: seq<Call>, e: Event)
    ensures var r := TurnOf(b, position, inst, m, calls);
      e in r.queued <==> r.raised.None? && e in r.tape.signals && r.tape.orders[e.oref].instrument == m.instrument
  {
    var r := TurnOf(b, position, inst, m, calls);
    if r.raised.None? {
      ForInstrumentMembers(r.tape.signals, r.tape.orders, m.instrument, e);
    }
  }

  /**
   * The strategies of one market event in list order, `plans` holding the
   * calls of each: each is a new strategy on the book the one before left;
   * the first exception ends the dispatch, and what the strategies before
   * it queued stays queued.
   */
  function Turns(b: Tape, position: Store, inst: Inst, m: Market, plans: seq<seq<Call>>): (r: Turn)
    ensures b.orders.Keys <= r.tape.orders.Keys
    decreases |plans|
  {
    if plans == [] then Turn([], None, b, inst)
    else
      var r := Turns(b, position, inst, m, plans[..|plans| - 1]);
      if r.raised.Some? then r
      else
        var t := TurnOf(r.tape.(signals := []), position, r.inst, m, plans[|plans| - 1]);
        Turn(r.queued + t.queued, t.raised, t.tape, t.inst)
  }

  /** Every signal the strategies queue wraps an order the book holds at the end. */
  lemma {:induction false} TurnsQueued(b: Tape, position: Store, inst: Inst, m: Market, plans: seq<seq<Call>>)
    ensures var r := Turns(b, position, inst, m, plans);
      forall e :: e in r.queued ==> e.oref in r.tape.orders
    decreases |plans|
  {
    if plans != [] {
      var r := Turns(b, position, inst, m, plans[..|plans| - 1]);
      TurnsQueued(b, position, inst, m, plans[..|plans| - 1]);
      if r.raised.None? {
        var t := TurnOf(r.tape.(signals := []), position, r.inst, m, plans[|plans| - 1]);
        forall e | e in t.queued
          ensures e.oref in t.tape.orders
        {
          TurnQueued(r.tape.(signals := []), position, r.inst, m, plans[|plans| - 1], e);
        }
      }
    }
  }

  /** Once a strategy raised, the later strategies of the event change nothing. */
  lemma {:induction false} TurnsStop(b: Tape, position: Store, inst: Inst, m: Market, plans: seq<seq<Call>>, k: nat)
    requires k <= |plans| && Turns(b, position, inst, m, plans[..k]).raised.Some?
    ensures Turns(b, position, inst, m, plans) == Turns(b, position, inst, m, plans[..k])
    decreases |plans| - k
  {
    if k < |plans| {
      assert plans[..k + 1][..k] == plans[..k];
      TurnsStop(b, position, inst, m, plans, k + 1);
    } else {
      assert plans[..k] == plans;
    }
  }

  /**
   * A strategy on one market event (`StrategyBase` with `Strategy`'s
   * overrides): its signal list, and the ledger whose position series it
   * reads and whose book holds the orders it creates.
   */
  class Strategy {
    const fill: BacktestFill
    const market: Market
    /** `_signal_list` */
    var signals: seq<Event>

    constructor (f: BacktestFill, m: Market)
      ensures fill == f && market == m && signals == []
    {
      fill := f;
      market := m;
      signals := [];
    }

    /** The book's consistency, and every signal wraps a stored order. */
    ghost predicate Ready()
      reads this, fill.book
    {
      fill.book.Valid() && Stored(signals, fill.book.orders)
    }

    /** The book and the signal list, as a value. */
    function Snap(): Tape
      reads this, fill.book
    {
      Tape(fill.book.orders, fill.book.nextId, fill.book.nextRef, fill.book.nextEid, signals)
    }

    /** What the helpers read through the ledger's current instrument. */
    function Sees(): View
      reads fill
    {
      View(market, Read(fill.ledger.position, fill.instrument, -1), Read(fill.ledger.position, fill.instrument, -2))
    }

    /** `buy_base` (side `BUY`) and `sell_base` (side `SELL`). */
    method Place(t: OrderType, a: Args) returns (raised: Option<Exc>)
      requires Ready()
      modifies fill.book, this`signals
      ensures Ready()
      ensures Step(Snap(), raised) == PlaceStep(old(Snap()), t, a, Sees())
    {
      var id := fill.book.NextId();
      var o := Blank(id, t, Unset, market.instrument, market.perComm, market.perMargin, market.mult);
      var r := Execute(o, a.instrument, a.lots, a.price, a.tp, a.sl, a.ts, market.mode, market.date, market.close);
      if r.Err? {
        return Some(r.error);
      }
      var last := Read(fill.ledger.position, fill.instrument, -1);
      if last.Err? {
        return Some(last.error);
      }
      var ref := fill.book.Alloc(r.value);
      var e := fill.book.NewEvent(ref);
      signals := signals + [e];
      raised := None;
    }

    /** Two placements, the second only if the first raised nothing. */
    method PlaceTwice(t: OrderType, a: Args) returns (raised: Option<Exc>)
      requires Ready()
      modifies fill.book, this`signals
      ensures Ready()
      ensures Step(Snap(), raised) == TwiceStep(old(Snap()), t, a, Sees())
    {
      raised := Place(t, a);
      if raised.None? {
        raised := Place(t, a);
      }
    }

    /** `Strategy.buy` */
    method Buy(a: Args) returns (raised: Option<Exc>)
      requires Ready()
      modifies fill.book, this`signals
      ensures Ready()
      ensures Step(Snap(), raised) == BuyStep(old(Snap()), a, Sees())
    {
      var last := Read(fill.ledger.position, fill.instrument, -1);
      if last.Err? {
        return Some(last.error);
      }
      raised := None;
      if last.value <= 0.0 {
        raised := Place(BUY, a);
      }
    }

    /** `Strategy.sell` */
    method Sell(a: Args) returns (raised: Option<Exc>)
      requires Ready()
      modifies fill.book, this`signals
      ensures Ready()
      ensures Step(Snap(), raised) == SellStep(old(Snap()), a, Sees())
    {
      var last := Read(fill.ledger.position, fill.instrument, -1);
      if last.Err? {
        return Some(last.error);
      }
      raised := None;
      if last.value >= 0.0 {
        raised := Place(SELL, a);
      }
    }

    /** `Strategy.buy_even_and_open` */
    method BuyEvenAndOpen(a: Args) returns (raised: Option<Exc>)
      requires Ready()
      modifies fill.book, this`signals
      ensures Ready()
      ensures Step(Snap(), raised) == BuyEvenStep(old(Snap()), a, Sees())
    {
      var last := Read(fill.ledger.position, fill.instrument, -1);
      if last.Err? {
        return Some(last.error);
      }
      raised := None;
      if last.value < 0.0 {
        raised := PlaceTwice(BUY, a);
      } else if last.value == 0.0 {
        raised := Place(BUY, a);
      }
    }

    /** `Strategy.sell_even_and_open` */
    method SellEvenAndOpen(a: Args) returns (raised: Option<Exc>)
      requires Ready()
      modifies fill.book, this`signals
      ensures Ready()
      ensures Step(Snap(), raised) == SellEvenStep(old(Snap()), a, Sees())
    {
      var last := Read(fill.ledger.position, fill.instrument, -1);
      if last.Err? {
        return Some(last.error);
      }
      var prev := Read(fill.ledger.position, fill.instrument, -2);
      if prev.Err? {
        return Some(prev.error);
      }
      raised := None;
      if last.value > 0.0 {
        raised := PlaceTwice(SELL, a);
      } else if last.value == 0.0 {
        raised := Place(SELL, a);
      }
    }

    /** `exit_all`, with the sides `'BUY'` and `'SELL'`. */
    method ExitAll(inst: Option<Inst>, price: PriceSpec) returns (raised: Option<Exc>)
      requires Ready()
      modifies fill.book, this`signals
      ensures Ready()
      ensures Step(Snap(), raised) == ExitAllStep(old(Snap()), inst, price, Sees())
    {
      var id := fill.book.NextId();
      var last := Read(fill.ledger.position, fill.instrument, -1);
      if last.Err? {
        return Some(last.error);
      }
      var p := last.value;
      if p == 0.0 {
        return None;
      }
      raised := PlaceExit(id, ExitSide(p), p, inst, price);
    }

    /** The closing order of `exit_all`, with an id already taken. */
    method PlaceExit(id: nat, side: OrderType, p: real, inst: Option<Inst>, price: PriceSpec) returns (raised: Option<Exc>)
      requires Ready() && 1 <= id < fill.book.nextId
      modifies fill.book, this`signals
      ensures Ready()
      ensures Step(Snap(), raised) == ExitOrder(old(Snap()), id, side, p, inst, price, market)
    {
      var o := Blank(id, side, CloseAll, market.instrument, market.perComm, market.perMargin, market.mult);
      var r := Execute(o, inst, Abs(p), price, None, None, None, market.mode, market.date, market.close);
      if r.Err? {
        return Some(r.error);
      }
      var ref := fill.book.Alloc(r.value);
      var e := fill.book.NewEvent(ref);
      signals := signals + [e];
      raised := None;
    }

    /** One call of the user's `next`. */
    method Perform(c: Call) returns (raised: Option<Exc>)
      requires Ready()
      modifies fill.book, this`signals
      ensures Ready()
      ensures Step(Snap(), raised) == CallStep(old(Snap()), c, Sees())
    {
      match c
      case BuyCall(a) => raised := Buy(a);
      case SellCall(a) => raised := Sell(a);
      case BuyEvenCall(a) => raised := BuyEvenAndOpen(a);
      case SellEvenCall(a) => raised := SellEvenAndOpen(a);
      case ExitAllCall(inst, price) => raised := ExitAll(inst, price);
      case RaiseCall(e) => raised := Some(e);
    }

    /** `__process`: `prenext` (which does nothing) and the calls of `next`. */
    method Process(calls: seq<Call>) returns (raised: Option<Exc>)
      requires Ready()
      modifies fill.book, this`signals
      ensures Ready()
      ensures Step(Snap(), raised) == ProcessStep(old(Snap()), calls, Sees())
    {
      ghost var s0 := Snap();
      var i := 0;
      while i < |calls|
        invariant i <= |calls| && Ready()
        invariant Run(s0, calls[..i], Sees()) == Step(Snap(), None)
      {
        raised := Perform(calls[i]);
        assert calls[..i + 1][..i] == calls[..i];
        if raised.Some? {
          RunStops(s0, calls, i + 1, Sees());
          if raised == Some(Warning) || raised == Some(IndexError) {
            raised := None;
          }
          return;
        }
        i := i + 1;
      }
      assert calls[..i] == calls;
      raised := None;
    }

    /**
     * `__prestop`: the list is cut down to the first CLOSE_ALL signal (or to
     * nothing when that signal is for zero lots), and the signals for the
     * strategy's own instrument are queued in list order.
     */
    method Prestop() returns (queued: seq<Event>)
      requires Stored(signals, fill.book.orders)
      modifies this`signals
      ensures Stored(signals, fill.book.orders)
      ensures signals == Survivors(old(signals), fill.book.orders)
      ensures queued == ForInstrument(signals, fill.book.orders, market.instrument)
    {
      var orders := fill.book.orders;
      var i := 0;
      while i < |signals|
        invariant i <= |signals| && signals == old(signals)
        invariant forall j :: 0 <= j < i ==> orders[signals[j].oref].execType != CloseAll
      {
        var o := orders[signals[i].oref];
        if o.execType == CloseAll {
          signals := if o.units == 0.0 then [] else [signals[i]];
          break;
        }
        i := i + 1;
      }
      queued := [];
      var j := 0;
      while j < |signals|
        invariant j <= |signals| && Stored(signals[..j], orders)
        invariant queued == ForInstrument(signals[..j], orders, market.instrument)
      {
        assert signals[..j + 1][..j] == signals[..j];
        if orders[signals[j].oref].instrument == market.instrument {
          queued := queued + [signals[j]];
        }
        j := j + 1;
      }
      assert signals[..j] == signals;
    }

    /**
     * `strategy(event).run_strategy()`: `Strategy.__init__` reads
     * `position[-1]` through the ledger's current instrument; `__start`
     * points the ledger at the strategy's instrument; then `__process` and
     * `__prestop`. An exception `__process` lets through ends the turn before
     * anything is queued.
     */
    method RunStrategy(calls: seq<Call>) returns (queued: seq<Event>, raised: Option<Exc>)
      requires Ready()
      modifies fill`instrument, fill.book, this`signals
      ensures Ready() && old(fill.book.orders).Keys <= fill.book.orders.Keys
      ensures forall e :: e in queued ==> e.oref in fill.book.orders
      ensures var init := Read(old(fill.ledger.position), old(fill.instrument), -1);
        init.Err? ==>
          raised == Some(init.error) && queued == [] && Snap() == old(Snap()) && fill.instrument == old(fill.instrument)
      ensures Read(old(fill.ledger.position), old(fill.instrument), -1).Ok? ==>
        fill.instrument == market.instrument
      ensures Read(old(fill.ledger.position), old(fill.instrument), -1).Ok? ==>
        var r := ProcessStep(old(Snap()), calls, Sees());
        r.raised.Some? ==> raised == r.raised && queued == [] && Snap() == r.tape
      ensures Read(old(fill.ledger.position), old(fill.instrument), -1).Ok? ==>
        var r := ProcessStep(old(Snap()), calls, Sees());
        r.raised.None? ==>
          raised.None? && Stored(r.tape.signals, r.tape.orders)
          && Snap() == r.tape.(signals := Survivors(r.tape.signals, r.tape.orders))
          && queued == ForInstrument(signals, r.tape.orders, market.instrument)
    {
      var init := Read(fill.ledger.position, fill.instrument, -1);
      if init.Err? {
        return [], Some(init.error);
      }
      fill.SetInstrument(market.instrument);
      ghost var s0 := Snap();
      raised := Process(calls);
      RunExtends(s0, calls, Sees());
      if raised.Some? {
        return [], raised;
      }
      queued := Prestop();
      forall e | e in queued
        ensures e.oref in fill.book.orders
      {
        ForInstrumentMembers(signals, fill.book.orders, market.instrument, e);
      }
    }
  }
}
