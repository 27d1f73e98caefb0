/**
 * The broker: the cash check an order event must pass, the status it then
 * moves through (CREATED, SUBMITTED, then PENDING or FILLED) and the one
 * fill event it puts on the queue.
 */
module Brokers {
  import opened Wrappers
  import opened DataSeries
  import opened Orders
  import opened Accounts
  import opened Fill
  import opened SeriesReads

  /** The seven execute types `check_before` lets through whatever the cash. */
  predicate Exempt(e: ExecType)
  {
    e in {Market, Limit, Stop, CloseAll, StopLossOrder, TakeProfitOrder, TrailingStopOrder}
  }

  /** The cash an order has to exceed: its own margin plus the current margin signed by its direction. */
  function Required(o: Order, margin: real): real
  {
    o.perMargin * o.units * o.price * o.mult + margin * o.direction
  }

  /**
   * `check_before`: the last cash (kept under `All`) must exceed what the
   * order requires, unless its execute type is exempt. The cash test is the
   * left operand of the `or`, so a failing read of the cash or of the
   * margin of the ledger's current instrument raises even for an exempt order.
   */
  function CheckBefore(a: Accounts, inst: Inst, o: Order): (r: Result<bool>)
    ensures r.Ok? <==> Read(a.cash, All, -1).Ok? && Read(a.margin, inst, -1).Ok?
    ensures Read(a.cash, All, -1).Err? ==> r == Err(Read(a.cash, All, -1).error)
    ensures Read(a.cash, All, -1).Ok? && Read(a.margin, inst, -1).Err? ==> r == Err(Read(a.margin, inst, -1).error)
    ensures r.Ok? && Exempt(o.execType) ==> r.value
    ensures r.Ok? && !Exempt(o.execType) ==>
      (r.value <==> Read(a.cash, All, -1).value > Required(o, Read(a.margin, inst, -1).value))
  {
    match Read(a.cash, All, -1)
    case Err(e) => Err(e)
    case Ok(cash) =>
      match Read(a.margin, inst, -1)
      case Err(e) => Err(e)
      case Ok(margin) => Ok(cash > Required(o, margin) || Exempt(o.execType))
  }

  /** `check_after`: nothing is checked once the order is sent. */
  function CheckAfter(): (r: bool)
    ensures r
  {
    true
  }

  /** The status `next` gives an accepted order: PENDING for LIMIT and STOP, FILLED otherwise. */
  function Settled(e: ExecType): (s: Status)
    ensures s in {Pending, Filled}
    ensures s == Pending <==> e in {Limit, Stop}
  {
    if e in {Limit, Stop} then Pending else Filled
  }

  /** Every order `execute` classifies is exempt, so the broker never tests its cash. */
  lemma ExecutedIsExempt(o: Order, instrument: Option<Inst>, units: real, price: PriceSpec,
                         tp: Option<Offset>, sl: Option<Offset>, ts: Option<Offset>,
                         mode: ExecMode, date: Date, close: real)
    requires Execute(o, instrument, units, price, tp, sl, ts, mode, date, close).Ok?
    ensures Exempt(Execute(o, instrument, units, price, tp, sl, ts, mode, date, close).value.execType)
  {
    var r := Execute(o, instrument, units, price, tp, sl, ts, mode, date, close).value;
    assert r.execType == CloseAll || r.execType in {Market, Limit, Stop};
  }

  /** An exempt order passes on any two ledgers that can be read, however little cash either holds. */
  lemma ExemptIgnoresCash(a: Accounts, b: Accounts, inst: Inst, o: Order)
    requires Exempt(o.execType)
    requires Read(a.cash, All, -1).Ok? && Read(a.margin, inst, -1).Ok?
    requires Read(b.cash, All, -1).Ok? && Read(b.margin, inst, -1).Ok?
    ensures CheckBefore(a, inst, o) == CheckBefore(b, inst, o) == Ok(true)
  {
  }

  /** A non-exempt order that passes with some cash passes with more. */
  lemma MoreCashStillPasses(a: Accounts, b: Accounts, inst: Inst, o: Order)
    requires CheckBefore(a, inst, o) == Ok(true)
    requires Read(b.cash, All, -1).Ok? && Read(b.cash, All, -1).value >= Read(a.cash, All, -1).value
    requires b.margin == a.margin
    ensures CheckBefore(b, inst, o) == Ok(true)
  {
  }

  /** `Broker`: the order event it is handling and the ledger `pass_to_market` gave it. */
  class Broker {
    /** The ledger whose cash and margin the checks read; its book holds the order objects. */
    var fill: BacktestFill
    /** `order_event`, set by `run_broker`. */
    var order: Option<Event>
    /** `_notify`: whether `notify` prints; printing is not modelled. */
    var notify: bool

    constructor (f: BacktestFill)
      ensures fill == f && order.None? && !notify
    {
      fill := f;
      order := None;
      notify := false;
    }

    /** The check the broker makes on its current order. */
    function Check(): (r: Result<bool>)
      requires order.Some? && order.value.oref in fill.book.orders
      reads this, fill, fill.book
      ensures r.Ok? <==> Read(fill.ledger.cash, All, -1).Ok? && Read(fill.ledger.margin, fill.instrument, -1).Ok?
    {
      CheckBefore(fill.ledger, fill.instrument, fill.book.orders[order.value.oref])
    }

    /** The check `run_broker` makes on the order event `e` before anything changes. */
    function Verdict(e: Event): (r: Result<bool>)
      requires e.oref in fill.book.orders
      reads this, fill, fill.book
    {
      CheckBefore(fill.ledger, fill.instrument, fill.book.orders[e.oref])
    }

    /** `change_status`: the order object the event wraps gets the new status, nothing else changes. */
    method ChangeStatus(s: Status)
      requires order.Some? && fill.book.Valid() && order.value.oref in fill.book.orders
      modifies fill.book`orders
      ensures fill.book.Valid()
      ensures fill.book.orders ==
        old(fill.book.orders)[order.value.oref := old(fill.book.orders[order.value.oref]).(status := s)]
    {
      var r := order.value.oref;
      fill.book.Put(r, fill.book.orders[r].(status := s));
    }

    /** `submit_order`: a new fill event wrapping the same order object. */
    method SubmitOrder() returns (e: Event)
      requires order.Some?
      modifies fill.book`nextEid
      ensures e.oref == order.value.oref && e.eid == old(fill.book.nextEid)
      ensures fill.book.nextEid == old(fill.book.nextEid) + 1
    {
      e := fill.book.NewEvent(order.value.oref);
    }

    /** `start`: a passing order becomes SUBMITTED; a failing one is left CREATED (the source prints a notice). */
    method Start() returns (raised: Option<Exc>)
      requires order.Some? && fill.book.Valid() && order.value.oref in fill.book.orders
      modifies fill.book`orders
      ensures fill.book.Valid() && order.value.oref in fill.book.orders
      ensures old(Check()).Err? ==> raised == Some(old(Check()).error)
      ensures old(Check()) == Ok(false) ==> raised.None?
      ensures old(Check()) != Ok(true) ==> fill.book.orders == old(fill.book.orders)
      ensures old(Check()) == Ok(true) ==>
        raised.None? && fill.book.orders ==
        old(fill.book.orders)[order.value.oref := old(fill.book.orders[order.value.oref]).(status := Submitted)]
    {
      var c := Check();
      if c.Err? {
        return Some(c.error);
      }
      if c.value {
        ChangeStatus(Submitted);
      }
      raised := None;
    }

    /**
     * `next`: an order that still passes both checks is settled (PENDING for
     * LIMIT and STOP, FILLED otherwise) and exactly one fill event is queued.
     */
    method Next() returns (queued: seq<Event>, raised: Option<Exc>)
      requires order.Some? && fill.book.Valid() && order.value.oref in fill.book.orders
      modifies fill.book`orders, fill.book`nextEid
      ensures fill.book.Valid()
      ensures old(Check()).Err? ==> raised == Some(old(Check()).error)
      ensures old(Check()) == Ok(false) ==> raised.None?
      ensures old(Check()) != Ok(true) ==>
        queued == [] && fill.book.orders == old(fill.book.orders) && fill.book.nextEid == old(fill.book.nextEid)
      ensures old(Check()) == Ok(true) ==>
        var o := old(fill.book.orders[order.value.oref]);
        raised.None? && queued == [Event(old(fill.book.nextEid), order.value.oref)]
        && fill.book.orders == old(fill.book.orders)[order.value.oref := o.(status := Settled(o.execType))]
        && fill.book.nextEid == old(fill.book.nextEid) + 1
    {
      var c := Check();
      if c.Err? {
        return [], Some(c.error);
      }
      if c.value && CheckAfter() {
        var o := fill.book.orders[order.value.oref];
        if o.execType in {Limit, Stop} {
          ChangeStatus(Pending);
        } else {
          ChangeStatus(Filled);
        }
        var e := SubmitOrder();
        queued := [e];
      } else {
        queued := [];
      }
      raised := None;
    }

    /**
     * `run_broker`: `start`, `prenext` (which does nothing) and `next` on the
     * order event. An accepted order ends PENDING exactly when it is a LIMIT
     * or STOP order, FILLED otherwise, with one fill event queued for it; a
     * rejected one keeps its status and queues nothing.
     */
    method RunBroker(e: Event) returns (queued: seq<Event>, raised: Option<Exc>)
      requires fill.book.Valid() && e.oref in fill.book.orders
      modifies this`order, fill.book`orders, fill.book`nextEid
      ensures order == Some(e) && fill.book.Valid()
      ensures old(Verdict(e)).Err? ==> raised == Some(old(Verdict(e)).error)
      ensures old(Verdict(e)) == Ok(false) ==> raised.None?
      ensures old(Verdict(e)) != Ok(true) ==>
        queued == [] && fill.book.orders == old(fill.book.orders) && fill.book.nextEid == old(fill.book.nextEid)
      ensures old(Verdict(e)) == Ok(true) ==>
        var o := old(fill.book.orders[e.oref]);
        raised.None? && queued == [Event(old(fill.book.nextEid), e.oref)]
        && e.oref in fill.book.orders
        && (fill.book.orders[e.oref].status == Pending <==> o.execType in {Limit, Stop})
        && (fill.book.orders[e.oref].status == Filled <==> o.execType !in {Limit, Stop})
        && fill.book.orders == old(fill.book.orders)[e.oref := o.(status := fill.book.orders[e.oref].status)]
        && fill.book.nextEid == old(fill.book.nextEid) + 1
    {
      order := Some(e);
      raised := Start();
      if raised.Some? {
        return [], raised;
      }
      queued, raised := Next();
    }
  }
}
