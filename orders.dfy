/**
 * Orders: turning a strategy's price, take-profit, stop-loss and
 * trailing-stop arguments into absolute prices, classifying an order as
 * MARKET, LIMIT or STOP against the execution reference price, and
 * ratcheting a trailing stop.
 */
module Orders {
  import opened Wrappers
  import opened DataSeries

  /** `execute_type`; `Triggered(t)` is the `"<t> Triggered"` tag a filled pending order receives. */
  datatype ExecType =
    | Unset | Market | Limit | Stop | CloseAll
    | StopLossOrder | TakeProfitOrder | TrailingStopOrder
    | Triggered(base: ExecType)

  /** `order_type`: the two sides, any other string, or no side at all. */
  datatype OrderType = BUY | SELL | Other(name: string) | NoType

  datatype Status = Created | Submitted | Pending | Filled

  /** `execute_mode`: both modes price at the current bar's close. */
  datatype ExecMode = OpenMode | CloseMode

  /** The `price` argument: unset / `'open'` / `'close'`, a number, a points or percent offset, or an unknown spec kind. */
  datatype PriceSpec = AtMarket | Fixed(x: real) | PointsPrice(points: real) | PctPrice(pct: real) | OtherPriceKind

  /** A take-profit, stop-loss or trailing-stop offset (`pct` already scaled to a fraction). */
  datatype Offset = Points(points: real) | Pct(pct: real) | OtherKind

  datatype Order = Order(
    id: nat,
    status: Status,
    /** The trade (fill event identity) a take-profit / stop-loss order closes. */
    parent: Option<nat>,
    instrument: Inst,
    date: Date,
    units: real,
    price: real,
    takeProfit: Option<real>,
    stopLoss: Option<real>,
    trailingStop: Option<real>,
    trailingCalc: Option<Offset>,
    execType: ExecType,
    orderType: OrderType,
    direction: real,
    perComm: real,
    perMargin: real,
    mult: real)

  /**
   * An event object (signal, order or fill event): its own identity and the
   * order object it wraps. Events created from one another share the order.
   */
  datatype Event = Event(eid: nat, oref: nat)

  /** The direction `set_order_type` records: 1.0 for exactly `'BUY'`, -1.0 for anything else. */
  function Direction(t: OrderType): (d: real)
    ensures d == 1.0 || d == -1.0
    ensures d == 1.0 <==> t == BUY
  {
    if t == BUY then 1.0 else -1.0
  }

  /** The direction the order data records: only `'BUY'` and `'SELL'` get one. */
  function DataDirection(t: OrderType): (d: Option<real>)
    ensures d.Some? <==> t in {BUY, SELL}
    ensures d.Some? ==> d.value == Direction(t)
  {
    match t
    case BUY => Some(1.0)
    case SELL => Some(-1.0)
    case _ => None
  }

  /** The execution reference price: the current bar's close in either mode. */
  function ModePrice(mode: ExecMode, close: real): (p: real)
    ensures p == close
  {
    match mode
    case OpenMode => close
    case CloseMode => close
  }

  /** `__set_price`: the absolute order price. */
  function ResolvePrice(spec: PriceSpec, mode: ExecMode, close: real): (r: Result<real>)
    ensures r.Err? <==> spec == OtherPriceKind
    ensures r.Err? ==> r.error == SyntaxError
  {
    var ref := ModePrice(mode, close);
    match spec
    case AtMarket => Ok(ref)
    case Fixed(x) => Ok(x)
    case PointsPrice(p) => Ok(p + ref)
    case PctPrice(p) => Ok(ref * p)
    case OtherPriceKind => Err(SyntaxError)
  }

  /** The magnitude an offset carries, for the `< 0` checks. */
  function Magnitude(o: Offset): real
  {
    match o
    case Points(p) => p
    case Pct(p) => p
    case OtherKind => 0.0
  }

  /** An offset is rejected when its kind is unknown or its magnitude is negative (zero is accepted). */
  predicate Rejected(o: Offset)
  {
    o.OtherKind? || Magnitude(o) < 0.0
  }

  /** `__set_take_profit`: price + points×direction, or price×(1 + pct×direction). */
  function TakeProfit(spec: Option<Offset>, price: real, dir: real): (r: Result<Option<real>>)
    ensures spec.None? ==> r == Ok(None)
    ensures spec.Some? ==> (r.Err? <==> Rejected(spec.value)) && (r.Ok? ==> r.value.Some?)
    ensures r.Err? ==> r.error == SyntaxError
    ensures r.Ok? && r.value.Some? && dir == 1.0 && price >= 0.0 ==> r.value.value >= price
    ensures r.Ok? && r.value.Some? && dir == -1.0 && price >= 0.0 ==> r.value.value <= price
  {
    match spec
    case None => Ok(None)
    case Some(Points(p)) => if p < 0.0 then Err(SyntaxError) else Ok(Some(price + p * dir))
    case Some(Pct(p)) => if p < 0.0 then Err(SyntaxError) else Ok(Some(price * (1.0 + p * dir)))
    case Some(OtherKind) => Err(SyntaxError)
  }

  /** `__set_stop_loss`: price − points×direction, or price×(1 − pct×direction). */
  function StopLoss(spec: Option<Offset>, price: real, dir: real): (r: Result<Option<real>>)
    ensures spec.None? ==> r == Ok(None)
    ensures spec.Some? ==> (r.Err? <==> Rejected(spec.value)) && (r.Ok? ==> r.value.Some?)
    ensures r.Err? ==> r.error == SyntaxError
    ensures r.Ok? && r.value.Some? && dir == 1.0 && price >= 0.0 ==> r.value.value <= price
    ensures r.Ok? && r.value.Some? && dir == -1.0 && price >= 0.0 ==> r.value.value >= price
  {
    match spec
    case None => Ok(None)
    case Some(Points(p)) => if p < 0.0 then Err(SyntaxError) else Ok(Some(price - p * dir))
    case Some(Pct(p)) => if p < 0.0 then Err(SyntaxError) else Ok(Some(price * (1.0 - p * dir)))
    case Some(OtherKind) => Err(SyntaxError)
  }

  /** `__set_trailing_stop`: the initial trailing stop, computed from the resolved price. */
  function InitialTrailingStop(spec: Option<Offset>, price: real, dir: real): (r: Result<Option<real>>)
    ensures spec.None? ==> r == Ok(None)
    ensures r.Err? ==> r.error == SyntaxError
  {
    match spec
    case None => Ok(None)
    case Some(Points(p)) => if p < 0.0 then Err(SyntaxError) else Ok(Some(price - p * dir))
    case Some(Pct(p)) => if p < 0.0 then Err(SyntaxError) else Ok(Some(price * (1.0 - p * dir)))
    case Some(OtherKind) => Err(SyntaxError)
  }

  /** The initial trailing stop is placed exactly where a stop-loss with the same offset would be. */
  lemma InitialTrailingIsStopLoss(spec: Option<Offset>, price: real, dir: real)
    ensures InitialTrailingStop(spec, price, dir) == StopLoss(spec, price, dir)
  {
  }

  /** A zero offset is accepted and puts take-profit and stop-loss at the order price. */
  lemma ZeroOffsetAccepted(price: real, dir: real)
    ensures TakeProfit(Some(Points(0.0)), price, dir) == Ok(Some(price))
    ensures StopLoss(Some(Points(0.0)), price, dir) == Ok(Some(price))
    ensures TakeProfit(Some(Pct(0.0)), price, dir) == Ok(Some(price))
    ensures StopLoss(Some(Pct(0.0)), price, dir) == Ok(Some(price))
  {
  }

  /**
   * `__set_order_data`'s classification of an order against the reference
   * price; a CLOSE_ALL order keeps its type.
   */
  function Classify(current: ExecType, t: OrderType, price: real, ref: real): (e: ExecType)
    ensures current == CloseAll ==> e == CloseAll
    ensures current != CloseAll ==> e in {Market, Limit, Stop}
    ensures current != CloseAll ==> (e == Market <==> price == ref)
    ensures current != CloseAll ==> (e == Stop <==> (t == BUY && price > ref) || (t != BUY && price < ref))
    ensures current != CloseAll ==> (e == Limit <==> (t == BUY && price < ref) || (t != BUY && price > ref))
  {
    if current == CloseAll then CloseAll
    else if price > ref then (if t == BUY then Stop else Limit)
    else if price < ref then (if t == BUY then Limit else Stop)
    else Market
  }

  /** Away from the reference price, a buy and a sell at the same price get opposite resting types. */
  lemma ClassifySidesMirror(price: real, ref: real)
    requires price != ref
    ensures Classify(Unset, BUY, price, ref) == Stop <==> Classify(Unset, SELL, price, ref) == Limit
    ensures Classify(Unset, BUY, price, ref) == Limit <==> Classify(Unset, SELL, price, ref) == Stop
  {
  }

  /**
   * The exception the order data raises when it has no direction: the first
   * offset given decides, a rejected one raising `SyntaxError` before the
   * direction is read and an accepted one `AttributeError` when it is; with
   * no offset the copy onto the order raises `AttributeError`.
   */
  function NoDirectionError(tp: Option<Offset>, sl: Option<Offset>, ts: Option<Offset>): (e: Exc)
    ensures e in {SyntaxError, AttributeError}
    ensures tp.Some? ==> (e == SyntaxError <==> Rejected(tp.value))
    ensures tp.None? && sl.Some? ==> (e == SyntaxError <==> Rejected(sl.value))
    ensures tp.None? && sl.None? && ts.Some? ==> (e == SyntaxError <==> Rejected(ts.value))
    ensures tp.None? && sl.None? && ts.None? ==> e == AttributeError
  {
    match (tp, sl, ts)
    case (Some(x), _, _) => if Rejected(x) then SyntaxError else AttributeError
    case (None, Some(x), _) => if Rejected(x) then SyntaxError else AttributeError
    case (None, None, Some(x)) => if Rejected(x) then SyntaxError else AttributeError
    case (None, None, None) => AttributeError
  }

  /**
   * `Order.execute`: the order data computed from the strategy's arguments,
   * copied onto the order and classified. A side other than `'BUY'` or
   * `'SELL'` leaves the order data without a direction, which the copy
   * (`AttributeError`) cannot read.
   */
  function Execute(o: Order, instrument: Option<Inst>, units: real, price: PriceSpec,
                   tp: Option<Offset>, sl: Option<Offset>, ts: Option<Offset>,
                   mode: ExecMode, date: Date, close: real): (r: Result<Order>)
    ensures r.Ok? ==> o.orderType in {BUY, SELL}
    ensures r.Ok? ==> r.value.direction == Direction(o.orderType) && r.value.units == units
    ensures r.Ok? ==> ResolvePrice(price, mode, close) == Ok(r.value.price)
    ensures r.Ok? ==> r.value.execType == Classify(o.execType, o.orderType, r.value.price, close)
    ensures r.Ok? ==> r.value.id == o.id && r.value.status == o.status && r.value.parent == o.parent
    ensures r.Ok? ==> r.value.orderType == o.orderType
    ensures r.Ok? ==> r.value.instrument == (if instrument.Some? then instrument.value else o.instrument)
    ensures price != OtherPriceKind && o.orderType !in {BUY, SELL} ==> r == Err(NoDirectionError(tp, sl, ts))
    ensures r.Ok? ==> r.value.date == date && r.value.trailingCalc == ts
    ensures r.Ok? ==> TakeProfit(tp, r.value.price, r.value.direction) == Ok(r.value.takeProfit)
    ensures r.Ok? ==> StopLoss(sl, r.value.price, r.value.direction) == Ok(r.value.stopLoss)
    ensures r.Ok? ==> InitialTrailingStop(ts, r.value.price, r.value.direction) == Ok(r.value.trailingStop)
    ensures ResolvePrice(price, mode, close).Err? ==> r == Err(ResolvePrice(price, mode, close).error)
    ensures o.orderType in {BUY, SELL} && ResolvePrice(price, mode, close).Ok? ==>
      var p, dir := ResolvePrice(price, mode, close).value, Direction(o.orderType);
      (r.Err? <==> TakeProfit(tp, p, dir).Err? || StopLoss(sl, p, dir).Err? || InitialTrailingStop(ts, p, dir).Err?)
    ensures r.Err? && o.orderType in {BUY, SELL} && ResolvePrice(price, mode, close).Ok? ==> r.error == SyntaxError
  {
    var inst := if instrument.Some? then instrument.value else o.instrument;
    match ResolvePrice(price, mode, close)
    case Err(e) => Err(e)
    case Ok(p) =>
      match DataDirection(o.orderType)
      case None => Err(NoDirectionError(tp, sl, ts))
      case Some(dir) =>
        match TakeProfit(tp, p, dir)
        case Err(e) => Err(e)
        case Ok(tpv) =>
          match StopLoss(sl, p, dir)
          case Err(e) => Err(e)
          case Ok(slv) =>
            match InitialTrailingStop(ts, p, dir)
            case Err(e) => Err(e)
            case Ok(tsv) =>
              Ok(o.(instrument := inst, direction := dir, date := date, units := units, price := p,
                    takeProfit := tpv, stopLoss := slv, trailingStop := tsv, trailingCalc := ts,
                    execType := Classify(o.execType, o.orderType, p, ModePrice(mode, close))))
  }

  /** `__get_trailing_price`: the larger candidate for a buy, the smaller for a sell. */
  function TrailingPrice(t: OrderType, candidate: real, prev: real): (r: Option<real>)
    ensures r.Some? <==> t in {BUY, SELL}
    ensures t == BUY ==> r.value >= candidate && r.value >= prev && (r.value == candidate || r.value == prev)
    ensures t == SELL ==> r.value <= candidate && r.value <= prev && (r.value == candidate || r.value == prev)
  {
    match t
    case BUY => Some(if candidate > prev then candidate else prev)
    case SELL => Some(if candidate < prev then candidate else prev)
    case _ => None
  }

  /** A stop `points` away from `price`, on the losing side of a position with direction `dir`. */
  function StopBelow(price: real, points: real, dir: real): real
  {
    price - points * dir
  }

  /**
   * `update_trailing_stop`: only the points spec works; the percent branch
   * multiplies the spec object itself and raises `TypeError`; with no spec
   * the stop is left as it is.
   */
  function UpdateTrailingStop(tsSpec: Option<Offset>, t: OrderType, dir: real, cur: real, prev: Option<real>): (r: Result<Option<real>>)
    ensures tsSpec.None? ==> r == Ok(prev)
    ensures tsSpec.Some? && tsSpec.value.Pct? ==> r == Err(TypeError)
    ensures tsSpec.Some? && tsSpec.value.Points? && prev.Some? ==>
      r == Ok(TrailingPrice(t, StopBelow(cur, tsSpec.value.points, dir), prev.value))
  {
    if tsSpec.None? then Ok(prev)
    else match tsSpec.value
      case Points(p) =>
        if prev.None? then Err(TypeError) else Ok(TrailingPrice(t, StopBelow(cur, p, dir), prev.value))
      case Pct(_) => Err(TypeError)
      case OtherKind => Err(SyntaxError)
  }

  /** The trailing stop never loosens: up or unchanged for a buy, down or unchanged for a sell. */
  lemma TrailingNeverLoosens(tsSpec: Option<Offset>, t: OrderType, dir: real, cur: real, prev: real)
    requires UpdateTrailingStop(tsSpec, t, dir, cur, Some(prev)).Ok?
    requires UpdateTrailingStop(tsSpec, t, dir, cur, Some(prev)).value.Some?
    ensures t == BUY ==> UpdateTrailingStop(tsSpec, t, dir, cur, Some(prev)).value.value >= prev
    ensures t == SELL ==> UpdateTrailingStop(tsSpec, t, dir, cur, Some(prev)).value.value <= prev
  {
  }

  /**
   * An order as `OrderBase.__init__` leaves it: a fresh id, status CREATED,
   * no parent, the market event's instrument and contract parameters; the
   * remaining fields are filled in by `Execute`.
   */
  function Blank(id: nat, t: OrderType, e: ExecType, inst: Inst, perComm: real, perMargin: real, mult: real): (o: Order)
    ensures o.id == id && o.status == Created && o.parent.None? && o.orderType == t && o.execType == e
  {
    Order(id, Created, None, inst, Start, 0.0, 0.0, None, None, None, None, e, t, Direction(t), perComm, perMargin, mult)
  }

  /**
   * The order objects of a run, addressed by reference so that the events
   * that share one order see each other's updates, together with the
   * `unique_id` counter every order draws its id from.
   */
  class Book {
    var orders: map<nat, Order>
    var nextRef: nat
    /** The next value `next(unique_id)` returns; the counter starts at 1. */
    var nextId: nat
    /** The identity the next event object receives. */
    var nextEid: nat

    ghost predicate Valid()
      reads this
    {
      nextId >= 1
      && (forall r :: r in orders ==> r < nextRef)
      && (forall r :: r in orders ==> 1 <= orders[r].id < nextId)
    }

    constructor ()
      ensures Valid() && orders == map[] && nextRef == 0 && nextId == 1 && nextEid == 0
    {
      orders := map[];
      nextRef := 0;
      nextId := 1;
      nextEid := 0;
    }

    /** `next(self.unique_id)`: ids strictly increase, from 1, across all orders. */
    method NextId() returns (id: nat)
      requires Valid()
      modifies this`nextId
      ensures Valid() && id == old(nextId) && nextId == id + 1 && id >= 1
    {
      id := nextId;
      nextId := nextId + 1;
    }

    /** Stores a new order object and returns its reference. */
    method Alloc(o: Order) returns (r: nat)
      requires Valid() && 1 <= o.id < nextId
      modifies this`orders, this`nextRef
      ensures Valid() && r == old(nextRef) && r !in old(orders)
      ensures orders == old(orders)[r := o] && nextRef == r + 1
    {
      r := nextRef;
      orders := orders[r := o];
      nextRef := nextRef + 1;
    }

    /** A new event object wrapping the order `r`, with an identity no earlier event has. */
    method NewEvent(r: nat) returns (e: Event)
      modifies this`nextEid
      ensures e == Event(old(nextEid), r) && nextEid == old(nextEid) + 1
    {
      e := Event(nextEid, r);
      nextEid := nextEid + 1;
    }

    /** Overwrites the order object `r` (a setter called on it, or on an event wrapping it). */
    method Put(r: nat, o: Order)
      requires Valid() && r in orders && 1 <= o.id < nextId
      modifies this`orders
      ensures Valid() && orders == old(orders)[r := o]
    {
      orders := orders[r := o];
    }
  }
}
