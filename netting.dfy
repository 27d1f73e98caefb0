/**
 * Netting a fill against the resting trades of `_update_trade_list`: the
 * walk over the trade list, the realized profit booked per match, and the
 * closing of a take-profit / stop-loss / trailing-stop order's parent.
 */
module Netting {
  import opened Wrappers
  import opened PySeq
  import opened DataSeries
  import opened Orders
  import opened Ledger

  /** Realized profit of closing `units` of a trade opened at `tradePrice` with direction `dir`. */
  function Profit(fillPrice: real, tradePrice: real, units: real, mult: real, dir: real): (p: real)
    ensures fillPrice == tradePrice ==> p == 0.0
    ensures units > 0.0 && mult > 0.0 && dir == 1.0 ==> (p > 0.0 <==> fillPrice > tradePrice)
    ensures units > 0.0 && mult > 0.0 && dir == -1.0 ==> (p > 0.0 <==> fillPrice < tradePrice)
  {
    (fillPrice - tradePrice) * units * mult * dir
  }

  /**
   * `get_re_profit` on the realized list: the profit is appended under the
   * fill's date and, when the record before it carries the same date, the
   * two are merged into one record holding their sum.
   */
  function Booked(s: seq<Rec>, d: Date, p: real): (t: seq<Rec>)
    requires |s| > 0
    ensures |t| > 0
    ensures s[|s| - 1].date == d ==>
      |t| == |s| && t[..|s| - 1] == s[..|s| - 1]
      && t[|s| - 1].date == d && t[|s| - 1].value == s[|s| - 1].value + p
    ensures s[|s| - 1].date != d ==> t == s + [Rec(d, p, p, p)]
  {
    var a := s + [Rec(d, p, p, p)];
    if a[|a| - 2].date == d then
      DroppedPenultimate(a[..|a| - 1] + [a[|a| - 1].(value := a[|a| - 1].value + a[|a| - 2].value)])
    else a
  }

  /** Every booking raises the realized total by exactly the booked profit. */
  lemma {:induction false} BookedSum(s: seq<Rec>, d: Date, p: real)
    requires |s| > 0
    ensures Sum(Values(Booked(s, d, p))) == Sum(Values(s)) + p
  {
    var t := Booked(s, d, p);
    var n := |s| - 1;
    if s[n].date == d {
      assert Values(t) == Values(s[..n]) + [s[n].value + p];
      assert Values(s) == Values(s[..n]) + [s[n].value];
      SumAppend(Values(s[..n]), s[n].value + p);
      SumAppend(Values(s[..n]), s[n].value);
    } else {
      assert Values(t) == Values(s) + [p];
      SumAppend(Values(s), p);
    }
  }

  /**
   * The state of the walk: the hidden index of Python's `for` loop, the
   * trade list, the order objects, the completed (trade order, fill order)
   * pairs and the current instrument's realized records.
   */
  datatype Walk = Walk(k: nat, trades: seq<Event>, orders: map<nat, Order>,
                       completed: seq<(nat, nat)>, realized: seq<Rec>)

  ghost predicate WalkOk(f: Event, w: Walk)
  {
    f.oref in w.orders
    && (forall e :: e in w.trades ==> e.oref in w.orders)
    && |w.realized| > 0
    && w.k <= |w.trades| + 1
  }

  /** `b` holds the same order objects as `a`, with at most their units changed. */
  ghost predicate OnlyUnits(a: map<nat, Order>, b: map<nat, Order>)
  {
    a.Keys == b.Keys && forall x :: x in a ==> b[x] == a[x].(units := b[x].units)
  }

  /** Whether the trade `i` is one the fill nets against: same instrument, the opposite `side`. */
  predicate Matches(side: OrderType, fo: Order, io: Order)
  {
    fo.instrument == io.instrument && io.orderType == side
  }

  /**
   * A resting trade larger than the fill: it is popped, reduced by the
   * fill's units and put back at the same index; the fill's units drop to 0.
   */
  function ReduceTrade(f: Event, w: Walk): (r: Walk)
    requires WalkOk(f, w) && w.k < |w.trades|
    ensures WalkOk(f, r) && r.k == w.k + 1
    ensures r.completed == w.completed + [(w.trades[w.k].oref, f.oref)]
    ensures r.orders.Keys == w.orders.Keys
    ensures r.orders[f.oref].units == 0.0
    ensures f.oref != w.trades[w.k].oref ==>
      r.orders[w.trades[w.k].oref].units == w.orders[w.trades[w.k].oref].units - w.orders[f.oref].units
    ensures f.oref != w.trades[w.k].oref && w.orders[w.trades[w.k].oref].units > w.orders[f.oref].units ==>
      r.trades == w.trades
    ensures forall x :: x in w.orders ==>
      r.orders[x].instrument == w.orders[x].instrument && r.orders[x].orderType == w.orders[x].orderType
  {
    var i := w.trades[w.k];
    var o1 := w.orders[i.oref := w.orders[i.oref].(units := w.orders[i.oref].units - w.orders[f.oref].units)];
    var f1 := o1[f.oref];
    var i1 := o1[i.oref];
    var p := Profit(f1.price, i1.price, f1.units, f1.mult, i1.direction);
    var o2 := o1[f.oref := f1.(units := 0.0)];
    var rest := if o2[i.oref].units != 0.0 then w.trades else RemoveAt(w.trades, w.k);
    assert forall e :: e in rest ==> e in w.trades;
    Walk(w.k + 1, rest, o2, w.completed + [(i.oref, f.oref)], Booked(w.realized, f1.date, p))
  }

  /**
   * A resting trade no larger than the fill: it is removed and its units are
   * subtracted from the fill. The index still advances, so the trade that
   * slid into its place is not visited.
   */
  function RemoveTrade(f: Event, w: Walk): (r: Walk)
    requires WalkOk(f, w) && w.k < |w.trades|
    ensures WalkOk(f, r) && r.k == w.k + 1
    ensures r.trades == RemoveAt(w.trades, w.k)
    ensures r.completed == w.completed + [(w.trades[w.k].oref, f.oref)]
    ensures r.orders == w.orders[f.oref := w.orders[f.oref].(units := w.orders[f.oref].units - w.orders[w.trades[w.k].oref].units)]
  {
    var i := w.trades[w.k];
    var fo := w.orders[f.oref];
    var io := w.orders[i.oref];
    var p := Profit(fo.price, io.price, io.units, fo.mult, io.direction);
    var rest := RemoveAt(w.trades, w.k);
    assert forall e :: e in rest ==> e in w.trades;
    Walk(w.k + 1, rest, w.orders[f.oref := fo.(units := fo.units - io.units)],
         w.completed + [(i.oref, f.oref)], Booked(w.realized, fo.date, p))
  }

  /**
   * The netting walk as the source runs it: Python's `for` over a list that
   * the body shrinks, stopping at the first matching trade once the fill has
   * no units left.
   */
  function Net(side: OrderType, f: Event, w: Walk): (r: Walk)
    requires WalkOk(f, w)
    ensures WalkOk(f, r)
    decreases |w.trades| + 1 - w.k
  {
    if w.k >= |w.trades| then w
    else
      var i := w.trades[w.k];
      var fo := w.orders[f.oref];
      var io := w.orders[i.oref];
      if !Matches(side, fo, io) then Net(side, f, w.(k := w.k + 1))
      else if fo.units == 0.0 then w
      else if io.units > fo.units then Net(side, f, ReduceTrade(f, w))
      else Net(side, f, RemoveTrade(f, w))
  }

  /** `b` is `a` followed by pairs that all carry the fill's order `fref`. */
  ghost predicate Extends(a: seq<(nat, nat)>, b: seq<(nat, nat)>, fref: nat)
  {
    |a| <= |b| && b[..|a|] == a && forall j :: |a| <= j < |b| ==> b[j].1 == fref
  }

  lemma ExtendsTrans(a: seq<(nat, nat)>, b: seq<(nat, nat)>, c: seq<(nat, nat)>, fref: nat)
    requires Extends(a, b, fref) && Extends(b, c, fref)
    ensures Extends(a, c, fref)
  {
    assert c[..|a|] == c[..|b|][..|a|];
  }

  /** The walk only ever appends completed pairs, and each of them carries the fill's order. */
  lemma {:induction false} NetAppendsPairs(side: OrderType, f: Event, w: Walk)
    requires WalkOk(f, w)
    ensures Extends(w.completed, Net(side, f, w).completed, f.oref)
    decreases |w.trades| + 1 - w.k
  {
    if w.k < |w.trades| {
      var i := w.trades[w.k];
      var fo := w.orders[f.oref];
      var io := w.orders[i.oref];
      if !Matches(side, fo, io) {
        NetAppendsPairs(side, f, w.(k := w.k + 1));
      } else if fo.units != 0.0 {
        var w1 := if io.units > fo.units then ReduceTrade(f, w) else RemoveTrade(f, w);
        assert w1.completed == w.completed + [(i.oref, f.oref)];
        assert Extends(w.completed, w1.completed, f.oref);
        NetAppendsPairs(side, f, w1);
        ExtendsTrans(w.completed, w1.completed, Net(side, f, w1).completed, f.oref);
      }
    }
  }

  /** The walk with the index held after a removal, so that every trade is visited. */
  function NetCorrected(side: OrderType, f: Event, w: Walk): (r: Walk)
    requires WalkOk(f, w)
    ensures WalkOk(f, r)
    decreases |w.trades| + 1 - w.k
  {
    if w.k >= |w.trades| then w
    else
      var i := w.trades[w.k];
      var fo := w.orders[f.oref];
      var io := w.orders[i.oref];
      if !Matches(side, fo, io) then NetCorrected(side, f, w.(k := w.k + 1))
      else if fo.units == 0.0 then w
      else if io.units > fo.units then NetCorrected(side, f, ReduceTrade(f, w))
      else NetCorrected(side, f, RemoveTrade(f, w).(k := w.k))
  }

  /** No trade before the walk's index is one the fill still has units to net against. */
  ghost predicate Settled(side: OrderType, f: Event, w: Walk)
    requires WalkOk(f, w)
  {
    w.orders[f.oref].units == 0.0
    || forall j :: 0 <= j < w.k && j < |w.trades| ==> !Matches(side, w.orders[f.oref], w.orders[w.trades[j].oref])
  }

  /**
   * With the index held after removals, netting leaves either a fill with
   * no units or no resting trade it could still net against.
   */
  lemma {:induction false} NetCorrectedSettles(side: OrderType, f: Event, w: Walk)
    requires WalkOk(f, w) && Settled(side, f, w)
    requires forall e :: e in w.trades ==> e.oref != f.oref
    ensures var r := NetCorrected(side, f, w);
      r.orders[f.oref].units == 0.0
      || forall e :: e in r.trades ==> !Matches(side, r.orders[f.oref], r.orders[e.oref])
    decreases |w.trades| + 1 - w.k
  {
    if w.k >= |w.trades| {
      if w.orders[f.oref].units != 0.0 {
        forall e | e in w.trades
          ensures !Matches(side, w.orders[f.oref], w.orders[e.oref])
        {
          var j :| 0 <= j < |w.trades| && w.trades[j] == e;
        }
      }
    } else {
      var i := w.trades[w.k];
      var fo := w.orders[f.oref];
      var io := w.orders[i.oref];
      if !Matches(side, fo, io) {
        NetCorrectedSettles(side, f, w.(k := w.k + 1));
      } else if fo.units == 0.0 {
      } else if io.units > fo.units {
        var w1 := ReduceTrade(f, w);
        assert w1.orders[f.oref].units == 0.0;
        assert forall e :: e in w1.trades ==> e in w.trades;
        NetCorrectedSettles(side, f, w1);
      } else {
        RemoveKeepsSettled(side, f, w);
        NetCorrectedSettles(side, f, RemoveTrade(f, w).(k := w.k));
      }
    }
  }

  /** Removing a matching trade at the index, which is then held, keeps the trades before it settled. */
  lemma RemoveKeepsSettled(side: OrderType, f: Event, w: Walk)
    requires WalkOk(f, w) && Settled(side, f, w) && w.k < |w.trades|
    requires forall e :: e in w.trades ==> e.oref != f.oref
    requires w.orders[f.oref].units != 0.0
    ensures var w1 := RemoveTrade(f, w).(k := w.k);
      WalkOk(f, w1) && Settled(side, f, w1) && forall e :: e in w1.trades ==> e.oref != f.oref
  {
    var w1 := RemoveTrade(f, w).(k := w.k);
    assert w1.orders[f.oref].instrument == w.orders[f.oref].instrument;
    forall x | x in w.orders
      ensures w1.orders[x].instrument == w.orders[x].instrument && w1.orders[x].orderType == w.orders[x].orderType
    {
    }
    assert forall e :: e in w1.trades ==> e in w.trades;
    if w1.orders[f.oref].units != 0.0 {
      forall j | 0 <= j < w1.k && j < |w1.trades|
        ensures !Matches(side, w1.orders[f.oref], w1.orders[w1.trades[j].oref])
      {
        assert w1.trades[j] == w.trades[j];
        assert !Matches(side, w.orders[f.oref], w.orders[w.trades[j].oref]);
      }
    }
  }

  /** One step of the corrected walk, unfolded. */
  lemma NetCorrectedUnfold(side: OrderType, f: Event, w: Walk)
    requires WalkOk(f, w) && w.k < |w.trades|
    ensures var fo := w.orders[f.oref];
      var io := w.orders[w.trades[w.k].oref];
      NetCorrected(side, f, w) ==
        if !Matches(side, fo, io) then NetCorrected(side, f, w.(k := w.k + 1))
        else if fo.units == 0.0 then w
        else if io.units > fo.units then NetCorrected(side, f, ReduceTrade(f, w))
        else NetCorrected(side, f, RemoveTrade(f, w).(k := w.k))
  {
  }

  /** `ReduceTrade` spelled out as the loop body performs it: pop, reduce, book, zero, re-insert. */
  lemma ReduceTradeSpelled(f: Event, w: Walk)
    requires WalkOk(f, w) && w.k < |w.trades|
    ensures var i := w.trades[w.k];
      var o1 := w.orders[i.oref := w.orders[i.oref].(units := w.orders[i.oref].units - w.orders[f.oref].units)];
      var popped := RemoveAt(w.trades, w.k);
      ReduceTrade(f, w) == Walk(w.k + 1,
        if o1[i.oref].units != 0.0 then InsertAt(popped, w.k, i) else popped,
        o1[f.oref := o1[f.oref].(units := 0.0)],
        w.completed + [(i.oref, f.oref)],
        Booked(w.realized, o1[f.oref].date,
               Profit(o1[f.oref].price, o1[i.oref].price, o1[f.oref].units, o1[f.oref].mult, o1[i.oref].direction)))
  {
    PopThenInsert(w.trades, w.k);
  }

  /**
   * The body of the netting loop for a resting trade larger than the fill:
   * the trade is popped, reduced by the fill's units, the fill's units are
   * booked as realized profit and zeroed, and the reduced trade goes back
   * to its index.
   */
  method ReduceStep(f: Event, k: nat, trades: seq<Event>, orders: map<nat, Order>,
                    pairs: seq<(nat, nat)>, realized: seq<Rec>)
    returns (trades': seq<Event>, orders': map<nat, Order>, pairs': seq<(nat, nat)>, realized': seq<Rec>)
    requires WalkOk(f, Walk(k, trades, orders, pairs, realized)) && k < |trades|
    ensures Walk(k + 1, trades', orders', pairs', realized') == ReduceTrade(f, Walk(k, trades, orders, pairs, realized))
  {
    ReduceTradeSpelled(f, Walk(k, trades, orders, pairs, realized));
    var i := trades[k];
    trades' := RemoveAt(trades, k);
    pairs' := pairs + [(i.oref, f.oref)];
    var reduced := orders[i.oref := orders[i.oref].(units := orders[i.oref].units - orders[f.oref].units)];
    var f1 := reduced[f.oref];
    var i1 := reduced[i.oref];
    realized' := Booked(realized, f1.date, Profit(f1.price, i1.price, f1.units, f1.mult, i1.direction));
    orders' := reduced[f.oref := f1.(units := 0.0)];
    if i1.units != 0.0 {
      trades' := InsertAt(trades', k, i);
    }
  }

  /**
   * The body of the netting loop for a resting trade no larger than the
   * fill: the trade is removed, its units are booked and taken off the fill.
   */
  method RemoveStep(f: Event, k: nat, trades: seq<Event>, orders: map<nat, Order>,
                    pairs: seq<(nat, nat)>, realized: seq<Rec>)
    returns (trades': seq<Event>, orders': map<nat, Order>, pairs': seq<(nat, nat)>, realized': seq<Rec>)
    requires WalkOk(f, Walk(k, trades, orders, pairs, realized)) && k < |trades|
    ensures Walk(k + 1, trades', orders', pairs', realized') == RemoveTrade(f, Walk(k, trades, orders, pairs, realized))
  {
    var i := trades[k];
    var fo := orders[f.oref];
    var io := orders[i.oref];
    trades' := RemoveAt(trades, k);
    pairs' := pairs + [(i.oref, f.oref)];
    realized' := Booked(realized, fo.date, Profit(fo.price, io.price, io.units, fo.mult, io.direction));
    orders' := orders[f.oref := fo.(units := fo.units - io.units)];
  }

  /**
   * The netting `for` loop of `_update_trade_list` with the index held after
   * a removal: the walk `NetCorrected` describes, step by step on the trade
   * list, the orders, the completed pairs and the realized records.
   */
  method NetWalk(side: OrderType, f: Event, w0: Walk) returns (r: Walk)
    requires WalkOk(f, w0)
    ensures r == NetCorrected(side, f, w0)
  {
    var k: nat, trades: seq<Event>, orders: map<nat, Order> := w0.k, w0.trades, w0.orders;
    var pairs: seq<(nat, nat)>, realized: seq<Rec> := w0.completed, w0.realized;
    while k < |trades|
      invariant WalkOk(f, Walk(k, trades, orders, pairs, realized))
      invariant NetCorrected(side, f, Walk(k, trades, orders, pairs, realized)) == NetCorrected(side, f, w0)
      decreases |trades| + 1 - k
    {
      NetCorrectedUnfold(side, f, Walk(k, trades, orders, pairs, realized));
      var fo := orders[f.oref];
      var io := orders[trades[k].oref];
      if Matches(side, fo, io) {
        if fo.units == 0.0 {
          break;
        }
        if io.units > fo.units {
          trades, orders, pairs, realized := ReduceStep(f, k, trades, orders, pairs, realized);
          k := k + 1;
        } else {
          // the index is held: the next trade has slid into place `k`
          trades, orders, pairs, realized := RemoveStep(f, k, trades, orders, pairs, realized);
        }
      } else {
        k := k + 1;
      }
    }
    r := Walk(k, trades, orders, pairs, realized);
  }

  /**
   * `_update_trade_list` for a take-profit / stop-loss / trailing-stop fill:
   * the trade that is the fill's parent is removed, one pair is recorded and
   * the fill's units become 0; no realized profit is booked.
   */
  function CloseParent(f: Event, w: Walk): (r: Walk)
    requires WalkOk(f, w)
    ensures WalkOk(f, r) && r.realized == w.realized
    decreases |w.trades| + 1 - w.k
  {
    if w.k >= |w.trades| then w
    else
      var i := w.trades[w.k];
      if w.orders[f.oref].parent == Some(i.eid) then
        var rest := RemoveAt(w.trades, w.k);
        assert forall e :: e in rest ==> e in w.trades;
        CloseParent(f, Walk(w.k + 1, rest, w.orders[f.oref := w.orders[f.oref].(units := 0.0)],
                            w.completed + [(i.oref, f.oref)], w.realized))
      else CloseParent(f, w.(k := w.k + 1))
  }

  /** The parent-closing `for` loop of `_update_trade_list`, step by step: the walk `CloseParent` describes. */
  method CloseWalk(f: Event, w0: Walk) returns (r: Walk)
    requires WalkOk(f, w0)
    ensures r == CloseParent(f, w0)
  {
    var k: nat, trades: seq<Event>, orders: map<nat, Order> := w0.k, w0.trades, w0.orders;
    var pairs: seq<(nat, nat)> := w0.completed;
    while k < |trades|
      invariant WalkOk(f, Walk(k, trades, orders, pairs, w0.realized))
      invariant CloseParent(f, Walk(k, trades, orders, pairs, w0.realized)) == CloseParent(f, w0)
      decreases |trades| + 1 - k
    {
      var i := trades[k];
      if orders[f.oref].parent == Some(i.eid) {
        // the parent trade is removed, recorded with the fill, and the fill's units drop to 0
        ghost var before := trades;
        trades := RemoveAt(trades, k);
        pairs := pairs + [(i.oref, f.oref)];
        orders := orders[f.oref := orders[f.oref].(units := 0.0)];
        assert forall e :: e in trades ==> e in before;
      }
      k := k + 1;
    }
    r := Walk(k, trades, orders, pairs, w0.realized);
  }

  /** The index of the trade whose identity is `eid`, if one is at or after `k`. */
  predicate ParentAt(trades: seq<Event>, eid: nat, j: nat)
  {
    j < |trades| && trades[j].eid == eid
  }

  /**
   * Closing a parent removes exactly the parent trade (event identities in
   * the list being distinct), records exactly one pair and zeroes the fill;
   * with no parent in the list nothing but the index changes.
   */
  lemma {:induction false} CloseParentExact(f: Event, w: Walk, j: nat)
    requires WalkOk(f, w) && w.k <= j
    requires forall a, b :: 0 <= a < b < |w.trades| ==> w.trades[a].eid != w.trades[b].eid
    requires w.orders[f.oref].parent.Some? && ParentAt(w.trades, w.orders[f.oref].parent.value, j)
    ensures var r := CloseParent(f, w);
      r.trades == RemoveAt(w.trades, j)
      && r.completed == w.completed + [(w.trades[j].oref, f.oref)]
      && r.orders == w.orders[f.oref := w.orders[f.oref].(units := 0.0)]
    decreases |w.trades| + 1 - w.k
  {
    var i := w.trades[w.k];
    if w.k == j {
      var w1 := Walk(w.k + 1, RemoveAt(w.trades, w.k), w.orders[f.oref := w.orders[f.oref].(units := 0.0)],
                     w.completed + [(i.oref, f.oref)], w.realized);
      assert forall e :: e in w1.trades ==> e in w.trades;
      CloseParentAbsent(f, w1);
    } else {
      assert w.orders[f.oref].parent != Some(i.eid);
      CloseParentExact(f, w.(k := w.k + 1), j);
    }
  }

  /** With no parent trade from the index on, the walk changes nothing but the index. */
  lemma {:induction false} CloseParentAbsent(f: Event, w: Walk)
    requires WalkOk(f, w)
    requires w.orders[f.oref].parent.Some? ==>
      forall j :: w.k <= j < |w.trades| ==> w.trades[j].eid != w.orders[f.oref].parent.value
    ensures var r := CloseParent(f, w);
      r.trades == w.trades && r.completed == w.completed && r.orders == w.orders
    decreases |w.trades| + 1 - w.k
  {
    if w.k < |w.trades| {
      CloseParentAbsent(f, w.(k := w.k + 1));
    }
  }

  /** The execute types of case four: the order closes the trade it was set on. */
  predicate IsExit(e: ExecType)
  {
    e == TakeProfitOrder || e == StopLossOrder || e == TrailingStopOrder
  }

  /**
   * `_update_trade_list`: an exit fill closes its parent; a BUY while short
   * nets against the SELL trades and a SELL while long against the BUY
   * trades; anything else leaves the lists alone. `lastPos` is the position
   * before the fill.
   */
  function Settle(f: Event, lastPos: real, w: Walk): (r: Walk)
    requires WalkOk(f, w)
    ensures WalkOk(f, r)
  {
    var fo := w.orders[f.oref];
    if IsExit(fo.execType) then CloseParent(f, w)
    else if fo.orderType == BUY && lastPos < 0.0 then NetCorrected(SELL, f, w)
    else if fo.orderType == SELL && lastPos > 0.0 then NetCorrected(BUY, f, w)
    else w
  }

  lemma OnlyUnitsTrans(a: map<nat, Order>, b: map<nat, Order>, c: map<nat, Order>)
    requires OnlyUnits(a, b) && OnlyUnits(b, c)
    ensures OnlyUnits(a, c)
  {
    forall x | x in a
      ensures c[x] == a[x].(units := c[x].units)
    {
      assert b[x] == a[x].(units := b[x].units);
    }
  }

  /** One step of either walk changes no order but in its units. */
  lemma StepOnlyUnits(f: Event, w: Walk)
    requires WalkOk(f, w) && w.k < |w.trades|
    ensures OnlyUnits(w.orders, ReduceTrade(f, w).orders)
    ensures OnlyUnits(w.orders, RemoveTrade(f, w).orders)
  {
    ReduceOnlyUnits(f, w);
    var o := RemoveTrade(f, w).orders;
    forall x | x in w.orders
      ensures o[x] == w.orders[x].(units := o[x].units)
    {
      if x != f.oref {
        assert o[x] == w.orders[x];
      }
    }
  }

  lemma ReduceOnlyUnits(f: Event, w: Walk)
    requires WalkOk(f, w) && w.k < |w.trades|
    ensures OnlyUnits(w.orders, ReduceTrade(f, w).orders)
  {
    var i := w.trades[w.k];
    var o1 := w.orders[i.oref := w.orders[i.oref].(units := w.orders[i.oref].units - w.orders[f.oref].units)];
    var o2 := o1[f.oref := o1[f.oref].(units := 0.0)];
    assert ReduceTrade(f, w).orders == o2;
    forall x | x in w.orders
      ensures o2[x] == w.orders[x].(units := o2[x].units)
    {
      if x != f.oref && x != i.oref {
        assert o2[x] == w.orders[x];
      }
    }
  }

  /**
   * Netting and closing a parent change no order object but in its units:
   * identities, ids, prices and sides stay as they were.
   */
  lemma {:induction false} SettleOnlyUnits(f: Event, lastPos: real, w: Walk)
    requires WalkOk(f, w)
    ensures OnlyUnits(w.orders, Settle(f, lastPos, w).orders)
  {
    var fo := w.orders[f.oref];
    if IsExit(fo.execType) {
      CloseParentOnlyUnits(f, w);
    } else if fo.orderType == BUY && lastPos < 0.0 {
      NetCorrectedOnlyUnits(SELL, f, w);
    } else if fo.orderType == SELL && lastPos > 0.0 {
      NetCorrectedOnlyUnits(BUY, f, w);
    }
  }

  lemma {:induction false} NetCorrectedOnlyUnits(side: OrderType, f: Event, w: Walk)
    requires WalkOk(f, w)
    ensures OnlyUnits(w.orders, NetCorrected(side, f, w).orders)
    decreases |w.trades| + 1 - w.k
  {
    if w.k < |w.trades| {
      var i := w.trades[w.k];
      var fo := w.orders[f.oref];
      var io := w.orders[i.oref];
      if !Matches(side, fo, io) {
        NetCorrectedOnlyUnits(side, f, w.(k := w.k + 1));
      } else if fo.units != 0.0 {
        StepOnlyUnits(f, w);
        var w1 := if io.units > fo.units then ReduceTrade(f, w) else RemoveTrade(f, w).(k := w.k);
        NetCorrectedOnlyUnits(side, f, w1);
        OnlyUnitsTrans(w.orders, w1.orders, NetCorrected(side, f, w1).orders);
      }
    }
  }

  lemma {:induction false} CloseParentOnlyUnits(f: Event, w: Walk)
    requires WalkOk(f, w)
    ensures OnlyUnits(w.orders, CloseParent(f, w).orders)
    decreases |w.trades| + 1 - w.k
  {
    if w.k < |w.trades| {
      var i := w.trades[w.k];
      if w.orders[f.oref].parent == Some(i.eid) {
        var rest := RemoveAt(w.trades, w.k);
        assert forall e :: e in rest ==> e in w.trades;
        var w1 := Walk(w.k + 1, rest, w.orders[f.oref := w.orders[f.oref].(units := 0.0)],
                       w.completed + [(i.oref, f.oref)], w.realized);
        CloseParentOnlyUnits(f, w1);
        OnlyUnitsTrans(w.orders, w1.orders, CloseParent(f, w1).orders);
      } else {
        CloseParentOnlyUnits(f, w.(k := w.k + 1));
      }
    }
  }

  /** A fill that is not an exit, made while flat, changes nothing: no trade is netted and no profit booked. */
  lemma SettleFlatKeeps(f: Event, w: Walk)
    requires WalkOk(f, w) && !IsExit(w.orders[f.oref].execType)
    ensures Settle(f, 0.0, w) == w
  {
  }

  /** The pending list and the walk after a fill has been filed. */
  datatype Filed = Filed(pending: seq<Event>, w: Walk)

  /**
   * `__to_list`: a LIMIT or STOP fill is parked on the pending list; any
   * other fill settles the trade list and then rests as a trade if it still
   * has units.
   */
  function Listed(f: Event, lastPos: real, w: Walk, pending: seq<Event>): (r: Filed)
    requires WalkOk(f, w)
    ensures WalkOk(f, r.w)
  {
    if Resting(w.orders[f.oref].execType) then Filed(pending + [f], w)
    else
      var s := Settle(f, lastPos, w);
      Filed(pending, if s.orders[f.oref].units != 0.0 then s.(trades := s.trades + [f]) else s)
  }

  /** Filing a fill changes no order object but in its units. */
  lemma ListedOnlyUnits(f: Event, lastPos: real, w: Walk, pending: seq<Event>)
    requires WalkOk(f, w)
    ensures OnlyUnits(w.orders, Listed(f, lastPos, w, pending).w.orders)
  {
    if !Resting(w.orders[f.oref].execType) {
      SettleOnlyUnits(f, lastPos, w);
    }
  }

  /**
   * Filing a fill keeps the orders' references and ids, and every listed
   * event still refers to a stored order.
   */
  lemma ListedKeepsOrders(f: Event, lastPos: real, w: Walk, pending: seq<Event>, nextRef: nat, nextId: nat)
    requires WalkOk(f, w) && forall e :: e in pending ==> e.oref in w.orders
    requires forall x :: x in w.orders ==> x < nextRef && 1 <= w.orders[x].id < nextId
    ensures var r := Listed(f, lastPos, w, pending);
      (forall x :: x in r.w.orders ==> x < nextRef)
      && (forall x :: x in r.w.orders ==> 1 <= r.w.orders[x].id < nextId)
      && (forall e :: e in r.pending ==> e.oref in r.w.orders)
      && (forall e :: e in r.w.trades ==> e.oref in r.w.orders)
  {
    var r := Listed(f, lastPos, w, pending);
    ListedOnlyUnits(f, lastPos, w, pending);
    forall x | x in r.w.orders
      ensures 1 <= r.w.orders[x].id < nextId
    {
      assert r.w.orders[x] == w.orders[x].(units := r.w.orders[x].units);
    }
  }

  /** A LIMIT or STOP fill goes to the pending list and changes nothing else. */
  lemma ListedParks(f: Event, lastPos: real, w: Walk, pending: seq<Event>)
    requires WalkOk(f, w) && Resting(w.orders[f.oref].execType)
    ensures Listed(f, lastPos, w, pending) == Filed(pending + [f], w)
  {
  }

  /**
   * An exit fill whose parent is resting removes exactly that trade, records
   * one pair and is not itself appended: its units are 0.
   */
  lemma {:induction false} ListedClosesParent(f: Event, lastPos: real, w: Walk, pending: seq<Event>, j: nat)
    requires WalkOk(f, w) && w.k == 0 && IsExit(w.orders[f.oref].execType)
    requires forall a, b :: 0 <= a < b < |w.trades| ==> w.trades[a].eid != w.trades[b].eid
    requires w.orders[f.oref].parent.Some? && ParentAt(w.trades, w.orders[f.oref].parent.value, j)
    ensures var r := Listed(f, lastPos, w, pending);
      r.pending == pending && r.w.trades == RemoveAt(w.trades, j)
      && r.w.completed == w.completed + [(w.trades[j].oref, f.oref)]
      && r.w.orders[f.oref].units == 0.0 && r.w.realized == w.realized
  {
    assert !Resting(w.orders[f.oref].execType);
    CloseParentExact(f, w, j);
  }

  /**
   * A fill that is neither resting nor an exit, made while flat, is
   * appended to the trade list as it is, when it has units.
   */
  lemma ListedFlatAppends(f: Event, w: Walk, pending: seq<Event>)
    requires WalkOk(f, w) && !Resting(w.orders[f.oref].execType) && !IsExit(w.orders[f.oref].execType)
    requires w.orders[f.oref].units != 0.0
    ensures Listed(f, 0.0, w, pending) == Filed(pending, w.(trades := w.trades + [f]))
  {
    SettleFlatKeeps(f, w);
  }

  /** The corrected walk, too, only appends completed pairs, each carrying the fill's order. */
  lemma {:induction false} NetCorrectedAppendsPairs(side: OrderType, f: Event, w: Walk)
    requires WalkOk(f, w)
    ensures Extends(w.completed, NetCorrected(side, f, w).completed, f.oref)
    decreases |w.trades| + 1 - w.k
  {
    if w.k < |w.trades| {
      var i := w.trades[w.k];
      var fo := w.orders[f.oref];
      var io := w.orders[i.oref];
      if !Matches(side, fo, io) {
        NetCorrectedAppendsPairs(side, f, w.(k := w.k + 1));
      } else if fo.units != 0.0 {
        var w1 := if io.units > fo.units then ReduceTrade(f, w) else RemoveTrade(f, w).(k := w.k);
        assert w1.completed == w.completed + [(i.oref, f.oref)];
        assert Extends(w.completed, w1.completed, f.oref);
        NetCorrectedAppendsPairs(side, f, w1);
        ExtendsTrans(w.completed, w1.completed, NetCorrected(side, f, w1).completed, f.oref);
      }
    }
  }

  /** An order of `units` lots on instrument "X" at price 0, for the example walks below. */
  function Lot(id: nat, t: OrderType, units: real): (o: Order)
    ensures o.units == units && o.orderType == t && o.instrument == "X"
  {
    Blank(id, t, Market, "X", 0.0, 0.0, 1.0).(units := units)
  }

  /**
   * Netting a BUY of 2 lots against two resting SELL trades of 1 lot: the
   * walk as written removes the first trade, steps over the second and
   * leaves the fill with 1 lot and the second trade still open.
   */
  lemma NetSkipsAfterRemoval()
    ensures var orders := map[0 := Lot(1, SELL, 1.0), 1 := Lot(2, SELL, 1.0), 2 := Lot(3, BUY, 2.0)];
      var w := Walk(0, [Event(1, 0), Event(2, 1)], orders, [], [Rec(Start, 0.0, 0.0, 0.0)]);
      var r := Net(SELL, Event(3, 2), w);
      r.trades == [Event(2, 1)] && r.orders[2].units == 1.0
  {
    var orders := map[0 := Lot(1, SELL, 1.0), 1 := Lot(2, SELL, 1.0), 2 := Lot(3, BUY, 2.0)];
    var f := Event(3, 2);
    var w := Walk(0, [Event(1, 0), Event(2, 1)], orders, [], [Rec(Start, 0.0, 0.0, 0.0)]);
    var w1 := RemoveTrade(f, w);
    assert w1.trades == [Event(2, 1)] && w1.k == 1;
    assert Net(SELL, f, w) == Net(SELL, f, w1);
  }

  /** One step of the corrected walk that removes a matching trade no larger than the fill. */
  lemma NetCorrectedRemoves(side: OrderType, f: Event, w: Walk)
    requires WalkOk(f, w) && w.k < |w.trades|
    requires Matches(side, w.orders[f.oref], w.orders[w.trades[w.k].oref]) && w.orders[f.oref].units != 0.0
    requires w.orders[w.trades[w.k].oref].units <= w.orders[f.oref].units
    ensures NetCorrected(side, f, w) == NetCorrected(side, f, RemoveTrade(f, w).(k := w.k))
  {
  }

  /** The corrected walk nets the same fill against both trades. */
  lemma NetCorrectedVisitsAll()
    ensures var orders := map[0 := Lot(1, SELL, 1.0), 1 := Lot(2, SELL, 1.0), 2 := Lot(3, BUY, 2.0)];
      var w := Walk(0, [Event(1, 0), Event(2, 1)], orders, [], [Rec(Start, 0.0, 0.0, 0.0)]);
      var r := NetCorrected(SELL, Event(3, 2), w);
      r.trades == [] && r.orders[2].units == 0.0
  {
    var orders := map[0 := Lot(1, SELL, 1.0), 1 := Lot(2, SELL, 1.0), 2 := Lot(3, BUY, 2.0)];
    var f := Event(3, 2);
    var w := Walk(0, [Event(1, 0), Event(2, 1)], orders, [], [Rec(Start, 0.0, 0.0, 0.0)]);
    NetCorrectedFirstTrade(w);
    NetCorrectedLastTrade(RemoveTrade(f, w).(k := 0));
  }

  /** The first step of the walk above: the first trade is removed and the fill is left with one unit. */
  lemma NetCorrectedFirstTrade(w: Walk)
    requires w == Walk(0, [Event(1, 0), Event(2, 1)],
                       map[0 := Lot(1, SELL, 1.0), 1 := Lot(2, SELL, 1.0), 2 := Lot(3, BUY, 2.0)],
                       [], [Rec(Start, 0.0, 0.0, 0.0)])
    ensures WalkOk(Event(3, 2), w) && w.k < |w.trades|
    ensures var w1 := RemoveTrade(Event(3, 2), w).(k := 0);
      NetCorrected(SELL, Event(3, 2), w) == NetCorrected(SELL, Event(3, 2), w1)
      && WalkOk(Event(3, 2), w1) && w1.k == 0 && w1.trades == [Event(2, 1)]
      && w1.orders[2] == Lot(3, BUY, 2.0).(units := 1.0) && w1.orders[1] == Lot(2, SELL, 1.0)
  {
    var f := Event(3, 2);
    NetCorrectedRemoves(SELL, f, w);
    var w1 := RemoveTrade(f, w).(k := 0);
    assert w1.trades == [Event(2, 1)];
  }

  /** The second step of the walk above: the one trade left is removed and the fill is used up. */
  lemma NetCorrectedLastTrade(w: Walk)
    requires WalkOk(Event(3, 2), w) && w.k == 0 && w.trades == [Event(2, 1)]
    requires w.orders[2] == Lot(3, BUY, 2.0).(units := 1.0) && w.orders[1] == Lot(2, SELL, 1.0)
    ensures var r := NetCorrected(SELL, Event(3, 2), w);
      r.trades == [] && r.orders[2].units == 0.0
  {
    var f := Event(3, 2);
    var w2 := RemoveTrade(f, w).(k := 0);
    NetCorrectedRemoves(SELL, f, w);
    assert w2.trades == [] && w2.orders[2].units == 0.0;
  }
}
