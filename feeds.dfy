/**
 * A data feed: the bars it still has to deliver, its single-slot current
 * bar, its own bar history, the `continue_backtest` flag, the first-call
 * skip of `next`, and the contract parameters the engine sets on it.
 */
module Feeds {
  import opened Wrappers
  import opened DataSeries
  import opened Orders
  import opened Bars

  class Feed {
    const instrument: Inst
    const cur: CurrentBar
    /** The feed's own history (`feed.bar`), grown by one bar per delivered bar. */
    const history: BarStore
    /** The bars the reader still has to deliver, already cut to the start/end date window. */
    var data: seq<Bar>
    var continueBacktest: bool
    /** Whether `next` has already made its first, skipped, call. */
    var skipped: bool
    var perComm: real
    var perMargin: real
    /** The contract size, which the ledger uses as the multiplier. */
    var units: real
    /** The lots a strategy trades by default. */
    var lots: real
    var executeMode: ExecMode
    /** The column of the current bar the trailing stop is updated at. */
    var trailingCol: Column
    var bufferDays: int

    ghost predicate Valid()
      reads cur, history
    {
      cur.Valid() && history.instrument == instrument && instrument in history.dict
    }

    /** A feed as `DataHandler.__init__` leaves it, with nothing loaded yet. */
    constructor (inst: Inst)
      ensures Valid() && fresh(cur) && fresh(history)
      ensures instrument == inst && cur.slots == [Unfilled] && history.dict == map[inst := []]
      ensures data == [] && continueBacktest && !skipped
    {
      instrument := inst;
      cur := new CurrentBar();
      history := new BarStore(inst);
      data := [];
      continueBacktest := true;
      skipped := false;
      perComm := 0.0;
      perMargin := 0.0;
      units := 0.0;
      lots := 0.0;
      executeMode := OpenMode;
      trailingCol := OpenCol;
      bufferDays := 0;
    }

    /** `load_once`: the reader's rows become the bars still to deliver. */
    method LoadOnce(rows: seq<Bar>)
      modifies this`data
      ensures data == rows
    {
      data := rows;
    }

    /**
     * `get_new_bar` (called by `prenext`): the next bar replaces the current
     * one; once the reader is exhausted the feed stops the back-test and the
     * current bar stays as it was.
     */
    method GetNewBar()
      requires Valid()
      modifies this`data, this`continueBacktest, cur
      ensures Valid()
      ensures old(data) == [] ==> data == [] && !continueBacktest && cur.slots == old(cur.slots)
      ensures old(data) != [] ==>
        cur.slots == old(cur.slots)[0 := Slot.Filled(old(data)[0])] && data == old(data)[1..]
        && continueBacktest == old(continueBacktest)
    {
      if data == [] {
        continueBacktest := false;
      } else {
        cur.AddNewBar(data[0]);
        data := data[1..];
      }
    }

    /**
     * `next`: the first call only records that it was skipped; every later
     * call appends the current bar to the feed's history and puts a market
     * event for the feed (`market`). Before any bar arrived the current slot
     * holds 0, which has no bar fields: the model reports the `TypeError`
     * their first read raises here, and neither grows the history nor emits.
     */
    method Next() returns (market: bool, raised: Option<Exc>)
      requires Valid()
      modifies this`skipped, history
      ensures Valid() && skipped
      ensures !old(skipped) ==> !market && raised.None? && history.dict == old(history.dict)
      ensures old(skipped) && cur.slots[0].Unfilled? ==>
        !market && raised == Some(TypeError) && history.dict == old(history.dict)
      ensures old(skipped) && cur.slots[0].Filled? ==>
        market && raised.None? && history.dict == old(history.dict)[instrument := old(history.dict[instrument]) + [cur.slots[0].bar]]
    {
      if !skipped {
        skipped := true;
        market, raised := false, None;
        return;
      }
      match cur.CurData()
      case Err(e) =>
        market, raised := false, Some(e);
      case Ok(b) =>
        history.SetInstrument(instrument);
        history.AddNewBar(b);
        market, raised := true, None;
    }

    /** `start`, `prenext` and `next` in turn, as the engine loads every feed on an empty queue. */
    method Load() returns (market: bool, raised: Option<Exc>)
      requires Valid()
      modifies this`data, this`continueBacktest, this`skipped, cur, history
      ensures Valid() && skipped
      ensures old(data) == [] ==> !continueBacktest && cur.slots == old(cur.slots)
      ensures old(data) != [] ==> cur.slots == old(cur.slots)[0 := Slot.Filled(old(data)[0])] && data == old(data)[1..]
      ensures old(data) != [] ==> continueBacktest == old(continueBacktest)
      ensures market <==> old(skipped) && cur.slots[0].Filled?
      ensures market ==> history.dict[instrument] == old(history.dict[instrument]) + [cur.slots[0].bar]
      ensures raised.Some? <==> old(skipped) && cur.slots[0].Unfilled?
    {
      GetNewBar();
      market, raised := Next();
    }

    method SetPerComm(v: real)
      modifies this`perComm
      ensures perComm == v
    {
      perComm := v;
    }

    method SetPerMargin(v: real)
      modifies this`perMargin
      ensures perMargin == v
    {
      perMargin := v;
    }

    method SetUnits(v: real)
      modifies this`units
      ensures units == v
    {
      units := v;
    }

    method SetLots(v: real)
      modifies this`lots
      ensures lots == v
    {
      lots := v;
    }

    method SetExecuteMode(m: ExecMode)
      modifies this`executeMode
      ensures executeMode == m
    {
      executeMode := m;
    }

    method SetTrailingMode(c: Column)
      modifies this`trailingCol
      ensures trailingCol == c
    {
      trailingCol := c;
    }

    method SetBufferDays(n: int)
      modifies this`bufferDays
      ensures bufferDays == n
    {
      bufferDays := n;
    }
  }
}
