/**
 * Bars: the single-slot holder of the current bar, and the per-instrument
 * bar history with its OHLC column views.
 */
module Bars {
  import opened Wrappers
  import opened PySeq
  import opened DataSeries

  /** One OHLC bar of a feed. */
  datatype Bar = Bar(date: Date, open: real, high: real, low: real, close: real)

  /** The column a view of the history selects (`_data_name`). */
  datatype Column = OpenCol | HighCol | LowCol | CloseCol

  function ColumnOf(b: Bar, c: Column): real
  {
    match c
    case OpenCol => b.open
    case HighCol => b.high
    case LowCol => b.low
    case CloseCol => b.close
  }

  /** A slot of the current-bar list: the integer 0 it starts with, or a bar. */
  datatype Slot = Unfilled | Filled(bar: Bar)

  /**
   * `Current_bar`: a list of slots that starts with the single slot 0 and
   * whose first slot every new bar overwrites; no operation adds a slot, so
   * the list keeps exactly one.
   */
  class CurrentBar {
    var slots: seq<Slot>

    /** The list holds exactly its one slot. */
    ghost predicate Valid()
      reads this
    {
      |slots| == 1
    }

    constructor ()
      ensures Valid() && slots == [Unfilled] && Count() == 1
    {
      slots := [Unfilled];
    }

    /** `add_new_bar`: the new bar replaces the first slot; the list never grows. */
    method AddNewBar(b: Bar)
      requires Valid()
      modifies this
      ensures Valid() && slots == old(slots)[0 := Filled(b)]
      ensures Count() == old(Count()) && CurData() == Ok(b)
    {
      slots := slots[0 := Filled(b)];
    }

    /** `len(_cur_bar_list)` */
    function Count(): nat
      reads this
    {
      |slots|
    }

    /** `cur_data`; before the first bar the slot holds 0 and indexing it raises `TypeError`. */
    function CurData(): (r: Result<Bar>)
      reads this
      requires Valid()
      ensures r.Ok? <==> slots[0].Filled?
      ensures r.Ok? ==> r.value == slots[0].bar
    {
      match slots[0]
      case Unfilled => Err(TypeError)
      case Filled(b) => Ok(b)
    }

    /** `cur_open`, `cur_high`, `cur_low`, `cur_close`: a column of the one current bar. */
    function Cur(c: Column): (r: Result<real>)
      reads this
      requires Valid()
      ensures r.Ok? <==> CurData().Ok?
      ensures r.Ok? ==> r.value == ColumnOf(CurData().value, c)
    {
      match CurData()
      case Err(e) => Err(e)
      case Ok(b) => Ok(ColumnOf(b, c))
    }

    /** `cur_date`: the date of the one current bar. */
    function CurDate(): (r: Result<Date>)
      reads this
      requires Valid()
      ensures r.Ok? <==> CurData().Ok?
      ensures r.Ok? ==> r.value == CurData().value.date
    {
      match CurData()
      case Err(e) => Err(e)
      case Ok(b) => Ok(b.date)
    }
  }

  /** A slice bound counts only when it is given and non-zero (Python truthiness). */
  predicate Truthy(x: Option<int>)
  {
    x.Some? && x.value != 0
  }

  /**
   * The bounds a slice of the history resolves to: both given bounds if both
   * are truthy, otherwise the whole range; two negative bounds are shifted by
   * the length.
   */
  function NormalisedBounds(start: Option<int>, stop: Option<int>, len: nat): (b: (int, int))
    ensures !(Truthy(start) && Truthy(stop)) ==> b == (0, len as int)
    ensures Truthy(start) && Truthy(stop) && start.value < 0 && stop.value < 0 ==>
      b == (len + start.value, len + stop.value)
    ensures Truthy(start) && Truthy(stop) && !(start.value < 0 && stop.value < 0) ==>
      b == (start.value, stop.value)
  {
    var (s, t) := if Truthy(start) && Truthy(stop) then (start.value, stop.value) else (0, len as int);
    if s < 0 && t < 0 then (len + s, len + t) else (s, t)
  }

  /** `[i[name] for i in bars]` */
  function Project(bars: seq<Bar>, c: Column): (v: seq<real>)
    ensures |v| == |bars| && forall k :: 0 <= k < |bars| ==> v[k] == ColumnOf(bars[k], c)
  {
    seq(|bars|, k requires 0 <= k < |bars| => ColumnOf(bars[k], c))
  }

  /** `Bar`: every instrument's bar history, and the column its views select. */
  class BarStore {
    var dict: map<Inst, seq<Bar>>
    var instrument: Inst
    var dataName: Option<Column>

    constructor (inst: Inst)
      ensures dict == map[inst := []] && instrument == inst && dataName == None
    {
      dict := map[inst := []];
      instrument := inst;
      dataName := None;
    }

    /** `_initialize`: forgets every history. */
    method Initialize()
      modifies this`dict
      ensures dict == map[]
    {
      dict := map[];
    }

    /** `_combine_all_feed`: merges another store's histories in, the other's winning on shared keys. */
    method Combine(other: map<Inst, seq<Bar>>)
      modifies this`dict
      ensures dict == old(dict) + other
      ensures dict.Keys == old(dict).Keys + other.Keys
      ensures forall k :: k in other ==> dict[k] == other[k]
      ensures forall k :: k in old(dict) && k !in other ==> dict[k] == old(dict)[k]
    {
      dict := dict + other;
    }

    method SetInstrument(inst: Inst)
      modifies this`instrument
      ensures instrument == inst
    {
      instrument := inst;
    }

    /** `add_new_bar`: appends to the current instrument's history only. */
    method AddNewBar(b: Bar)
      requires instrument in dict
      modifies this`dict
      ensures dict == old(dict)[instrument := old(dict[instrument]) + [b]]
    {
      dict := dict[instrument := dict[instrument] + [b]];
    }

    /** The `open`, `high`, `low` and `close` properties select the column a view returns. */
    method Select(c: Column)
      modifies this`dataName
      ensures dataName == Some(c)
    {
      dataName := Some(c);
    }

    /** `view[start:stop]`: the normalised slice of the history, projected to the selected column. */
    function GetSlice(start: Option<int>, stop: Option<int>): (r: Result<seq<real>>)
      reads this
      ensures r.Ok? <==> instrument in dict && dataName.Some?
      ensures r.Ok? && !(Truthy(start) && Truthy(stop)) ==> r.value == Project(dict[instrument], dataName.value)
      ensures r.Ok? && Truthy(start) && Truthy(stop) && -|dict[instrument]| <= start.value <= stop.value < 0 ==>
        var h := dict[instrument];
        r.value == Project(h[|h| + start.value..|h| + stop.value], dataName.value)
    {
      if instrument !in dict || dataName.None? then Err(KeyError)
      else
        var h := dict[instrument];
        var (s, t) := NormalisedBounds(start, stop, |h|);
        Ok(Project(Slice(h, s, t), dataName.value))
    }

    /** `view[i]`: the close of the `i`-th bar, whatever column the view selected. */
    function GetIndex(i: int): (r: Result<real>)
      reads this
      ensures instrument !in dict ==> r == Err(KeyError)
      ensures instrument in dict ==> (r.Ok? <==> -|dict[instrument]| <= i < |dict[instrument]|)
      ensures r.Ok? ==> r.value == At(dict[instrument], i).value.close
    {
      if instrument !in dict then Err(KeyError)
      else match At(dict[instrument], i)
        case None => Err(IndexError)
        case Some(b) => Ok(b.close)
    }
  }
}
