/**
 * The per-instrument time-series store behind every ledger quantity
 * (position, margin, average price, commission, realized and unrealized
 * profit, balance, cash). Each instrument owns a list of records; a record
 * carries a date and a value, plus high and low companions for the series
 * that keep them.
 */
module DataSeries {
  import opened Wrappers
  import opened PySeq

  type Inst = string

  /** A record's date: the `'start'` placeholder, or a bar date. */
  datatype Date = Start | Day(stamp: int)

  /** Which value of a record is read: the series' own name, or its `_high` / `_low` companion. */
  datatype Field = Value | High | Low

  datatype Rec = Rec(date: Date, value: real, high: real, low: real)

  /** A whole store as a value: the instrument order and every instrument's records. */
  datatype Store = Store(keys: seq<Inst>, lists: map<Inst, seq<Rec>>)

  function FieldOf(r: Rec, f: Field): real
  {
    match f
    case Value => r.value
    case High => r.high
    case Low => r.low
  }

  /** `[i[name] for i in records]` */
  function Values(s: seq<Rec>): (v: seq<real>)
    ensures |v| == |s| && forall j :: 0 <= j < |s| ==> v[j] == s[j].value
  {
    seq(|s|, j requires 0 <= j < |s| => s[j].value)
  }

  /** `[i['date'] for i in records]` */
  function Dates(s: seq<Rec>): (d: seq<Date>)
    ensures |d| == |s| && forall j :: 0 <= j < |s| ==> d[j] == s[j].date
  {
    seq(|s|, j requires 0 <= j < |s| => s[j].date)
  }

  /**
   * The record list after the merging `add`: a write under a date other than
   * the previous write's appends a record (discarding the `'start'`
   * placeholder first); a write under the same date overwrites the last
   * record's values and keeps its date.
   */
  function Added(s: seq<Rec>, oldDate: Option<Date>, r: Rec): (t: seq<Rec>)
    requires |s| > 0
    ensures |t| > 0
    ensures oldDate == Some(r.date) ==>
      |t| == |s| && t[..|s| - 1] == s[..|s| - 1]
      && t[|s| - 1] == Rec(s[|s| - 1].date, r.value, r.high, r.low)
    ensures oldDate != Some(r.date) ==> t[|t| - 1] == r
    ensures oldDate != Some(r.date) && s[0].date == Start ==> |t| == 1
    ensures oldDate != Some(r.date) && s[0].date != Start ==> |t| == |s| + 1 && t[..|s|] == s
  {
    if oldDate != Some(r.date) then
      (if s[0].date == Start then [] else s) + [r]
    else
      s[..|s| - 1] + [Rec(s[|s| - 1].date, r.value, r.high, r.low)]
  }

  /** `pop(-2)`: the list without its second-to-last record. */
  function DroppedPenultimate(s: seq<Rec>): (t: seq<Rec>)
    requires |s| >= 2
    ensures |t| == |s| - 1 && t[|t| - 1] == s[|s| - 1] && t[..|t| - 1] == s[..|s| - 2]
  {
    RemoveAt(s, |s| - 2)
  }

  /**
   * `copy_last`: the last record object is appended a second time and then
   * re-dated, so both of the two final entries carry the new date.
   */
  function CopiedLast(s: seq<Rec>, d: Date): (t: seq<Rec>)
    requires |s| > 0
    ensures |t| == |s| + 1 && t[..|s| - 1] == s[..|s| - 1]
    ensures t[|s| - 1] == t[|s|] && t[|s|].date == d
    ensures t[|s|].value == s[|s| - 1].value && t[|s|].high == s[|s| - 1].high && t[|s|].low == s[|s| - 1].low
  {
    var last := s[|s| - 1].(date := d);
    s[..|s| - 1] + [last, last]
  }

  /** Every listed instrument has a `key`-th record. */
  predicate AllIndexable(store: map<Inst, seq<Rec>>, keys: seq<Inst>, key: int)
  {
    forall k :: k in keys ==> k in store && At(store[k], key).Some?
  }

  /** The `key`-th records' named values, one per instrument, in instrument order. */
  function Column(store: map<Inst, seq<Rec>>, keys: seq<Inst>, key: int, f: Field): (c: seq<real>)
    requires AllIndexable(store, keys, key)
    ensures |c| == |keys|
  {
    seq(|keys|, j requires 0 <= j < |keys| => FieldOf(At(store[keys[j]], key).value, f))
  }

  /** Extending the instruments by the next one whose list can be indexed extends the column by its value. */
  lemma ColumnSnoc(store: map<Inst, seq<Rec>>, keys: seq<Inst>, i: nat, key: int, f: Field)
    requires i < |keys| && AllIndexable(store, keys[..i], key)
    requires keys[i] in store && At(store[keys[i]], key).Some?
    ensures AllIndexable(store, keys[..i + 1], key)
    ensures Column(store, keys[..i + 1], key, f)
      == Column(store, keys[..i], key, f) + [FieldOf(At(store[keys[i]], key).value, f)]
  {
    assert keys[..i + 1] == keys[..i] + [keys[i]];
  }

  /**
   * `total(key, name)`: the sum, over every instrument, of the named value in
   * that instrument's `key`-th record; `IndexError` if some list is too short.
   */
  function TotalOf(store: map<Inst, seq<Rec>>, keys: seq<Inst>, key: int, f: Field): Result<real>
  {
    if AllIndexable(store, keys, key) then Ok(Sum(Column(store, keys, key, f))) else Err(IndexError)
  }

  /**
   * The merging store as the fill ledger uses it: on the first fill the
   * write discards the placeholder, so the list holds a single record and
   * the previous position `position[-2]` does not exist (IndexError).
   */
  lemma MergingFirstWriteHasNoPrevious(initial: real, r: Rec)
    requires r.date != Start
    ensures Added([Rec(Start, initial, initial, initial)], None, r) == [r]
    ensures At(Added([Rec(Start, initial, initial, initial)], None, r), -2).None?
  {
  }

  /** The appending store keeps the record before a write, so `[-2]` reads the previous value. */
  lemma AppendKeepsPrevious(s: seq<Rec>, r: Rec)
    requires |s| > 0
    ensures At(s + [r], -2) == Some(s[|s| - 1]) && At(s + [r], -1) == Some(r)
  {
  }

  /** Popping the second-to-last record of one list leaves every `[-1]` total unchanged. */
  lemma {:induction false} TotalIgnoresPenultimate(store: map<Inst, seq<Rec>>, keys: seq<Inst>, inst: Inst, f: Field)
    requires inst in store && |store[inst]| >= 2
    ensures TotalOf(store[inst := DroppedPenultimate(store[inst])], keys, -1, f) == TotalOf(store, keys, -1, f)
  {
    var t := store[inst := DroppedPenultimate(store[inst])];
    assert forall k :: k in store ==> k in t && At(t[k], -1) == At(store[k], -1);
    if AllIndexable(store, keys, -1) {
      assert AllIndexable(t, keys, -1);
      assert Column(t, keys, -1, f) == Column(store, keys, -1, f);
    } else {
      assert !AllIndexable(t, keys, -1);
    }
  }

  /** Every non-empty list has a last record, so a `[-1]` total always succeeds. */
  lemma LastIndexable(store: map<Inst, seq<Rec>>, keys: seq<Inst>)
    requires forall k :: k in keys ==> k in store && |store[k]| > 0
    ensures AllIndexable(store, keys, -1)
  {
  }

  class Series {
    /** Instruments in the order they were first initialized (Python dict order). */
    var keys: seq<Inst>
    var store: map<Inst, seq<Rec>>
    /** The instrument that reads and writes address (`_instrument`). */
    var instrument: Inst
    /** The date of the previous merging write, shared by all instruments (`old_date`). */
    var oldDate: Option<Date>
    /**
     * True for the package store, whose `add` merges a write carrying the
     * previous write's date; false for the earlier store, whose `add` always
     * appends.
     */
    const merging: bool

    ghost predicate Valid()
      reads this
    {
      NoDup(keys)
      && (forall k :: k in store <==> k in keys)
      && (forall k :: k in store ==> |store[k]| > 0)
    }

    /** The store's contents, as a value. */
    function Model(): (m: Store)
      reads this
      ensures m.keys == keys && m.lists == store
    {
      Store(keys, store)
    }

    /** The current instrument's records. */
    function Cur(): seq<Rec>
      reads this
      requires instrument in store
    {
      store[instrument]
    }

    /** `series[key]`: the current instrument's `key`-th value. */
    function Get(key: int): (r: Result<real>)
      reads this
      ensures instrument !in store ==> r == Err(KeyError)
      ensures instrument in store ==>
        (r.Ok? <==> -|Cur()| <= key < |Cur()|)
        && (r.Ok? ==> r.value == At(Cur(), key).value.value)
      ensures r.Err? ==> r.error in {KeyError, IndexError}
    {
      if instrument !in store then Err(KeyError)
      else match At(store[instrument], key)
        case None => Err(IndexError)
        case Some(rec) => Ok(rec.value)
    }

    /** Creates an empty store whose reads and writes address `inst`. */
    constructor (inst: Inst, merging: bool)
      ensures Valid() && keys == [] && store == map[] && instrument == inst && oldDate == None
      ensures this.merging == merging
    {
      this.merging := merging;
      keys := [];
      store := map[];
      instrument := inst;
      oldDate := None;
    }

    /** `initialize`: one `'start'` placeholder record holding `initial` in every field. */
    method Initialize(inst: Inst, initial: real)
      requires Valid()
      modifies this
      ensures Valid()
      ensures store == old(store)[inst := [Rec(Start, initial, initial, initial)]]
      ensures keys == if inst in old(keys) then old(keys) else old(keys) + [inst]
      ensures instrument == old(instrument) && oldDate == old(oldDate)
    {
      if inst !in keys {
        keys := keys + [inst];
      }
      store := store[inst := [Rec(Start, initial, initial, initial)]];
    }

    method SetInstrument(inst: Inst)
      modifies this`instrument
      ensures instrument == inst
    {
      instrument := inst;
    }

    /**
     * `add`, writing a value and its high and low companions: the merging
     * write of the package store, or the plain append of the earlier store.
     */
    method Add(d: Date, v: real, h: real, l: real)
      requires Valid() && instrument in store
      modifies this
      ensures Valid()
      ensures merging ==> store == old(store)[instrument := Added(old(Cur()), old(oldDate), Rec(d, v, h, l))]
      ensures merging ==> oldDate == Some(d)
      ensures !merging ==> store == old(store)[instrument := old(Cur()) + [Rec(d, v, h, l)]]
      ensures !merging ==> oldDate == old(oldDate)
      ensures keys == old(keys) && instrument == old(instrument)
    {
      if merging {
        store := store[instrument := Added(store[instrument], oldDate, Rec(d, v, h, l))];
        oldDate := Some(d);
      } else {
        store := store[instrument := store[instrument] + [Rec(d, v, h, l)]];
      }
    }

    /** `update_cur`: overwrites the last realized value only. */
    method UpdateCur(v: real)
      requires Valid() && instrument in store
      modifies this
      ensures Valid()
      ensures var s := old(Cur());
        store == old(store)[instrument := s[..|s| - 1] + [s[|s| - 1].(value := v)]]
      ensures keys == old(keys) && instrument == old(instrument) && oldDate == old(oldDate)
    {
      var s := store[instrument];
      store := store[instrument := s[..|s| - 1] + [s[|s| - 1].(value := v)]];
    }

    /** `del_last`: pops the second-to-last record of the current instrument. */
    method DelLast()
      requires Valid() && instrument in store && |Cur()| >= 2
      modifies this
      ensures Valid()
      ensures store == old(store)[instrument := DroppedPenultimate(old(Cur()))]
      ensures keys == old(keys) && instrument == old(instrument) && oldDate == old(oldDate)
    {
      store := store[instrument := DroppedPenultimate(store[instrument])];
    }

    /** `copy_last`: re-appends the last record under a new date. */
    method CopyLast(d: Date)
      requires Valid() && instrument in store
      modifies this
      ensures Valid()
      ensures store == old(store)[instrument := CopiedLast(old(Cur()), d)]
      ensures keys == old(keys) && instrument == old(instrument) && oldDate == old(oldDate)
    {
      store := store[instrument := CopiedLast(store[instrument], d)];
    }

    /** `total`, `total_high` and `total_low`: the loop over every instrument's list. */
    method Total(key: int, f: Field) returns (r: Result<real>)
      requires Valid()
      ensures r == TotalOf(store, keys, key, f)
      ensures key == -1 ==> r.Ok?
    {
      var acc := 0.0;
      var i := 0;
      while i < |keys|
        invariant 0 <= i <= |keys|
        invariant AllIndexable(store, keys[..i], key)
        invariant acc == Sum(Column(store, keys[..i], key, f))
      {
        var s := store[keys[i]];
        var idx := Resolve(|s|, key);
        if idx.None? {
          r := Err(IndexError);
          assert !AllIndexable(store, keys, key) by {
            assert keys[i] in keys && At(store[keys[i]], key).None?;
          }
          return;
        }
        assert At(s, key) == Some(s[idx.value]);
        ColumnSnoc(store, keys, i, key, f);
        SumAppend(Column(store, keys[..i], key, f), FieldOf(s[idx.value], f));
        acc := acc + FieldOf(s[idx.value], f);
        i := i + 1;
      }
      assert keys[..i] == keys;
      r := Ok(acc);
    }
  }
}
