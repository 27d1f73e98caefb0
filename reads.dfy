/** Reading a record of a series the way indexing a `DataSeries` does. */
module SeriesReads {
  import opened Wrappers
  import opened PySeq
  import opened DataSeries

  /**
   * `series[k]` on a store addressed at `inst`: `KeyError` when the
   * instrument has no list, `IndexError` when `k` is out of range (negative
   * `k` counting from the end), otherwise the value of that record.
   */
  function Read(st: Store, inst: Inst, k: int): (r: Result<real>)
    ensures inst !in st.lists ==> r == Err(KeyError)
    ensures inst in st.lists ==> (r.Ok? <==> -|st.lists[inst]| <= k < |st.lists[inst]|)
    ensures inst in st.lists && r.Err? ==> r == Err(IndexError)
    ensures r.Ok? && k < 0 ==> r.value == st.lists[inst][|st.lists[inst]| + k].value
    ensures r.Ok? && k >= 0 ==> r.value == st.lists[inst][k].value
  {
    if inst !in st.lists then Err(KeyError)
    else match At(st.lists[inst], k)
      case None => Err(IndexError)
      case Some(rec) => Ok(rec.value)
  }
}
