/** Option and Result values, plus the Python exceptions the modelled code can raise. */
module Wrappers {
  datatype Option<T> = None | Some(value: T)

  /** The exception kinds the modelled Python code raises. */
  datatype Exc = IndexError | KeyError | ValueError | TypeError | SyntaxError | AttributeError | Warning

  datatype Result<T> = Ok(value: T) | Err(error: Exc)
}

/** Python list semantics used throughout: negative indexing, `pop`, `sum`. */
module PySeq {
  import opened Wrappers

  /** Resolves a Python index `i` against a list of length `n` (negative counts from the end). */
  function Resolve(n: nat, i: int): (r: Option<nat>)
    ensures r.Some? <==> -(n as int) <= i < n
    ensures r.Some? ==> r.value < n && r.value as int % n == (i + n) % n
  {
    if 0 <= i < n then Some(i as nat)
    else if -(n as int) <= i < 0 then Some((n + i) as nat)
    else None
  }

  /** `s[i]`, or `None` where Python raises IndexError. */
  function At<T>(s: seq<T>, i: int): (r: Option<T>)
    ensures r.Some? <==> -|s| <= i < |s|
    ensures i >= 0 && r.Some? ==> r.value == s[i]
    ensures i < 0 && r.Some? ==> r.value == s[|s| + i]
  {
    match Resolve(|s|, i)
    case None => None
    case Some(k) => Some(s[k])
  }

  /** `s.pop(i)` for an index that exists: the list without that element. */
  function RemoveAt<T>(s: seq<T>, k: nat): (t: seq<T>)
    requires k < |s|
    ensures |t| == |s| - 1
    ensures forall j :: 0 <= j < k ==> t[j] == s[j]
    ensures forall j :: k <= j < |t| ==> t[j] == s[j + 1]
  {
    s[..k] + s[k + 1..]
  }

  /** `list.insert(k, x)` for `k <= len(list)`. */
  function InsertAt<T>(s: seq<T>, k: nat, x: T): (t: seq<T>)
    requires k <= |s|
    ensures |t| == |s| + 1 && t[k] == x
    ensures forall j :: 0 <= j < k ==> t[j] == s[j]
    ensures forall j :: k < j < |t| ==> t[j] == s[j - 1]
  {
    s[..k] + [x] + s[k..]
  }

  /** Popping the element at `k` and inserting it back at `k` gives the list back. */
  lemma PopThenInsert<T>(s: seq<T>, k: nat)
    requires k < |s|
    ensures InsertAt(RemoveAt(s, k), k, s[k]) == s
  {
    assert s[..k] + [s[k]] + s[k + 1..] == s;
  }

  /** Python's `sum` of a list of numbers, taken from the left. */
  function Sum(s: seq<real>): real
  {
    if s == [] then 0.0 else Sum(s[..|s| - 1]) + s[|s| - 1]
  }

  lemma {:induction false} SumAppend(s: seq<real>, x: real)
    ensures Sum(s + [x]) == Sum(s) + x
  {
    assert (s + [x])[..|s + [x]| - 1] == s;
  }

  lemma {:induction false} SumConcat(s: seq<real>, t: seq<real>)
    ensures Sum(s + t) == Sum(s) + Sum(t)
    decreases |t|
  {
    if t == [] {
      assert s + t == s;
    } else {
      var u := t[..|t| - 1];
      assert s + t == (s + u) + [t[|t| - 1]];
      SumAppend(s + u, t[|t| - 1]);
      SumConcat(s, u);
      assert t == u + [t[|t| - 1]];
      SumAppend(u, t[|t| - 1]);
    }
  }

  predicate NoDup<T(==)>(s: seq<T>)
  {
    forall i, j :: 0 <= i < j < |s| ==> s[i] != s[j]
  }

  /** Python's clamping of one slice bound against a length `n`. */
  function ClampBound(n: nat, i: int): (k: nat)
    ensures k <= n
    ensures 0 <= i <= n ==> k == i
    ensures -(n as int) <= i < 0 ==> k == n + i
  {
    var j := if i < 0 then i + n else i;
    if j < 0 then 0 else if j > n then n else j
  }

  /** `s[a:b]` with Python's negative-index and clamping rules. */
  function Slice<T>(s: seq<T>, a: int, b: int): (t: seq<T>)
    ensures 0 <= a <= b <= |s| ==> t == s[a..b]
    ensures -|s| <= a <= b < 0 ==> t == s[|s| + a..|s| + b]
    ensures |t| <= |s|
  {
    var i := ClampBound(|s|, a);
    var j := ClampBound(|s|, b);
    if i < j then s[i..j] else []
  }
}
