/**
 * `dict_to_table`: a dictionary laid out as a two-column text table
 * between `#--...--#` borders, keys left-aligned and values padded to the
 * widest key and the widest value.
 */
module Table {
  import opened Wrappers

  /**
   * A dictionary value as the formatter sees it: the text `str` gives it,
   * and how `'{:{}}'.format(value, width)` pads it. Numbers are aligned to
   * the right, strings to the left, and any other object refuses a width.
   */
  datatype Value = Number(text: string) | Text(text: string) | Other(text: string)

  /** `n` copies of `c` (`n * c`). */
  function Repeat(c: char, n: nat): (s: string)
    ensures |s| == n && forall i :: 0 <= i < n ==> s[i] == c
  {
    if n == 0 then [] else Repeat(c, n - 1) + [c]
  }

  /** `s` padded with spaces on the right to width `w`. */
  function PadRight(s: string, w: nat): (r: string)
    ensures |s| <= w ==> |r| == w
    ensures |r| >= |s| && r[..|s|] == s
  {
    if |s| >= w then s else s + Repeat(' ', w - |s|)
  }

  /** `s` padded with spaces on the left to width `w`. */
  function PadLeft(s: string, w: nat): (r: string)
    ensures |s| <= w ==> |r| == w
    ensures |r| >= |s| && r[|r| - |s|..] == s
  {
    if |s| >= w then s else Repeat(' ', w - |s|) + s
  }

  /** `max([len(key) for key in d])`: the widest key; `max` of an empty list raises. */
  function KeyWidth(entries: seq<(string, Value)>): (r: Result<nat>)
    ensures entries == [] <==> r.Err?
    ensures r.Err? ==> r.error == ValueError
    ensures r.Ok? ==> forall i :: 0 <= i < |entries| ==> |entries[i].0| <= r.value
    ensures r.Ok? ==> exists i :: 0 <= i < |entries| && |entries[i].0| == r.value
  {
    if entries == [] then Err(ValueError)
    else
      var last := |entries[|entries| - 1].0|;
      match KeyWidth(entries[..|entries| - 1])
      case Err(_) => Ok(last)
      case Ok(w) => Ok(if last > w then last else w)
  }

  /** `max([len(str(value)) for value in d.values()])`: the widest value text. */
  function ValueWidth(entries: seq<(string, Value)>): (r: Result<nat>)
    ensures entries == [] <==> r.Err?
    ensures r.Err? ==> r.error == ValueError
    ensures r.Ok? ==> forall i :: 0 <= i < |entries| ==> |entries[i].1.text| <= r.value
    ensures r.Ok? ==> exists i :: 0 <= i < |entries| && |entries[i].1.text| == r.value
  {
    if entries == [] then Err(ValueError)
    else
      var last := |entries[|entries| - 1].1.text|;
      match ValueWidth(entries[..|entries| - 1])
      case Err(_) => Ok(last)
      case Ok(w) => Ok(if last > w then last else w)
  }

  /** The header and footer: `'#--'`, `kw + vw + 2` dashes, `'#'`. */
  function Border(kw: nat, vw: nat): (b: string)
    ensures |b| == kw + vw + 6
    ensures b[0] == '#' && b[|b| - 1] == '#'
    ensures forall i :: 0 < i < |b| - 1 ==> b[i] == '-'
  {
    "#--" + Repeat('-', kw + vw + 2) + "#"
  }

  /** `'{:{}}'.format(value, w)`. */
  function Cell(v: Value, w: nat): (r: Result<string>)
    ensures r.Err? <==> v.Other?
    ensures r.Err? ==> r.error == TypeError
    ensures r.Ok? && |v.text| <= w ==> |r.value| == w
  {
    match v
    case Number(t) => Ok(PadLeft(t, w))
    case Text(t) => Ok(PadRight(t, w))
    case Other(_) => Err(TypeError)
  }

  /**
   * One row: `'| '`, the key padded to `kw`, `'| '`, the value padded to
   * `vw`, `' |'` and a newline; a value that refuses a width raises.
   */
  function Row(key: string, v: Value, kw: nat, vw: nat): (r: Result<string>)
    ensures r.Err? <==> v.Other?
    ensures r.Err? ==> r.error == TypeError
  {
    match Cell(v, vw)
    case Err(e) => Err(e)
    case Ok(c) => Ok("| " + PadRight(key, kw) + "| " + c + " |\n")
  }

  /**
   * With the key and the value no wider than their columns, a row is as
   * wide as the border plus the newline: the key right after `'| '`, the
   * second `'| '` right after the key's column, the value text at the left
   * (a string) or the right (a number) of its column, and `' |'` and the
   * newline last.
   */
  lemma RowLayout(key: string, v: Value, kw: nat, vw: nat)
    requires !v.Other? && |key| <= kw && |v.text| <= vw
    ensures var r := Row(key, v, kw, vw).value;
      |r| == |Border(kw, vw)| + 1
      && r[..2] == "| " && r[2..2 + |key|] == key && r[kw + 2..kw + 4] == "| "
      && (v.Text? ==> r[kw + 4..kw + 4 + |v.text|] == v.text)
      && (v.Number? ==> r[kw + vw + 4 - |v.text|..kw + vw + 4] == v.text)
      && r[kw + vw + 4..] == " |\n"
  {
    var c := Cell(v, vw).value;
    var p := PadRight(key, kw);
    var r := Row(key, v, kw, vw).value;
    var a := "| " + p;
    var b := a + "| " + c;
    assert r == b + " |\n";
    assert r[..kw + vw + 4] == b && b[..kw + 2] == a && a[2..] == p;
    assert r[2..2 + kw] == p;
    assert b[kw + 4..] == c;
    assert r[kw + 4..kw + vw + 4] == c;
    assert r[2..2 + |key|] == p[..|key|];
    if v.Text? {
      assert r[kw + 4..kw + 4 + |v.text|] == c[..|v.text|];
    } else {
      assert r[kw + vw + 4 - |v.text|..kw + vw + 4] == c[vw - |v.text|..];
    }
  }

  /** `''.join(parts)`. */
  function Join(parts: seq<string>): (s: string)
  {
    if parts == [] then [] else Join(parts[..|parts| - 1]) + parts[|parts| - 1]
  }

  /** Joined strings of one common length `w` give a string `w` times their number long. */
  lemma {:induction false} JoinLength(parts: seq<string>, w: nat)
    requires forall i :: 0 <= i < |parts| ==> |parts[i]| == w
    ensures |Join(parts)| == |parts| * w
    decreases |parts|
  {
    if parts != [] {
      JoinLength(parts[..|parts| - 1], w);
    }
  }

  /** Joining two lists joins their joins. */
  lemma {:induction false} JoinConcat(a: seq<string>, b: seq<string>)
    ensures Join(a + b) == Join(a) + Join(b)
    decreases |b|
  {
    if b == [] {
      assert a + b == a;
    } else {
      var n := |b| - 1;
      assert (a + b)[..|a + b| - 1] == a + b[..n];
      assert (a + b)[|a + b| - 1] == b[n];
      JoinConcat(a, b[..n]);
      assert Join(a + b) == Join(a + b[..n]) + b[n];
    }
  }

  /** The join of a list is the join of its first `j` parts and the join of the rest. */
  lemma JoinSplit(parts: seq<string>, j: nat)
    requires j <= |parts|
    ensures Join(parts) == Join(parts[..j]) + Join(parts[j..])
  {
    assert parts == parts[..j] + parts[j..];
    JoinConcat(parts[..j], parts[j..]);
  }

  /** A join starts with its first part. */
  lemma JoinFirst(parts: seq<string>)
    requires parts != []
    ensures Join(parts) == parts[0] + Join(parts[1..])
  {
    JoinSplit(parts, 1);
    assert parts[..1] == [parts[0]];
    assert [parts[0]][..0] == [];
    assert Join([parts[0]]) == parts[0];
  }

  /** The join of a list is the join before part `j`, part `j`, and the join after it. */
  lemma JoinAround(parts: seq<string>, j: nat)
    requires j < |parts|
    ensures Join(parts) == Join(parts[..j]) + parts[j] + Join(parts[j + 1..])
  {
    JoinSplit(parts, j);
    var rest := parts[j..];
    JoinFirst(rest);
    assert rest[1..] == parts[j + 1..];
    var jp, x, jq := Join(parts[..j]), parts[j], Join(parts[j + 1..]);
    assert jp + (x + jq) == jp + x + jq;
  }

  /** Every value of the dictionary accepts a width. */
  predicate Formattable(entries: seq<(string, Value)>)
  {
    forall j :: 0 <= j < |entries| ==> !entries[j].1.Other?
  }

  /** The row texts of a formattable dictionary, in order. */
  function RowTexts(entries: seq<(string, Value)>, kw: nat, vw: nat): (rs: seq<string>)
    requires Formattable(entries)
    ensures |rs| == |entries|
    ensures forall j :: 0 <= j < |entries| ==> Row(entries[j].0, entries[j].1, kw, vw) == Ok(rs[j])
  {
    seq(|entries|, j requires 0 <= j < |entries| => Row(entries[j].0, entries[j].1, kw, vw).value)
  }

  /**
   * The loop building `data_list`: one row per entry, in order. The first
   * value that refuses a width raises, and then no table is made.
   */
  method Rows(entries: seq<(string, Value)>, kw: nat, vw: nat) returns (r: Result<seq<string>>)
    ensures r.Ok? <==> Formattable(entries)
    ensures r.Err? ==> r.error == TypeError
    ensures r.Ok? ==> |r.value| == |entries|
    ensures r.Ok? ==> forall j :: 0 <= j < |entries| ==> Row(entries[j].0, entries[j].1, kw, vw) == Ok(r.value[j])
  {
    var rows: seq<string> := [];
    var i := 0;
    while i < |entries|
      invariant 0 <= i <= |entries|
      invariant forall j :: 0 <= j < i ==> !entries[j].1.Other?
      invariant |rows| == i
      invariant forall j :: 0 <= j < i ==> Row(entries[j].0, entries[j].1, kw, vw) == Ok(rows[j])
    {
      var row := Row(entries[i].0, entries[i].1, kw, vw);
      if row.Err? {
        assert entries[i].1.Other?;
        return Err(row.error);
      }
      rows := rows + [row.value];
      assert rows[i] == row.value;
      i := i + 1;
    }
    r := Ok(rows);
  }

  /** The length of a table of `n` rows under a border `w` wide: `n + 2` lines of `w` and the newlines between them. */
  function TableSize(n: nat, w: nat): (size: nat)
  {
    if n == 0 then w + 1 + w else TableSize(n - 1, w) + w + 1
  }

  lemma {:induction false} TableSizeIs(n: nat, w: nat)
    ensures TableSize(n, w) == (n + 2) * (w + 1) - 1
  {
    if n > 0 {
      TableSizeIs(n - 1, w);
    }
  }

  /**
   * A table of `n` rows framed by `border`: `n + 2` lines as wide as the
   * border, newline-separated, the first and the last of them the border.
   */
  predicate Framed(t: string, border: string, n: nat)
  {
    |t| == TableSize(n, |border|) && t[..|border|] == border && t[|border|] == '\n'
    && t[|t| - |border|..] == border
  }

  /** Rows of entries no wider than the columns are all as wide as the border and its newline. */
  lemma RowWidths(entries: seq<(string, Value)>, kw: nat, vw: nat, rows: seq<string>)
    requires |rows| == |entries|
    requires forall j :: 0 <= j < |entries| ==> Row(entries[j].0, entries[j].1, kw, vw) == Ok(rows[j])
    requires forall j :: 0 <= j < |entries| ==> |entries[j].0| <= kw && |entries[j].1.text| <= vw
    ensures forall j :: 0 <= j < |rows| ==> |rows[j]| == |Border(kw, vw)| + 1
  {
    forall j | 0 <= j < |rows|
      ensures |rows[j]| == |Border(kw, vw)| + 1
    {
      RowLayout(entries[j].0, entries[j].1, kw, vw);
    }
  }

  /** The border, a newline, rows as wide as the border's line and the border again are a framed table. */
  lemma Assembled(border: string, rows: seq<string>, n: nat)
    requires |rows| == n
    requires forall j :: 0 <= j < |rows| ==> |rows[j]| == |border| + 1
    ensures Framed(border + "\n" + Join(rows) + border, border, n)
  {
    var body := Join(rows);
    JoinLength(rows, |border| + 1);
    var t := border + "\n" + body + border;
    assert t[..|border|] == border;
    assert t[|t| - |border|..] == border;
    TableSizeIs(n, |border|);
  }

  /**
   * Line `j + 1` of the table, counting its newline, is row `j`: it starts
   * after the border line and the `j` rows before it, `(j + 1)` lines as
   * wide as the border's line.
   */
  lemma TableLine(border: string, rows: seq<string>, j: nat)
    requires j < |rows|
    requires forall i :: 0 <= i < |rows| ==> |rows[i]| == |border| + 1
    ensures var before := border + "\n" + Join(rows[..j]);
      |before| == (j + 1) * (|border| + 1)
      && border + "\n" + Join(rows) + border == before + rows[j] + Join(rows[j + 1..]) + border
  {
    var w := |border| + 1;
    JoinAround(rows, j);
    JoinLength(rows[..j], w);
    assert (j + 1) * w == w + j * w;
  }

  /** The rows of a non-empty dictionary between two borders make a framed table. */
  lemma Laid(entries: seq<(string, Value)>, rows: seq<string>)
    requires entries != [] && |rows| == |entries|
    requires forall j :: 0 <= j < |entries| ==>
      Row(entries[j].0, entries[j].1, KeyWidth(entries).value, ValueWidth(entries).value) == Ok(rows[j])
    ensures var border := Border(KeyWidth(entries).value, ValueWidth(entries).value);
      Framed(border + "\n" + Join(rows) + border, border, |entries|)
  {
    var kw, vw := KeyWidth(entries).value, ValueWidth(entries).value;
    RowWidths(entries, kw, vw, rows);
    Assembled(Border(kw, vw), rows, |entries|);
  }

  /**
   * `dict_to_table`: the border, a newline, the rows and the border again.
   * An empty dictionary raises ValueError from `max`, a value that refuses a
   * width raises TypeError; otherwise the table is exactly the border, a
   * newline, the entries' rows in order and the border, and so (`Laid`,
   * `TableLine`) has two lines more than entries, each as wide as the border.
   */
  method DictToTable(entries: seq<(string, Value)>) returns (r: Result<string>)
    ensures entries == [] ==> r == Err(ValueError)
    ensures entries != [] ==> (r.Ok? <==> Formattable(entries))
    ensures entries != [] && r.Err? ==> r.error == TypeError
    ensures r.Ok? ==>
      KeyWidth(entries).Ok? && ValueWidth(entries).Ok?
      && Framed(r.value, Border(KeyWidth(entries).value, ValueWidth(entries).value), |entries|)
    ensures r.Ok? ==>
      KeyWidth(entries).Ok? && ValueWidth(entries).Ok? && Formattable(entries)
      && var border := Border(KeyWidth(entries).value, ValueWidth(entries).value);
         r.value == border + "\n" + Join(RowTexts(entries, KeyWidth(entries).value, ValueWidth(entries).value)) + border
  {
    var kw := KeyWidth(entries);
    if kw.Err? {
      return Err(kw.error);
    }
    var vw := ValueWidth(entries).value;
    var border := Border(kw.value, vw);
    var rows := Rows(entries, kw.value, vw);
    if rows.Err? {
      return Err(rows.error);
    }
    assert rows.value == RowTexts(entries, kw.value, vw);
    r := Ok(border + "\n" + Join(rows.value) + border);
    Laid(entries, rows.value);
  }
}
