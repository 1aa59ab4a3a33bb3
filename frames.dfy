/**
 * The tabular data the pipeline works on: a pandas DataFrame as a value
 * (`Table`) and as a mutable object (`Frame`) whose columns are assigned in
 * place, the way `df[col] = ...` does.
 */
module Frames {

  /** One cell: a number, a missing value (NaN), a boolean or a text value. */
  datatype Cell = Number(x: real) | NaN | Flag(b: bool) | Text(s: string)

  /**
   * The dtype classes the pipeline tells apart. `Numeric` stands for the
   * integer and float dtypes (`np.number`), `Boolean` for `bool`, and
   * `Object` for everything else (text columns as read from a CSV).
   */
  datatype DType = Numeric | Boolean | Object

  datatype Column = Column(dtype: DType, cells: seq<Cell>)

  /** A table: column names in order, the column of each name, and the row count. */
  datatype Table = Table(names: seq<string>, columns: map<string, Column>, rows: nat)

  /** Which cells a column of the given dtype can hold (NaN is a float). */
  predicate CellFits(dtype: DType, c: Cell)
  {
    match dtype
    case Numeric => c.Number? || c.NaN?
    case Boolean => c.Flag?
    case Object => true
  }

  predicate ColumnFits(col: Column, rows: nat)
  {
    && |col.cells| == rows
    && forall i :: 0 <= i < |col.cells| ==> CellFits(col.dtype, col.cells[i])
  }

  predicate Distinct(s: seq<string>)
  {
    forall i, j :: 0 <= i < j < |s| ==> s[i] != s[j]
  }

  /**
   * The invariant every DataFrame keeps: distinct column labels (read_csv
   * renames duplicates), exactly one column per label, every column as long
   * as the index and holding cells its dtype allows.
   */
  predicate WellFormed(t: Table)
  {
    && Distinct(t.names)
    && (forall c :: c in t.columns ==> c in t.names)
    && (forall c :: c in t.names ==> c in t.columns)
    && (forall c :: c in t.columns ==> ColumnFits(t.columns[c], t.rows))
  }

  /** `df[name] = col`: replaces an existing column in place, or appends a new one at the end. */
  function Assign(t: Table, name: string, col: Column): (r: Table)
    ensures r.rows == t.rows
    ensures name in t.names ==> r.names == t.names
    ensures name !in t.names ==> r.names == t.names + [name]
    ensures r.columns.Keys == t.columns.Keys + {name}
    ensures r.columns[name] == col
    ensures forall c :: c in t.columns && c != name ==> r.columns[c] == t.columns[c]
  {
    Table(if name in t.names then t.names else t.names + [name], t.columns[name := col], t.rows)
  }

  lemma AssignWellFormed(t: Table, name: string, col: Column)
    requires WellFormed(t) && ColumnFits(col, t.rows)
    ensures WellFormed(Assign(t, name, col))
  {
    var r := Assign(t, name, col);
    if name !in t.names {
      forall i, j | 0 <= i < j < |r.names| ensures r.names[i] != r.names[j] {
        if j == |t.names| {
          assert r.names[i] == t.names[i];
        }
      }
    }
  }

  /** The labels of `s` other than `name`, in order. */
  function Without(s: seq<string>, name: string): (r: seq<string>)
    ensures forall x :: x in r <==> x in s && x != name
    ensures |r| <= |s|
  {
    if s == [] then []
    else if s[0] == name then Without(s[1..], name)
    else [s[0]] + Without(s[1..], name)
  }

  /** Without the label present, nothing is removed. */
  lemma {:induction false} WithoutAbsent(s: seq<string>, name: string)
    requires name !in s
    ensures Without(s, name) == s
  {
    if s != [] {
      assert name !in s[1..];
      WithoutAbsent(s[1..], name);
    }
  }

  /** With the label once, at `k`, exactly that position is removed and the rest keep their order. */
  lemma {:induction false} WithoutAt(s: seq<string>, name: string, k: nat)
    requires k < |s| && s[k] == name && name !in s[..k] + s[k + 1..]
    ensures Without(s, name) == s[..k] + s[k + 1..]
  {
    if k == 0 {
      assert s[1..] == s[..0] + s[1..];
      WithoutAbsent(s[1..], name);
    } else {
      var tail := s[1..];
      assert tail[..k - 1] + tail[k..] == s[1..k] + s[k + 1..];
      assert s[..k] + s[k + 1..] == [s[0]] + (s[1..k] + s[k + 1..]);
      assert s[0] in s[..k] + s[k + 1..];
      WithoutAt(tail, name, k - 1);
    }
  }

  lemma DistinctTail(s: seq<string>)
    requires Distinct(s) && s != []
    ensures Distinct(s[1..]) && s[0] !in s[1..]
  {
    forall i, j | 0 <= i < j < |s[1..]| ensures s[1..][i] != s[1..][j] {
      assert s[1..][i] == s[i + 1] && s[1..][j] == s[j + 1];
    }
    forall k | 0 <= k < |s[1..]| ensures s[1..][k] != s[0] {
      assert s[1..][k] == s[k + 1];
    }
  }

  lemma ConsDistinct(x: string, t: seq<string>)
    requires Distinct(t) && x !in t
    ensures Distinct([x] + t)
  {
    var r := [x] + t;
    forall i, j | 0 <= i < j < |r| ensures r[i] != r[j] {
      assert r[j] == t[j - 1];
      if i > 0 {
        assert r[i] == t[i - 1];
      }
    }
  }

  lemma {:induction false} WithoutDistinct(s: seq<string>, name: string)
    requires Distinct(s)
    ensures Distinct(Without(s, name))
  {
    if s != [] {
      DistinctTail(s);
      WithoutDistinct(s[1..], name);
      if s[0] != name {
        ConsDistinct(s[0], Without(s[1..], name));
      }
    }
  }

  /** `df.drop(name, axis=1)`: the table without that column, other columns in their order. */
  function Drop(t: Table, name: string): (r: Table)
    ensures r.names == Without(t.names, name)
    ensures r.rows == t.rows
    ensures r.columns.Keys == t.columns.Keys - {name}
    ensures forall c :: c in r.columns ==> r.columns[c] == t.columns[c]
  {
    Table(Without(t.names, name), t.columns - {name}, t.rows)
  }

  lemma DropWellFormed(t: Table, name: string)
    requires WellFormed(t)
    ensures WellFormed(Drop(t, name))
  {
    WithoutDistinct(t.names, name);
  }

  /** `fillna(0)` on one column: every NaN cell becomes the number 0. */
  function FillColumn(col: Column): (r: Column)
    ensures r.dtype == col.dtype && |r.cells| == |col.cells|
    ensures forall i :: 0 <= i < |r.cells| ==> !r.cells[i].NaN?
    ensures forall i :: 0 <= i < |r.cells| && col.cells[i].NaN? ==> r.cells[i] == Number(0.0)
    ensures forall i :: 0 <= i < |r.cells| && !col.cells[i].NaN? ==> r.cells[i] == col.cells[i]
  {
    Column(col.dtype, seq(|col.cells|, i requires 0 <= i < |col.cells| =>
      if col.cells[i].NaN? then Number(0.0) else col.cells[i]))
  }

  /** `df.fillna(0)`: a new table in which no cell is NaN. */
  function FillNa(t: Table): (r: Table)
    ensures r.names == t.names && r.rows == t.rows && r.columns.Keys == t.columns.Keys
    ensures forall c :: c in r.columns ==> r.columns[c] == FillColumn(t.columns[c])
  {
    Table(t.names, map c | c in t.columns :: FillColumn(t.columns[c]), t.rows)
  }

  lemma FillNaWellFormed(t: Table)
    requires WellFormed(t)
    ensures WellFormed(FillNa(t))
  {
    var r := FillNa(t);
    forall c | c in r.columns ensures ColumnFits(r.columns[c], r.rows) {
      var before, after := t.columns[c], r.columns[c];
      forall i | 0 <= i < |after.cells| ensures CellFits(after.dtype, after.cells[i]) {
        assert CellFits(before.dtype, before.cells[i]);
      }
    }
  }

  /** A DataFrame object: its column labels, its columns and its row count, updated in place. */
  class Frame {
    var names: seq<string>
    var columns: map<string, Column>
    var rows: nat

    /** The table this frame holds now. */
    function Value(): Table
      reads this
    {
      Table(names, columns, rows)
    }

    predicate Valid()
      reads this
    {
      WellFormed(Value())
    }

    constructor (t: Table)
      requires WellFormed(t)
      ensures Valid() && Value() == t
    {
      names, columns, rows := t.names, t.columns, t.rows;
    }

    /** `df.copy()`. */
    method Copy() returns (f: Frame)
      requires Valid()
      ensures fresh(f) && f.Valid() && f.Value() == Value()
    {
      f := new Frame(Value());
    }

    /** `df.drop(name, axis=1)`, which returns a new frame. */
    method DropColumn(name: string) returns (f: Frame)
      requires Valid()
      ensures fresh(f) && f.Valid() && f.Value() == Drop(Value(), name)
    {
      DropWellFormed(Value(), name);
      f := new Frame(Drop(Value(), name));
    }

    /** `df.fillna(0)`, which returns a new frame. */
    method FillNaZero() returns (f: Frame)
      requires Valid()
      ensures fresh(f) && f.Valid() && f.Value() == FillNa(Value())
    {
      FillNaWellFormed(Value());
      f := new Frame(FillNa(Value()));
    }

    /** `df[name] = col`, in place. */
    method AssignColumn(name: string, col: Column)
      requires Valid() && ColumnFits(col, rows)
      modifies this
      ensures Valid() && Value() == Assign(old(Value()), name, col)
    {
      AssignWellFormed(Value(), name, col);
      var t := Assign(Value(), name, col);
      names, columns := t.names, t.columns;
    }
  }
}
