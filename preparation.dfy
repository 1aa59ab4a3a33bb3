/**
 * Feature preparation (`prepare_data_for_prediction`): split off the
 * optional `Class` label column, coerce every non-numeric column to numbers
 * and fill missing values with 0.
 */
module Preparation {
  import opened Wrappers
  import opened Frames

  const ClassColumn := "Class"

  /**
   * What `pd.to_numeric(..., errors='coerce')` makes of one text value: a
   * number, a value it cannot parse (it becomes NaN), or a value of a kind
   * that makes the whole conversion raise.
   */
  datatype Parsed = Parsed(x: real) | Unparsable | Raises

  /** `pd.api.types.is_numeric_dtype`: true for number and for bool dtypes. */
  predicate IsNumericDType(d: DType)
  {
    d == Numeric || d == Boolean
  }

  predicate ConversionRaises(col: Column, parse: string -> Parsed)
  {
    exists i :: 0 <= i < |col.cells| && col.cells[i].Text? && parse(col.cells[i].s).Raises?
  }

  /** One cell through `to_numeric` when the conversion does not raise. */
  function ToNumericCell(c: Cell, parse: string -> Parsed): (r: Cell)
    ensures r.Number? || r.NaN?
    ensures c.Number? || c.NaN? ==> r == c
    ensures c.Flag? ==> r == Number(if c.b then 1.0 else 0.0)
    ensures c.Text? && parse(c.s).Parsed? ==> r == Number(parse(c.s).x)
    ensures c.Text? && parse(c.s).Unparsable? ==> r == NaN
  {
    match c
    case Number(_) => c
    case NaN => c
    case Flag(b) => Number(if b then 1.0 else 0.0)
    case Text(s) => if parse(s).Parsed? then Number(parse(s).x) else NaN
  }

  /**
   * The column that replaces a non-numeric column: its `to_numeric`
   * conversion, or a column of zeros when that conversion raises.
   */
  function ToNumericColumn(col: Column, parse: string -> Parsed): (r: Column)
    ensures r.dtype == Numeric && |r.cells| == |col.cells|
    ensures ConversionRaises(col, parse) ==> forall i :: 0 <= i < |r.cells| ==> r.cells[i] == Number(0.0)
    ensures !ConversionRaises(col, parse) ==>
      forall i :: 0 <= i < |r.cells| ==> r.cells[i] == ToNumericCell(col.cells[i], parse)
  {
    if ConversionRaises(col, parse) then
      Column(Numeric, seq(|col.cells|, _ => Number(0.0)))
    else
      Column(Numeric, seq(|col.cells|, i requires 0 <= i < |col.cells| => ToNumericCell(col.cells[i], parse)))
  }

  /** A column after the coercion loop has visited it. */
  function Ensured(col: Column, parse: string -> Parsed): Column
  {
    if IsNumericDType(col.dtype) then col else ToNumericColumn(col, parse)
  }

  /** The table after the coercion loop: names and order unchanged, each column `Ensured`. */
  function CoerceAll(t: Table, parse: string -> Parsed): (r: Table)
  {
    Table(t.names, map c | c in t.columns :: Ensured(t.columns[c], parse), t.rows)
  }

  /** `actual_labels`: the `Class` column when there is one. */
  function ClassLabels(t: Table): Option<Column>
    requires WellFormed(t)
  {
    if ClassColumn in t.names then Some(t.columns[ClassColumn]) else None
  }

  /** The frame the coercion loop runs on: a copy without `Class`, or the input itself. */
  function Unlabelled(t: Table): Table
  {
    if ClassColumn in t.names then Drop(t, ClassColumn) else t
  }

  /** The returned feature table. */
  function PreparedFeatures(t: Table, parse: string -> Parsed): Table
  {
    FillNa(CoerceAll(Unlabelled(t), parse))
  }

  /**
   * What the caller's own table holds afterwards. Without a `Class` column
   * the loop ran on the caller's frame, so its non-numeric columns are
   * coerced (NaN not yet filled); with one, it ran on a copy.
   */
  function InputAfterPrepare(t: Table, parse: string -> Parsed): Table
  {
    if ClassColumn in t.names then t else CoerceAll(t, parse)
  }

  lemma EnsuredFits(col: Column, rows: nat, parse: string -> Parsed)
    requires ColumnFits(col, rows)
    ensures ColumnFits(Ensured(col, parse), rows)
    ensures Ensured(col, parse).dtype != Object
  {
  }

  lemma CoerceAllWellFormed(t: Table, parse: string -> Parsed)
    requires WellFormed(t)
    ensures WellFormed(CoerceAll(t, parse))
  {
    forall c | c in t.columns {
      EnsuredFits(t.columns[c], t.rows, parse);
    }
  }

  /** The coercion loop at utils.py:60-65, run on frame `f` in place. */
  method CoerceNonNumeric(f: Frame, parse: string -> Parsed)
    requires f.Valid()
    modifies f
    ensures f.Valid() && f.Value() == CoerceAll(old(f.Value()), parse)
  {
    ghost var t0 := f.Value();
    var i := 0;
    while i < |f.names|
      invariant 0 <= i <= |t0.names|
      invariant f.Valid()
      invariant f.names == t0.names && f.rows == t0.rows && f.columns.Keys == t0.columns.Keys
      invariant forall c :: c in t0.columns ==>
        f.columns[c] == if c in t0.names[..i] then Ensured(t0.columns[c], parse) else t0.columns[c]
    {
      var name := f.names[i];
      assert t0.names[..i + 1] == t0.names[..i] + [name];
      assert name !in t0.names[..i];
      if !IsNumericDType(f.columns[name].dtype) {
        EnsuredFits(f.columns[name], f.rows, parse);
        f.AssignColumn(name, ToNumericColumn(f.columns[name], parse));
      }
      i := i + 1;
    }
    assert t0.names[..i] == t0.names;
  }

  /**
   * `prepare_data_for_prediction`. Returns the feature frame and the labels;
   * when there is no `Class` column the coercion writes into `data` itself.
   */
  method PrepareDataForPrediction(data: Frame, parse: string -> Parsed) returns (features: Frame, labels: Option<Column>)
    requires data.Valid()
    modifies data
    ensures fresh(features) && features.Valid()
    ensures labels == ClassLabels(old(data.Value()))
    ensures features.Value() == PreparedFeatures(old(data.Value()), parse)
    ensures data.Valid() && data.Value() == InputAfterPrepare(old(data.Value()), parse)
  {
    labels := None;
    var working: Frame;
    if ClassColumn in data.names {
      labels := Some(data.columns[ClassColumn]);
      working := data.DropColumn(ClassColumn);
    } else {
      working := data;
    }
    CoerceNonNumeric(working, parse);
    features := working.FillNaZero();
  }

  /** After preparation no cell is NaN or text: every cell is a number (or a bool of a bool column). */
  lemma PreparedIsNumeric(t: Table, parse: string -> Parsed)
    requires WellFormed(t)
    ensures WellFormed(PreparedFeatures(t, parse))
    ensures forall c :: c in PreparedFeatures(t, parse).columns ==> PreparedFeatures(t, parse).columns[c].dtype != Object
    ensures forall c, i :: c in PreparedFeatures(t, parse).columns && 0 <= i < PreparedFeatures(t, parse).rows ==>
      var cell := PreparedFeatures(t, parse).columns[c].cells[i];
      cell.Number? || cell.Flag?
  {
    var u := Unlabelled(t);
    if ClassColumn in t.names { DropWellFormed(t, ClassColumn); }
    CoerceAllWellFormed(u, parse);
    var k := CoerceAll(u, parse);
    FillNaWellFormed(k);
    var r := PreparedFeatures(t, parse);
    forall c, i | c in r.columns && 0 <= i < r.rows ensures r.columns[c].cells[i].Number? || r.columns[c].cells[i].Flag? {
      EnsuredFits(u.columns[c], u.rows, parse);
      assert CellFits(k.columns[c].dtype, k.columns[c].cells[i]);
    }
    forall c | c in r.columns ensures r.columns[c].dtype != Object {
      EnsuredFits(u.columns[c], u.rows, parse);
    }
  }

  /**
   * The label split: with a `Class` column the labels are that column and the
   * features are every other column in order; without one there are no labels
   * and the features keep every input column, in order.
   */
  lemma PreparedSplit(t: Table, parse: string -> Parsed)
    requires WellFormed(t)
    ensures ClassColumn in t.names ==>
      && ClassLabels(t) == Some(t.columns[ClassColumn])
      && PreparedFeatures(t, parse).names == Without(t.names, ClassColumn)
      && ClassColumn !in PreparedFeatures(t, parse).names
    ensures ClassColumn !in t.names ==>
      ClassLabels(t).None? && PreparedFeatures(t, parse).names == t.names
    ensures PreparedFeatures(t, parse).rows == t.rows
  {
  }

  /** Numeric columns pass through preparation untouched except that NaN becomes 0. */
  lemma NumericColumnsKept(t: Table, parse: string -> Parsed, c: string)
    requires WellFormed(t) && c in t.columns && c != ClassColumn && IsNumericDType(t.columns[c].dtype)
    ensures PreparedFeatures(t, parse).columns[c] == FillColumn(t.columns[c])
  {
  }

  /**
   * A text column of the features ends up all numbers: all zeros when its
   * conversion raises, otherwise each parsable value becomes its number and
   * each unparsable value becomes NaN and then 0.
   */
  lemma ObjectColumnPrepared(t: Table, parse: string -> Parsed, c: string, i: nat)
    requires WellFormed(t) && c in t.columns && c != ClassColumn && t.columns[c].dtype == Object && i < t.rows
    ensures ConversionRaises(t.columns[c], parse) ==> PreparedFeatures(t, parse).columns[c].cells[i] == Number(0.0)
    ensures !ConversionRaises(t.columns[c], parse) && t.columns[c].cells[i].Text? ==>
      var s := t.columns[c].cells[i].s;
      PreparedFeatures(t, parse).columns[c].cells[i] == if parse(s).Parsed? then Number(parse(s).x) else Number(0.0)
  {
  }

  /**
   * The caller's table is left as it was exactly when it has a `Class`
   * column or no non-numeric column; otherwise the coercion shows through.
   */
  lemma InputUnchangedIff(t: Table, parse: string -> Parsed)
    requires WellFormed(t)
    ensures InputAfterPrepare(t, parse) == t <==>
      ClassColumn in t.names || forall c :: c in t.columns ==> IsNumericDType(t.columns[c].dtype)
  {
    if ClassColumn !in t.names {
      var r := CoerceAll(t, parse);
      if forall c :: c in t.columns ==> IsNumericDType(t.columns[c].dtype) {
        assert r.columns == t.columns;
      } else {
        var c :| c in t.columns && !IsNumericDType(t.columns[c].dtype);
        assert r.columns[c].dtype == Numeric;
      }
    }
  }
}
