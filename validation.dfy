/**
 * The schema check applied to an uploaded table before scoring
 * (`validate_csv_data`): three checks, in order, each ending the check with
 * its own message.
 */
module Validation {
  import opened Frames

  /** What the check sees of one column: its label and whether its dtype is an `np.number` dtype. */
  datatype ColumnInfo = ColumnInfo(name: string, numeric: bool)

  /** The `(is_valid, error_message)` pair. */
  datatype Verdict = Verdict(valid: bool, message: string)

  const MinColumns: nat := 5
  /** How many of the expected feature columns may be missing. */
  const MaxMissingFeatures: nat := 20

  const TooFewColumnsMessage := "CSV must contain at least 5 columns"
  const MissingFeaturesPrefix := "Missing many expected feature columns: "
  const NotNumericMessage := "Most columns should be numeric"
  const PassedMessage := "Data validation passed"

  /** The names `V1` to `V28` of the anonymised principal-component features, in order. */
  const ExpectedFeatures: seq<string> :=
    [ "V1", "V2", "V3", "V4", "V5", "V6", "V7", "V8", "V9", "V10",
      "V11", "V12", "V13", "V14", "V15", "V16", "V17", "V18", "V19", "V20",
      "V21", "V22", "V23", "V24", "V25", "V26", "V27", "V28" ]

  /** The column view of a table, in column order. */
  function Schema(t: Table): (r: seq<ColumnInfo>)
    requires WellFormed(t)
    ensures |r| == |t.names|
    ensures forall i :: 0 <= i < |r| ==>
      r[i].name == t.names[i] && (r[i].numeric <==> t.columns[t.names[i]].dtype == Numeric)
  {
    seq(|t.names|, i requires 0 <= i < |t.names| =>
      ColumnInfo(t.names[i], t.columns[t.names[i]].dtype == Numeric))
  }

  function Names(cols: seq<ColumnInfo>): (r: seq<string>)
    ensures |r| == |cols| && forall i :: 0 <= i < |cols| ==> r[i] == cols[i].name
  {
    seq(|cols|, i requires 0 <= i < |cols| => cols[i].name)
  }

  /** The entries of `s` that are (`keep`) or are not (`!keep`) among `names`, in order. */
  function Filter(s: seq<string>, names: seq<string>, keep: bool): (r: seq<string>)
    ensures forall x :: x in r <==> x in s && ((x in names) == keep)
  {
    if s == [] then []
    else if (s[0] in names) == keep then [s[0]] + Filter(s[1..], names, keep)
    else Filter(s[1..], names, keep)
  }

  /**
   * Filtering keeps order: filtering a concatenation filters each part and
   * puts the results one after the other, so the kept names appear as in `s`.
   */
  lemma {:induction false} FilterAppend(a: seq<string>, b: seq<string>, names: seq<string>, keep: bool)
    ensures Filter(a + b, names, keep) == Filter(a, names, keep) + Filter(b, names, keep)
  {
    if a == [] {
      assert a + b == b;
    } else {
      assert (a + b)[0] == a[0];
      assert (a + b)[1..] == a[1..] + b;
      FilterAppend(a[1..], b, names, keep);
    }
  }

  /** The expected feature names that no column carries, in the order `V1..V28`. */
  function MissingFeatures(cols: seq<ColumnInfo>): seq<string>
  {
    Filter(ExpectedFeatures, Names(cols), false)
  }

  /** The expected feature names that some column carries. */
  function PresentFeatures(cols: seq<ColumnInfo>): seq<string>
  {
    Filter(ExpectedFeatures, Names(cols), true)
  }

  function NumericCount(cols: seq<ColumnInfo>): (n: nat)
    ensures n <= |cols|
  {
    if cols == [] then 0 else (if cols[0].numeric then 1 else 0) + NumericCount(cols[1..])
  }

  function Join(items: seq<string>): string
  {
    if items == [] then ""
    else if |items| == 1 then items[0]
    else items[0] + ", " + Join(items[1..])
  }

  /** How Python prints a list of strings: `['V1', 'V2']`. */
  function ListRepr(items: seq<string>): string
  {
    "[" + Join(seq(|items|, i requires 0 <= i < |items| => "'" + items[i] + "'")) + "]"
  }

  function MissingMessage(missing: seq<string>): string
  {
    MissingFeaturesPrefix + ListRepr(if |missing| <= 5 then missing else missing[..5]) + "..."
  }

  /** The numeric-share rule: at least 80% of the columns numeric. */
  predicate MostlyNumeric(cols: seq<ColumnInfo>)
  {
    NumericCount(cols) as real >= |cols| as real * 0.8
  }

  /**
   * `validate_csv_data`. The checks run in the source's order; the first
   * that fails decides the message, and only a table that passes all three is valid.
   */
  function ValidateCsvData(cols: seq<ColumnInfo>): (r: Verdict)
    ensures |cols| < MinColumns ==> r == Verdict(false, TooFewColumnsMessage)
    ensures |cols| >= MinColumns && |MissingFeatures(cols)| > MaxMissingFeatures ==>
      r == Verdict(false, MissingMessage(MissingFeatures(cols)))
    ensures |cols| >= MinColumns && |MissingFeatures(cols)| <= MaxMissingFeatures && !MostlyNumeric(cols) ==>
      r == Verdict(false, NotNumericMessage)
    ensures r.valid <==>
      |cols| >= MinColumns && |MissingFeatures(cols)| <= MaxMissingFeatures && MostlyNumeric(cols)
    ensures r.valid ==> r.message == PassedMessage
  {
    if |cols| < MinColumns then Verdict(false, TooFewColumnsMessage)
    else
      var missing := MissingFeatures(cols);
      if |missing| > MaxMissingFeatures then Verdict(false, MissingMessage(missing))
      else if NumericCount(cols) as real < |cols| as real * 0.8 then Verdict(false, NotNumericMessage)
      else Verdict(true, PassedMessage)
  }

  /** Every expected feature is either missing or present: the two lists split the 28 names. */
  lemma {:induction false} FilterPartition(s: seq<string>, names: seq<string>)
    ensures |Filter(s, names, true)| + |Filter(s, names, false)| == |s|
  {
    if s != [] {
      FilterPartition(s[1..], names);
    }
  }

  /** When no entry of `s` is among `names`, none is kept. */
  lemma {:induction false} FilterNoneKept(s: seq<string>, names: seq<string>)
    requires forall x :: x in s ==> x !in names
    ensures Filter(s, names, true) == []
  {
    if s != [] {
      FilterNoneKept(s[1..], names);
    }
  }

  /** The missing-feature rule in positive form: the check passes exactly when at least 8 of `V1..V28` are present. */
  lemma MissingToleranceIff(cols: seq<ColumnInfo>)
    ensures |MissingFeatures(cols)| <= MaxMissingFeatures <==> |PresentFeatures(cols)| >= 8
  {
    FilterPartition(ExpectedFeatures, Names(cols));
  }

  /** The numeric-share rule in integer form: `numeric < 0.8 * n` exactly when `5 * numeric < 4 * n`. */
  lemma MostlyNumericIff(cols: seq<ColumnInfo>)
    ensures MostlyNumeric(cols) <==> 5 * NumericCount(cols) >= 4 * |cols|
  {
  }

  /** A table with no `V` column at all and at least 5 columns always fails on the missing-feature rule. */
  lemma NoFeaturesRejected(cols: seq<ColumnInfo>)
    requires |cols| >= MinColumns
    requires forall i :: 0 <= i < |cols| ==> cols[i].name !in ExpectedFeatures
    ensures ValidateCsvData(cols) == Verdict(false, MissingMessage(MissingFeatures(cols)))
  {
    forall x | x in Names(cols) ensures x !in ExpectedFeatures {
      var i :| 0 <= i < |cols| && Names(cols)[i] == x;
    }
    FilterNoneKept(ExpectedFeatures, Names(cols));
    MissingToleranceIff(cols);
  }
}
