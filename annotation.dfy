/**
 * How `/predict` turns what the classifier returns into the downloadable
 * results table: the positive-class probability column is taken from
 * `predict_proba` only when it is a 2-D array with at least two columns,
 * and the copy of the uploaded table gets a label column and, when
 * probabilities exist, a probability column.
 */
module Annotation {
  import opened Wrappers
  import opened Frames

  /** A numpy array of two dimensions: its rows and the common row width. */
  datatype Matrix = Matrix(rows: seq<seq<real>>, width: nat)

  predicate Rectangular(m: Matrix)
  {
    forall i :: 0 <= i < |m.rows| ==> |m.rows[i]| == m.width
  }

  type NdMatrix = m: Matrix | Rectangular(m) witness Matrix([], 0)

  /**
   * What calling `predict_proba` gives: it raised, it returned something that
   * is not a numpy array, a 2-D array, or an array of another dimension.
   */
  datatype ProbaOutput = ProbaRaised | NotNdArray | NdArray2(m: NdMatrix) | NdArrayOther

  const PositiveClass: nat := 1

  /** `probs[:, 1]` when the output has the required shape, else no probabilities. */
  function PositiveClassProbabilities(hasPredictProba: bool, out: ProbaOutput): (r: Option<seq<real>>)
    ensures r.Some? <==> hasPredictProba && out.NdArray2? && out.m.width > PositiveClass
    ensures r.Some? ==>
      |r.value| == |out.m.rows| && forall i :: 0 <= i < |r.value| ==> r.value[i] == out.m.rows[i][PositiveClass]
  {
    if hasPredictProba && out.NdArray2? && out.m.width >= 2 then
      var m := out.m;
      Some(seq(|m.rows|, i requires 0 <= i < |m.rows| => m.rows[i][PositiveClass]))
    else None
  }

  const PredictionColumn := "Fraud Prediction"
  const ProbabilityColumn := "Fraud Probability"
  const LegitimateLabel := "Legitimate"
  const FraudulentLabel := "Fraudulent"
  /** The text of the pandas error for a column whose length differs from the index. */
  const LengthMismatchMessage := "Length of values does not match length of index"

  /** `.map({0: 'Legitimate', 1: 'Fraudulent'})` on one prediction: any other value maps to NaN. */
  function PredictionLabel(p: int): Cell
  {
    if p == 0 then Text(LegitimateLabel)
    else if p == 1 then Text(FraudulentLabel)
    else NaN
  }

  function NumberCells(s: seq<real>): (r: seq<Cell>)
    ensures |r| == |s| && forall i :: 0 <= i < |s| ==> r[i] == Number(s[i])
  {
    seq(|s|, i requires 0 <= i < |s| => Number(s[i]))
  }

  function PredictionCells(preds: seq<int>): (r: seq<Cell>)
    ensures |r| == |preds| && forall i :: 0 <= i < |preds| ==> r[i] == Number(preds[i] as real)
  {
    seq(|preds|, i requires 0 <= i < |preds| => Number(preds[i] as real))
  }

  function LabelCells(preds: seq<int>): (r: seq<Cell>)
    ensures |r| == |preds| && forall i :: 0 <= i < |preds| ==> r[i] == PredictionLabel(preds[i])
  {
    seq(|preds|, i requires 0 <= i < |preds| => PredictionLabel(preds[i]))
  }

  /** The labels the results add after the uploaded ones, in order of assignment. */
  function NewNames(base: Table, proba: Option<seq<real>>): seq<string>
  {
    (if PredictionColumn in base.names then [] else [PredictionColumn])
    + (if proba.Some? && ProbabilityColumn !in base.names then [ProbabilityColumn] else [])
  }

  /**
   * The results table built from a copy of the uploaded table: the raw
   * predictions are assigned, then replaced by their labels, then the
   * probabilities are assigned when there are some. Each assignment fails
   * as pandas does when its length differs from the row count.
   */
  function ResultsTable(base: Table, preds: seq<int>, proba: Option<seq<real>>): (r: Result<Table, string>)
    ensures r.Ok? <==> |preds| == base.rows && (proba.Some? ==> |proba.value| == base.rows)
    ensures r.Ok? ==>
      && r.value.rows == base.rows
      && r.value.names == base.names + NewNames(base, proba)
      && r.value.columns.Keys == base.columns.Keys + {PredictionColumn} + (if proba.Some? then {ProbabilityColumn} else {})
      && r.value.columns[PredictionColumn] == Column(Object, LabelCells(preds))
      && (proba.Some? ==> r.value.columns[ProbabilityColumn] == Column(Numeric, NumberCells(proba.value)))
      && forall c :: c in base.columns && c != PredictionColumn && (proba.Some? ==> c != ProbabilityColumn) ==>
           r.value.columns[c] == base.columns[c]
    ensures r.Ok? && WellFormed(base) ==> WellFormed(r.value)
  {
    if |preds| != base.rows then Err(LengthMismatchMessage)
    else
      var raw := Assign(base, PredictionColumn, Column(Numeric, PredictionCells(preds)));
      var labelled := Assign(raw, PredictionColumn, Column(Object, LabelCells(preds)));
      AssignWellFormedIf(base, PredictionColumn, Column(Numeric, PredictionCells(preds)));
      AssignWellFormedIf(raw, PredictionColumn, Column(Object, LabelCells(preds)));
      match proba
      case None => Ok(labelled)
      case Some(p) =>
        if |p| != base.rows then Err(LengthMismatchMessage)
        else
          AssignWellFormedIf(labelled, ProbabilityColumn, Column(Numeric, NumberCells(p)));
          Ok(Assign(labelled, ProbabilityColumn, Column(Numeric, NumberCells(p))))
  }

  lemma AssignWellFormedIf(t: Table, name: string, col: Column)
    requires ColumnFits(col, t.rows)
    ensures WellFormed(t) ==> WellFormed(Assign(t, name, col))
  {
    if WellFormed(t) {
      AssignWellFormed(t, name, col);
    }
  }

  /** The label column reads back as the prediction: Fraudulent exactly for 1, Legitimate exactly for 0. */
  lemma LabelsReadBack(base: Table, preds: seq<int>, proba: Option<seq<real>>, i: nat)
    requires ResultsTable(base, preds, proba).Ok? && i < |preds|
    ensures var cell := ResultsTable(base, preds, proba).value.columns[PredictionColumn].cells[i];
      && (cell == Text(FraudulentLabel) <==> preds[i] == 1)
      && (cell == Text(LegitimateLabel) <==> preds[i] == 0)
      && (cell.NaN? <==> preds[i] != 0 && preds[i] != 1)
  {
    assert FraudulentLabel[0] != LegitimateLabel[0];
  }

  /**
   * Carries out the assignments on the results frame in place, stopping at
   * the first one whose length does not match.
   */
  method AnnotateResults(results: Frame, preds: seq<int>, proba: Option<seq<real>>) returns (error: Option<string>)
    requires results.Valid()
    modifies results
    ensures results.Valid()
    ensures error.None? <==> ResultsTable(old(results.Value()), preds, proba).Ok?
    ensures error.None? ==> results.Value() == ResultsTable(old(results.Value()), preds, proba).value
    ensures error.Some? ==> error.value == LengthMismatchMessage
  {
    if |preds| != results.rows {
      return Some(LengthMismatchMessage);
    }
    results.AssignColumn(PredictionColumn, Column(Numeric, PredictionCells(preds)));
    results.AssignColumn(PredictionColumn, Column(Object, LabelCells(preds)));
    if proba.Some? {
      if |proba.value| != results.rows {
        return Some(LengthMismatchMessage);
      }
      results.AssignColumn(ProbabilityColumn, Column(Numeric, NumberCells(proba.value)));
    }
    return None;
  }
}
