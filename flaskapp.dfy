/**
 * The web application's state and its two stateful routes. `App` holds the
 * model loaded at start-up and the in-memory results store that maps a
 * download token to the CSV bytes of one analysis. `/predict` runs the
 * pipeline on an uploaded table and stores its results under a fresh token;
 * `/download/<token>` hands those bytes out once.
 *
 * The request, the CSV parser, the pickled model, the CSV writer, the clock
 * and the token generator are parameters: `upload`, `parse`, the
 * `PickledObject`'s functions, `toCsv`, `now` and `token`.
 */
module FlaskApp {
  import opened Wrappers
  import opened Frames
  import Validation
  import Preparation
  import RiskMetrics
  import SummaryReport
  import ModelLoading
  import Annotation

  newtype byte = x: int | 0 <= x < 256

  /**
   * What unpickling a model file gives: whether it has `predict` and
   * `predict_proba`, and what they return for a feature table.
   */
  datatype PickledObject = PickledObject(
    hasPredict: bool,
    predict: Table -> Result<seq<int>, string>,
    hasPredictProba: bool,
    predictProba: Table -> Annotation.ProbaOutput)

  /** `hasattr(model, "predict")`. */
  function HasPredict(o: PickledObject): bool
  {
    o.hasPredict
  }

  /** What `pd.read_csv` produces when it succeeds: a well-formed table. */
  type DataFrame = t: Table | WellFormed(t) witness Table([], map[], 0)

  /**
   * The multipart request: no `file` part at all, or a part with its file
   * name and what reading it as CSV gives (the table, or the parser's error).
   */
  datatype Upload = NoFilePart | FilePart(filename: string, contents: Result<DataFrame, string>)

  datatype Response =
    | Redirect(message: string, category: string)
    | Rendered(metrics: RiskMetrics.Metrics, rowCount: nat, token: string, modelPath: Option<string>,
               summary: SummaryReport.Report)
    | FileSent(data: seq<byte>)
    | ServerError(reason: string)

  type Store = map<string, seq<byte>>

  /** A route's response and the results store after it. */
  datatype Outcome = Outcome(response: Response, store: Store)

  const Danger := "danger"
  const Warning := "warning"
  const NoFilePartMessage := "No file part in request"
  const NoFileSelectedMessage := "No file selected"
  const NoModelMessage := "Model not available. Please add a trained model file."
  const ReadFailedPrefix := "Failed to read CSV: "
  const ValidationFailedPrefix := "Data validation failed: "
  const PredictionFailedPrefix := "Model prediction failed: "
  const ExpiredMessage := "Your download link has expired. Please re-run the analysis."
  const UnknownModel := "Unknown"

  /** `MODEL_PATH or "Unknown"`: an absent or empty path shows as Unknown, so the shown path is never blank. */
  function ShownPath(p: Option<string>): (r: string)
    ensures p.Some? && p.value != "" ==> r == p.value
    ensures p.None? || p.value == "" ==> r == UnknownModel
    ensures r != ""
  {
    if p.Some? && p.value != "" then p.value else UnknownModel
  }

  /** The results table of a batch: the uploaded table, as preparation left it, with its annotations. */
  function Results(df: DataFrame, parse: string -> Preparation.Parsed, preds: seq<int>, proba: Option<seq<real>>): Result<Table, string>
  {
    Annotation.ResultsTable(Preparation.InputAfterPrepare(df, parse), preds, proba)
  }

  /** `store[token] = bytes` changes no other entry. */
  lemma StoreOnlyUnderToken(store: Store, token: string, bytes: seq<byte>)
    ensures token in store[token := bytes] && store[token := bytes] - {token} == store - {token}
  {
  }

  /** The last step of `/predict`: store the results' CSV under `token` and render the page with the summary. */
  function Publish(store: Store, metrics: RiskMetrics.Metrics, results: Table, token: string, modelPath: Option<string>,
                   now: string, toCsv: Table -> seq<byte>): (o: Outcome)
    requires SummaryReport.HasReportKeys(metrics)
    ensures o.response.Rendered? && o.store == store[token := toCsv(results)]
  {
    var summary := SummaryReport.SummaryOf(metrics, ShownPath(modelPath), now);
    Outcome(Rendered(metrics, results.rows, token, modelPath, summary), store[token := toCsv(results)])
  }

  /**
   * What a rendered page promises about the store and the page: only the
   * entry under `token` changed, the page reports `rows` transactions, and
   * its summary gives the advice of the tier its fraud rate falls in.
   */
  predicate RenderedFor(o: Outcome, store: Store, token: string, modelPath: Option<string>, rows: nat)
  {
    && o.response.Rendered?
    && o.response.token == token && o.response.modelPath == modelPath
    && token in o.store && o.store - {token} == store - {token}
    && o.response.rowCount == rows
    && RiskMetrics.TotalKey in o.response.metrics && RiskMetrics.RateKey in o.response.metrics
    && o.response.metrics[RiskMetrics.TotalKey] == RiskMetrics.Int(rows)
    && |o.response.summary| >= 2
    && o.response.summary[1] ==
         SummaryReport.Assessment(SummaryReport.AdviceOf(RiskMetrics.LevelOf(o.response.metrics[RiskMetrics.RateKey])))
  }

  /**
   * `/predict` from the predictions on: compute the metrics, annotate the
   * (possibly coerced) uploaded table, store and render. An error in the
   * metrics or the results is an uncaught exception and changes nothing.
   */
  function Scored(store: Store, preds: seq<int>, proba: Option<seq<real>>, input: Table, token: string,
                  modelPath: Option<string>, now: string, toCsv: Table -> seq<byte>): (o: Outcome)
    ensures !o.response.Rendered? ==> o.store == store && o.response.ServerError?
    ensures o.response.Rendered? ==> RenderedFor(o, store, token, modelPath, input.rows)
    ensures o.response.Rendered? ==>
      && RiskMetrics.CalculateRiskMetrics(preds, proba).Ok?
      && Annotation.ResultsTable(input, preds, proba).Ok?
      && o.response.metrics == RiskMetrics.CalculateRiskMetrics(preds, proba).value
      && o.store == store[token := toCsv(Annotation.ResultsTable(input, preds, proba).value)]
  {
    match RiskMetrics.CalculateRiskMetrics(preds, proba)
    case Err(e) => Outcome(ServerError(e), store)
    case Ok(metrics) =>
      match Annotation.ResultsTable(input, preds, proba)
      case Err(e) => Outcome(ServerError(e), store)
      case Ok(results) =>
        SummaryReport.AdviceMatchesTier(preds, proba);
        StoreOnlyUnderToken(store, token, toCsv(results));
        SummaryReport.AdviceFollowsLevel(metrics, ShownPath(modelPath), now);
        Publish(store, metrics, results, token, modelPath, now, toCsv)
  }

  /**
   * What `/predict` does once the upload has passed validation: predict on
   * the prepared features and score the batch. A prediction error
   * redirects to the upload form with its message.
   */
  function Analysis(store: Store, classifier: PickledObject, modelPath: Option<string>, df: DataFrame,
                    token: string, now: string, parse: string -> Preparation.Parsed, toCsv: Table -> seq<byte>): (o: Outcome)
    ensures !o.response.Rendered? ==> o.store == store
    ensures o.response.Rendered? ==> RenderedFor(o, store, token, modelPath, df.rows)
    ensures o.response.Rendered? ==> classifier.predict(Preparation.PreparedFeatures(df, parse)).Ok?
    ensures o.response.Rendered? && classifier.predict(Preparation.PreparedFeatures(df, parse)).Ok? ==>
      var features := Preparation.PreparedFeatures(df, parse);
      var preds := classifier.predict(features).value;
      var proba := Annotation.PositiveClassProbabilities(classifier.hasPredictProba, classifier.predictProba(features));
      && RiskMetrics.CalculateRiskMetrics(preds, proba).Ok?
      && Results(df, parse, preds, proba).Ok?
      && o.response.metrics == RiskMetrics.CalculateRiskMetrics(preds, proba).value
      && o.store == store[token := toCsv(Results(df, parse, preds, proba).value)]
  {
    var features := Preparation.PreparedFeatures(df, parse);
    match classifier.predict(features)
    case Err(e) => Outcome(Redirect(PredictionFailedPrefix + e, Danger), store)
    case Ok(preds) =>
      var proba := Annotation.PositiveClassProbabilities(classifier.hasPredictProba, classifier.predictProba(features));
      Scored(store, preds, proba, Preparation.InputAfterPrepare(df, parse), token, modelPath, now, toCsv)
  }

  /**
   * The meaning of `/predict`: the request is checked in order (file part,
   * file name, model, CSV, validation) and the first failure redirects to
   * the upload form with its message and leaves the store as it was; a
   * request that passes them all is analysed.
   */
  function PredictOutcome(store: Store, model: Option<PickledObject>, modelPath: Option<string>, upload: Upload,
                          token: string, now: string, parse: string -> Preparation.Parsed, toCsv: Table -> seq<byte>): (o: Outcome)
    ensures upload.NoFilePart? ==> o == Outcome(Redirect(NoFilePartMessage, Danger), store)
    ensures upload.FilePart? && upload.filename == "" ==> o == Outcome(Redirect(NoFileSelectedMessage, Warning), store)
    ensures upload.FilePart? && upload.filename != "" && model.None? ==> o == Outcome(Redirect(NoModelMessage, Danger), store)
    ensures upload.FilePart? && upload.filename != "" && model.Some? && upload.contents.Err? ==>
      o == Outcome(Redirect(ReadFailedPrefix + upload.contents.error, Danger), store)
    ensures upload.FilePart? && upload.filename != "" && model.Some? && upload.contents.Ok? ==>
      var verdict := Validation.ValidateCsvData(Validation.Schema(upload.contents.value));
      o == if verdict.valid then Analysis(store, model.value, modelPath, upload.contents.value, token, now, parse, toCsv)
           else Outcome(Redirect(ValidationFailedPrefix + verdict.message, Danger), store)
    ensures o.response.Rendered? ==>
      && upload.FilePart? && upload.filename != "" && model.Some? && upload.contents.Ok?
      && Validation.ValidateCsvData(Validation.Schema(upload.contents.value)).valid
      && RenderedFor(o, store, token, modelPath, upload.contents.value.rows)
    ensures !o.response.Rendered? ==> o.store == store
  {
    if upload.NoFilePart? then Outcome(Redirect(NoFilePartMessage, Danger), store)
    else if upload.filename == "" then Outcome(Redirect(NoFileSelectedMessage, Warning), store)
    else if model.None? then Outcome(Redirect(NoModelMessage, Danger), store)
    else if upload.contents.Err? then Outcome(Redirect(ReadFailedPrefix + upload.contents.error, Danger), store)
    else
      var df := upload.contents.value;
      var verdict := Validation.ValidateCsvData(Validation.Schema(df));
      if !verdict.valid then Outcome(Redirect(ValidationFailedPrefix + verdict.message, Danger), store)
      else Analysis(store, model.value, modelPath, df, token, now, parse, toCsv)
  }

  /**
   * An upload with at least 5 columns of which none is one of `V1..V28` is
   * turned away by validation: the model is never called and nothing is stored.
   */
  lemma FeaturelessUploadRejected(store: Store, model: Option<PickledObject>, modelPath: Option<string>, filename: string,
                                  df: DataFrame, token: string, now: string, parse: string -> Preparation.Parsed,
                                  toCsv: Table -> seq<byte>)
    requires filename != "" && model.Some?
    requires |df.names| >= Validation.MinColumns
    requires forall i :: 0 <= i < |df.names| ==> df.names[i] !in Validation.ExpectedFeatures
    ensures var o := PredictOutcome(store, model, modelPath, FilePart(filename, Ok(df)), token, now, parse, toCsv);
      var cols := Validation.Schema(df);
      o == Outcome(Redirect(ValidationFailedPrefix + Validation.MissingMessage(Validation.MissingFeatures(cols)), Danger), store)
  {
    var cols := Validation.Schema(df);
    Validation.NoFeaturesRejected(cols);
  }

  /** A token can be downloaded when it is stored with non-empty bytes (`if not data` treats `b""` as expired). */
  predicate Downloadable(store: Store, token: string)
  {
    token in store && |store[token]| > 0
  }

  /** The meaning of `/download/<token>`: the stored bytes once, then the token is gone. */
  function DownloadOutcome(store: Store, token: string): (o: Outcome)
    ensures o.response.FileSent? <==> Downloadable(store, token)
    ensures Downloadable(store, token) ==> o.response.data == store[token] && o.store == store - {token}
    ensures !Downloadable(store, token) ==> o == Outcome(Redirect(ExpiredMessage, Warning), store)
  {
    if Downloadable(store, token) then Outcome(FileSent(store[token]), store - {token})
    else Outcome(Redirect(ExpiredMessage, Warning), store)
  }

  /** A download link works once: right after a download the same token has expired. */
  lemma DownloadIsOneTime(store: Store, token: string)
    requires Downloadable(store, token)
    ensures var first := DownloadOutcome(store, token);
      && first.response == FileSent(store[token])
      && DownloadOutcome(first.store, token) == Outcome(Redirect(ExpiredMessage, Warning), first.store)
  {
  }

  /**
   * Downloading the token of a rendered analysis hands out exactly the CSV
   * of that analysis's results table (when it is not empty) and leaves the
   * store as it was before the analysis, without that token.
   */
  lemma DownloadAfterPredict(store: Store, classifier: PickledObject, modelPath: Option<string>, df: DataFrame,
                             token: string, now: string, parse: string -> Preparation.Parsed, toCsv: Table -> seq<byte>)
    requires Analysis(store, classifier, modelPath, df, token, now, parse, toCsv).response.Rendered?
    ensures var o := Analysis(store, classifier, modelPath, df, token, now, parse, toCsv);
      var features := Preparation.PreparedFeatures(df, parse);
      var preds := classifier.predict(features).value;
      var proba := Annotation.PositiveClassProbabilities(classifier.hasPredictProba, classifier.predictProba(features));
      var bytes := toCsv(Results(df, parse, preds, proba).value);
      DownloadOutcome(o.store, token) ==
        if |bytes| > 0 then Outcome(FileSent(bytes), store - {token})
        else Outcome(Redirect(ExpiredMessage, Warning), store[token := bytes])
  {
    var o := Analysis(store, classifier, modelPath, df, token, now, parse, toCsv);
    var features := Preparation.PreparedFeatures(df, parse);
    var preds := classifier.predict(features).value;
    var proba := Annotation.PositiveClassProbabilities(classifier.hasPredictProba, classifier.predictProba(features));
    var bytes := toCsv(Results(df, parse, preds, proba).value);
    assert o.store == store[token := bytes];
    assert store[token := bytes] - {token} == store - {token};
  }

  class App {
    /** `RESULTS_STORE`. */
    var store: Store
    /** `MODEL` and `MODEL_PATH`, fixed when the application starts. */
    const model: Option<PickledObject>
    const modelPath: Option<string>

    /** Start-up: an empty store and the first usable model of the configured paths under `baseDir`. */
    constructor (baseDir: string, probe: string -> ModelLoading.Probe<PickledObject>)
      ensures store == map[]
      ensures model.Some? <==> modelPath.Some?
      ensures ModelLoading.FirstUsable(ModelLoading.ModelPaths(baseDir), probe, HasPredict).None? ==> model.None?
      ensures ModelLoading.FirstUsable(ModelLoading.ModelPaths(baseDir), probe, HasPredict).Some? ==>
        var k := ModelLoading.FirstUsable(ModelLoading.ModelPaths(baseDir), probe, HasPredict).value;
        modelPath == Some(ModelLoading.ModelPaths(baseDir)[k]) && probe(ModelLoading.ModelPaths(baseDir)[k]) == ModelLoading.Loaded(model.value)
    {
      var m, p := ModelLoading.LoadModelWithFallback(ModelLoading.ModelPaths(baseDir), probe, HasPredict);
      model := m;
      modelPath := p;
      store := map[];
    }

    /** `/predict`. */
    method Predict(upload: Upload, token: string, now: string, parse: string -> Preparation.Parsed, toCsv: Table -> seq<byte>)
      returns (r: Response)
      modifies this
      ensures var o := PredictOutcome(old(store), model, modelPath, upload, token, now, parse, toCsv);
        r == o.response && store == o.store
    {
      if upload.NoFilePart? {
        return Redirect(NoFilePartMessage, Danger);
      }
      if upload.filename == "" {
        return Redirect(NoFileSelectedMessage, Warning);
      }
      if model.None? {
        return Redirect(NoModelMessage, Danger);
      }
      if upload.contents.Err? {
        return Redirect(ReadFailedPrefix + upload.contents.error, Danger);
      }
      var df := upload.contents.value;
      var verdict := Validation.ValidateCsvData(Validation.Schema(df));
      if !verdict.valid {
        return Redirect(ValidationFailedPrefix + verdict.message, Danger);
      }
      r := Analyse(model.value, df, token, now, parse, toCsv);
    }

    /** The part of `/predict` after validation, on the uploaded table as a frame. */
    method Analyse(classifier: PickledObject, table: DataFrame, token: string, now: string,
                   parse: string -> Preparation.Parsed, toCsv: Table -> seq<byte>) returns (r: Response)
      modifies this
      ensures var o := Analysis(old(store), classifier, modelPath, table, token, now, parse, toCsv);
        r == o.response && store == o.store
    {
      var df := new Frame(table);
      var features, labels := Preparation.PrepareDataForPrediction(df, parse);
      var predicted := classifier.predict(features.Value());
      if predicted.Err? {
        return Redirect(PredictionFailedPrefix + predicted.error, Danger);
      }
      var preds := predicted.value;
      var proba := Annotation.PositiveClassProbabilities(classifier.hasPredictProba, classifier.predictProba(features.Value()));
      var metrics := RiskMetrics.CalculateRiskMetrics(preds, proba);
      if metrics.Err? {
        return ServerError(metrics.error);
      }
      var results := df.Copy();
      var failure := Annotation.AnnotateResults(results, preds, proba);
      if failure.Some? {
        return ServerError(failure.value);
      }
      SummaryReport.AdviceMatchesTier(preds, proba);
      r := PublishResults(metrics.value, results.Value(), token, now, toCsv);
    }

    /** Stores the results and renders the page. */
    method PublishResults(metrics: RiskMetrics.Metrics, results: Table, token: string, now: string, toCsv: Table -> seq<byte>)
      returns (r: Response)
      requires SummaryReport.HasReportKeys(metrics)
      modifies this
      ensures var o := Publish(old(store), metrics, results, token, modelPath, now, toCsv);
        r == o.response && store == o.store
    {
      store := store[token := toCsv(results)];
      var summary := SummaryReport.GenerateSummaryReport(metrics, ShownPath(modelPath), now);
      return Rendered(metrics, results.rows, token, modelPath, summary);
    }

    /** `/download/<token>`. */
    method Download(token: string) returns (r: Response)
      modifies this
      ensures var o := DownloadOutcome(old(store), token);
        r == o.response && store == o.store
    {
      var data := if token in store then store[token] else [];
      if |data| == 0 {
        return Redirect(ExpiredMessage, Warning);
      }
      store := store - {token};
      return FileSent(data);
    }
  }
}
