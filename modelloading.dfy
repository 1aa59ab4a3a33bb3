/**
 * `load_model_with_fallback`: try each configured model path in order and
 * keep the first one that exists, loads, and has a `predict` method.
 * The file system and the unpickler become the `probe` parameter; the
 * `hasattr(model, "predict")` test becomes `hasPredict`.
 */
module ModelLoading {
  import opened Wrappers

  /**
   * `MODEL_PATHS`, in order of preference: two files in the `models`
   * directory and one beside the configuration, as `str` of the `Path`
   * built on the application's directory `baseDir`.
   */
  function ModelPaths(baseDir: string): (r: seq<string>)
    ensures |r| == 3
    ensures forall i :: 0 <= i < |r| ==> baseDir + "/" <= r[i]
  {
    [
      baseDir + "/models/random_forest_fraud.pkl",
      baseDir + "/models/logistic_regression_fraud.pkl",
      baseDir + "/creditcard.pkl"
    ]
  }

  /**
   * What trying one path gives: the file is absent, checking or loading it
   * raised an exception (swallowed by the loop), or it loaded an object.
   */
  datatype Probe<M> = Missing | LoadFails | Loaded(model: M)

  predicate Usable<M>(p: Probe<M>, hasPredict: M -> bool)
  {
    p.Loaded? && hasPredict(p.model)
  }

  /** The index of the first usable path, if any. */
  function FirstUsable<M>(paths: seq<string>, probe: string -> Probe<M>, hasPredict: M -> bool): (r: Option<nat>)
    ensures r.Some? ==> r.value < |paths| && Usable(probe(paths[r.value]), hasPredict)
    ensures r.Some? ==> forall j :: 0 <= j < r.value ==> !Usable(probe(paths[j]), hasPredict)
    ensures r.None? ==> forall j :: 0 <= j < |paths| ==> !Usable(probe(paths[j]), hasPredict)
  {
    if |paths| == 0 then None
    else if Usable(probe(paths[0]), hasPredict) then Some(0)
    else
      match FirstUsable(paths[1..], probe, hasPredict)
      case None => None
      case Some(k) => Some(k + 1)
  }

  method LoadModelWithFallback<M>(paths: seq<string>, probe: string -> Probe<M>, hasPredict: M -> bool)
    returns (model: Option<M>, path: Option<string>)
    ensures model.Some? <==> path.Some?
    ensures FirstUsable(paths, probe, hasPredict).None? ==> model.None?
    ensures FirstUsable(paths, probe, hasPredict).Some? ==>
      var k := FirstUsable(paths, probe, hasPredict).value;
      path == Some(paths[k]) && probe(paths[k]) == Loaded(model.value)
  {
    for i := 0 to |paths|
      invariant forall j :: 0 <= j < i ==> !Usable(probe(paths[j]), hasPredict)
    {
      var p := probe(paths[i]);
      if p.Loaded? && hasPredict(p.model) {
        FirstUsableIsFirst(paths, probe, hasPredict, i);
        return Some(p.model), Some(paths[i]);
      }
    }
    FirstUsableIsFirst(paths, probe, hasPredict, |paths|);
    return None, None;
  }

  /**
   * `FirstUsable` is pinned down by first-ness: if every path before `i` is
   * unusable, the first usable one is `i` when `i` is usable, and there is
   * none when `i` is past the end.
   */
  lemma FirstUsableIsFirst<M>(paths: seq<string>, probe: string -> Probe<M>, hasPredict: M -> bool, i: nat)
    requires i <= |paths|
    requires forall j :: 0 <= j < i ==> !Usable(probe(paths[j]), hasPredict)
    requires i < |paths| ==> Usable(probe(paths[i]), hasPredict)
    ensures FirstUsable(paths, probe, hasPredict) == if i < |paths| then Some(i) else None
  {
    var r := FirstUsable(paths, probe, hasPredict);
    if r.Some? {
      assert r.value >= i;
      assert r.value <= i;
    }
  }

  /** Adding a candidate at the end never changes an earlier success. */
  lemma {:induction false} FallbackKeepsEarlierChoice<M>(paths: seq<string>, extra: string, probe: string -> Probe<M>, hasPredict: M -> bool)
    requires FirstUsable(paths, probe, hasPredict).Some?
    ensures FirstUsable(paths + [extra], probe, hasPredict) == FirstUsable(paths, probe, hasPredict)
  {
    var k := FirstUsable(paths, probe, hasPredict).value;
    var longer := paths + [extra];
    assert forall j :: 0 <= j <= k ==> longer[j] == paths[j];
    FirstUsableIsFirst(longer, probe, hasPredict, k);
  }
}
