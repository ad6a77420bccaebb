/**
 * The inference wrapper generated for a trained model: a strict validator and
 * encoder from a record of named feature values to the model's input vector,
 * and a prediction that maps the raw output through an optional class
 * mapping. The preprocessing configuration (the placeholders of the
 * template) and the model are parameters.
 */
module Templates {
  import opened Wrappers

  /** A runtime JavaScript value, as far as `typeof` tells them apart here. */
  datatype JsValue = JsNumber(n: real) | JsString(s: string) | JsOther

  datatype PreprocessingConfig = PreprocessingConfig(
    categoricalFeatures: map<string, map<string, real>>,
    featureNames: seq<string>,
    classMapping: Option<map<int, string>>)

  type PredictionInput = map<string, JsValue>

  datatype PreprocessError =
    | MissingFeature(feature: string)
    | ExpectsString(feature: string)
    | UnknownCategory(value: string, feature: string)
    | ExpectsNumber(feature: string)

  /** Reference definition: the input value of feature f is acceptable. */
  predicate Accepts(cfg: PreprocessingConfig, input: PredictionInput, f: string) {
    && f in input
    && (if f in cfg.categoricalFeatures then input[f].JsString? && input[f].s in cfg.categoricalFeatures[f]
        else input[f].JsNumber?)
  }

  /** The callback of featureNames.map for one feature. */
  function EncodeFeature(cfg: PreprocessingConfig, input: PredictionInput, feat: string): Result<real, PreprocessError> {
    if feat !in input then
      Failure(MissingFeature(feat))
    else
      var value := input[feat];
      if feat in cfg.categoricalFeatures then
        var mapping := cfg.categoricalFeatures[feat];
        if !value.JsString? then Failure(ExpectsString(feat))
        else if value.s !in mapping then Failure(UnknownCategory(value.s, feat))
        else Success(mapping[value.s])
      else if !value.JsNumber? then
        Failure(ExpectsNumber(feat))
      else
        Success(value.n)
  }

  /**
   * featureNames.map(...) over the names fs: succeeds exactly when every
   * feature is acceptable, and position i holds the mapping's code for a
   * categorical feature and the number itself for any other.
   */
  function EncodeAll(cfg: PreprocessingConfig, input: PredictionInput, fs: seq<string>): (r: Result<seq<real>, PreprocessError>)
    ensures r.Success? <==> forall i :: 0 <= i < |fs| ==> Accepts(cfg, input, fs[i])
    ensures r.Success? ==> |r.value| == |fs|
    ensures r.Success? ==> forall i :: 0 <= i < |fs| ==>
      if fs[i] in cfg.categoricalFeatures then r.value[i] == cfg.categoricalFeatures[fs[i]][input[fs[i]].s]
      else input[fs[i]] == JsNumber(r.value[i])
    decreases |fs|
  {
    if fs == [] then
      Success([])
    else
      var v :- EncodeFeature(cfg, input, fs[0]);
      var rest :- EncodeAll(cfg, input, fs[1..]);
      assert forall i :: 1 <= i < |fs| ==> fs[i] == fs[1..][i - 1];
      Success([v] + rest)
  }

  function Preprocess(cfg: PreprocessingConfig, input: PredictionInput): Result<seq<real>, PreprocessError> {
    EncodeAll(cfg, input, cfg.featureNames)
  }

  /** The rejection preprocess throws for a feature that is not acceptable. */
  ghost predicate RejectionFor(cfg: PreprocessingConfig, input: PredictionInput, f: string, e: PreprocessError) {
    || (f !in input && e == MissingFeature(f))
    || (f in input && f in cfg.categoricalFeatures && !input[f].JsString? && e == ExpectsString(f))
    || (f in input && f in cfg.categoricalFeatures && input[f].JsString? && input[f].s !in cfg.categoricalFeatures[f]
        && e == UnknownCategory(input[f].s, f))
    || (f in input && f !in cfg.categoricalFeatures && !input[f].JsNumber? && e == ExpectsNumber(f))
  }

  /**
   * A rejection is about the first feature, in featureNames order, that is
   * not acceptable: an absent feature, a non-string categorical value, an
   * unknown category (there is no fallback) or a non-number numeric value.
   */
  lemma {:induction false} EncodeAllRejectsFirstBadFeature(cfg: PreprocessingConfig, input: PredictionInput, fs: seq<string>)
    requires EncodeAll(cfg, input, fs).Failure?
    ensures exists i ::
      && 0 <= i < |fs| && !Accepts(cfg, input, fs[i])
      && (forall j :: 0 <= j < i ==> Accepts(cfg, input, fs[j]))
      && RejectionFor(cfg, input, fs[i], EncodeAll(cfg, input, fs).error)
    decreases |fs|
  {
    var first := EncodeFeature(cfg, input, fs[0]);
    if first.Failure? {
      assert !Accepts(cfg, input, fs[0]) && RejectionFor(cfg, input, fs[0], EncodeAll(cfg, input, fs).error);
    } else {
      var rest := fs[1..];
      EncodeAllRejectsFirstBadFeature(cfg, input, rest);
      var i :| 0 <= i < |rest| && !Accepts(cfg, input, rest[i])
        && (forall j :: 0 <= j < i ==> Accepts(cfg, input, rest[j]))
        && RejectionFor(cfg, input, rest[i], EncodeAll(cfg, input, rest).error);
      assert fs[i + 1] == rest[i];
      assert forall j :: 1 <= j < i + 1 ==> fs[j] == rest[j - 1];
      assert Accepts(cfg, input, fs[0]);
    }
  }

  lemma PreprocessRejectsFirstBadFeature(cfg: PreprocessingConfig, input: PredictionInput)
    requires Preprocess(cfg, input).Failure?
    ensures var names := cfg.featureNames;
      exists i ::
        && 0 <= i < |names| && !Accepts(cfg, input, names[i])
        && (forall j :: 0 <= j < i ==> Accepts(cfg, input, names[j]))
        && RejectionFor(cfg, input, names[i], Preprocess(cfg, input).error)
  {
    EncodeAllRejectsFirstBadFeature(cfg, input, cfg.featureNames);
  }

  /** Keys of the input that are not feature names make no difference. */
  lemma {:induction false} EncodeAllIgnoresExtraKeys(cfg: PreprocessingConfig, input: PredictionInput, input': PredictionInput,
                                                   fs: seq<string>)
    requires forall f :: f in fs ==> (f in input <==> f in input') && (f in input ==> input[f] == input'[f])
    ensures EncodeAll(cfg, input, fs) == EncodeAll(cfg, input', fs)
    decreases |fs|
  {
    if fs != [] {
      EncodeAllIgnoresExtraKeys(cfg, input, input', fs[1..]);
    }
  }

  lemma PreprocessIgnoresExtraKeys(cfg: PreprocessingConfig, input: PredictionInput, extra: PredictionInput)
    requires forall f :: f in extra ==> f !in cfg.featureNames
    ensures Preprocess(cfg, input + extra) == Preprocess(cfg, input)
  {
    EncodeAllIgnoresExtraKeys(cfg, input + extra, input, cfg.featureNames);
  }

  /** The model the wrapper was constructed with: its predict and predict_proba. */
  datatype Model = Model(predict: seq<real> -> real, predictProba: seq<real> -> seq<real>)

  /** A label from the class mapping, the raw prediction, or `undefined` when the mapping has no such key. */
  datatype Prediction = Label(text: string) | Raw(value: real) | Undefined

  datatype PredictionOutput = PredictionOutput(prediction: Prediction, probability: seq<real>)

  /**
   * classMapping[prediction]: the object's keys are the texts of the class
   * indices, so a prediction hits a key only when it equals one of them.
   */
  function ClassLabel(mapping: map<int, string>, p: real): (r: Prediction)
    ensures r.Label? <==> exists k :: k in mapping && p == k as real
    ensures forall k :: k in mapping && p == k as real ==> r == Label(mapping[k])
    ensures (forall k :: k in mapping ==> p != k as real) ==> r == Undefined
    ensures !r.Raw?
  {
    if p == p.Floor as real && p.Floor in mapping then Label(mapping[p.Floor]) else Undefined
  }

  /**
   * predict: preprocess, then the model's prediction, mapped through the
   * class mapping if there is one (an empty mapping object is still
   * present); the probabilities are predict_proba of the same vector.
   */
  function Predict(cfg: PreprocessingConfig, model: Model, input: PredictionInput): (r: Result<PredictionOutput, PreprocessError>)
    ensures r.Success? <==> forall i :: 0 <= i < |cfg.featureNames| ==> Accepts(cfg, input, cfg.featureNames[i])
    ensures r.Failure? ==> r.error == Preprocess(cfg, input).error
    ensures r.Success? ==> r.value.probability == model.predictProba(Preprocess(cfg, input).value)
    ensures r.Success? && cfg.classMapping.None? ==> r.value.prediction == Raw(model.predict(Preprocess(cfg, input).value))
    ensures r.Success? && cfg.classMapping.Some? ==> !r.value.prediction.Raw?
  {
    var features :- Preprocess(cfg, input);
    var prediction := model.predict(features);
    if cfg.classMapping.Some? then
      Success(PredictionOutput(ClassLabel(cfg.classMapping.value, prediction), model.predictProba(features)))
    else
      Success(PredictionOutput(Raw(prediction), model.predictProba(features)))
  }

  /** With a class mapping, a prediction equal to a key yields that key's label, and any other yields undefined. */
  lemma PredictMapsClassIndex(cfg: PreprocessingConfig, model: Model, input: PredictionInput)
    requires Preprocess(cfg, input).Success? && cfg.classMapping.Some?
    ensures var p := model.predict(Preprocess(cfg, input).value);
      var out := Predict(cfg, model, input).value;
      && (forall k :: k in cfg.classMapping.value && p == k as real ==> out.prediction == Label(cfg.classMapping.value[k]))
      && ((forall k :: k in cfg.classMapping.value ==> p != k as real) ==> out.prediction == Undefined)
  {
  }
}
