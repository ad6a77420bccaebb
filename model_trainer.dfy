/**
 * The trainer's bookkeeping around the gradient-boosting library: target
 * encoding and the class mapping it reports, the re-encoding of test labels,
 * the class count, and the estimator's keyword arguments (the user's
 * objective is always dropped and the task type decides the objective).
 * Fitting, prediction and scoring belong to the library and are not modelled.
 */
module ModelTrainer {
  import opened Wrappers
  import opened Schemas
  import opened LabelEncoding

  /** A label array: numeric dtypes, or dtype object (strings). */
  datatype Target = Numeric(values: seq<real>) | Object(labels: seq<string>)

  function Size(y: Target): nat {
    match y
    case Numeric(v) => |v|
    case Object(l) => |l|
  }

  /** len(np.unique(y)): the number of distinct labels. */
  function DistinctCount(y: Target): nat {
    match y
    case Numeric(v) => |set x | x in v|
    case Object(l) => |set x | x in l|
  }

  /** str() of the i-th label; render stands for Python's formatting of a number. */
  function LabelText(render: real -> string, y: Target, i: nat): string
    requires i < Size(y)
  {
    match y
    case Numeric(v) => render(v[i])
    case Object(l) => l[i]
  }

  /** A fitted LabelEncoder for labels of one kind: its classes_. */
  datatype TargetEncoder = NumericClasses(reals: seq<real>) | ObjectClasses(strings: seq<string>)

  function NumClasses(enc: TargetEncoder): nat {
    match enc
    case NumericClasses(c) => |c|
    case ObjectClasses(c) => |c|
  }

  function ClassText(render: real -> string, enc: TargetEncoder, k: nat): string
    requires k < NumClasses(enc)
  {
    match enc
    case NumericClasses(c) => render(c[k])
    case ObjectClasses(c) => c[k]
  }

  /** The k-th class of enc is the i-th label of y. */
  predicate IsClassOf(enc: TargetEncoder, y: Target, i: nat, k: nat) {
    match (enc, y)
    case (NumericClasses(c), Numeric(v)) => i < |v| && k < |c| && c[k] == v[i]
    case (ObjectClasses(c), Object(l)) => i < |l| && k < |c| && c[k] == l[i]
    case _ => false
  }

  /** The classes of enc are distinct labels of y. */
  predicate ClassesFrom(enc: TargetEncoder, y: Target) {
    match (enc, y)
    case (NumericClasses(c), Numeric(v)) => Distinct(c) && forall k :: 0 <= k < |c| ==> c[k] in v
    case (ObjectClasses(c), Object(l)) => Distinct(c) && forall k :: 0 <= k < |c| ==> c[k] in l
    case _ => false
  }

  /** Every label of y is a class of enc. */
  predicate Covers(enc: TargetEncoder, y: Target) {
    match (enc, y)
    case (NumericClasses(c), Numeric(v)) => forall i :: 0 <= i < |v| ==> v[i] in c
    case (ObjectClasses(c), Object(l)) => forall i :: 0 <= i < |l| ==> l[i] in c
    case _ => Size(y) == 0
  }

  /** fit(y): the classes are the distinct labels, one per distinct value. */
  function FitEncoder(y: Target): (enc: TargetEncoder)
    ensures NumClasses(enc) == DistinctCount(y)
    ensures ClassesFrom(enc, y) && Covers(enc, y)
  {
    match y
    case Numeric(v) =>
      var c := RealClasses(v);
      DistinctCardinality(c);
      assert (set x | x in c) == (set x | x in v);
      NumericClasses(c)
    case Object(l) =>
      var c := StringClasses(l);
      DistinctCardinality(c);
      assert (set x | x in c) == (set x | x in l);
      ObjectClasses(c)
  }

  datatype TrainError = UnseenLabels | LabelTypeMismatch

  /** encoder.transform(y): every label must be a class of the same kind; each becomes its class index. */
  function EncodeLabels(enc: TargetEncoder, y: Target): (r: Result<seq<nat>, TrainError>)
    ensures r.Success? <==> Covers(enc, y)
    ensures r.Success? ==> |r.value| == Size(y)
    ensures r.Success? ==> forall i :: 0 <= i < Size(y) ==> IsClassOf(enc, y, i, r.value[i])
  {
    match (enc, y)
    case (NumericClasses(c), Numeric(v)) =>
      var e := Encode(c, v);
      if e.Success? then Success(e.value) else Failure(UnseenLabels)
    case (ObjectClasses(c), Object(l)) =>
      var e := Encode(c, l);
      if e.Success? then Success(e.value) else Failure(UnseenLabels)
    case _ =>
      if Size(y) == 0 then Success([]) else Failure(LabelTypeMismatch)
  }

  /** fit_transform(y) is transform(y) after fitting on y, which always succeeds. */
  function FitTransform(y: Target): (codes: seq<nat>)
    ensures EncodeLabels(FitEncoder(y), y) == Success(codes)
  {
    EncodeLabels(FitEncoder(y), y).value
  }

  function Reals(codes: seq<nat>): seq<real> {
    seq(|codes|, i requires 0 <= i < |codes| => codes[i] as real)
  }

  /** The integers 0 .. n-1. */
  function Range(n: nat): (r: set<int>)
    ensures forall k :: k in r <==> 0 <= k < n
    ensures |r| == n
  {
    if n == 0 then {} else Range(n - 1) + {n - 1}
  }

  /** The reals 0.0 .. (n-1) as real. */
  function RealRange(n: nat): (r: set<real>)
    ensures forall x :: x in r <==> x == x.Floor as real && 0 <= x.Floor < n
    ensures |r| == n
  {
    if n == 0 then
      {}
    else
      var top := (n - 1) as real;
      assert top.Floor == n - 1;
      RealRange(n - 1) + {top}
  }

  /** dict(enumerate(map(str, classes_))). */
  function ClassNames(render: real -> string, enc: TargetEncoder): map<int, string> {
    map k | k in Range(NumClasses(enc)) :: ClassText(render, enc, k)
  }

  const BinaryMapping: map<int, string> := map[0 := "class_0", 1 := "class_1"]

  /** The processed labels, the class mapping and the trainer's target encoder after preprocess_target. */
  datatype TargetStep = TargetStep(processed: Target, mapping: Option<map<int, string>>, encoder: Option<TargetEncoder>)

  predicate EncodesTarget(taskType: string, y: Target) {
    taskType != "regression" && (y.Object? || taskType == "multiclass_classification")
  }

  function TargetEncoding(taskType: string, render: real -> string, y: Target, encoder: Option<TargetEncoder>): TargetStep {
    if taskType == "regression" then
      TargetStep(y, None, encoder)
    else if y.Object? || taskType == "multiclass_classification" then
      var enc := FitEncoder(y);
      TargetStep(Numeric(Reals(FitTransform(y))), Some(ClassNames(render, enc)), Some(enc))
    else
      TargetStep(y, Some(BinaryMapping), encoder)
  }

  /** Codes of labels, from distinct classes that all occur among the labels, take every value below the class count. */
  lemma CodeImage<T>(c: seq<T>, v: seq<T>, codes: seq<nat>)
    requires Distinct(c)
    requires forall k :: 0 <= k < |c| ==> c[k] in v
    requires |codes| == |v|
    requires forall i :: 0 <= i < |v| ==> codes[i] < |c| && c[codes[i]] == v[i]
    ensures (set x | x in Reals(codes)) == RealRange(|c|)
  {
    var image := set x | x in Reals(codes);
    forall x | x in image ensures x in RealRange(|c|) {
      var i :| 0 <= i < |codes| && Reals(codes)[i] == x;
    }
    forall x | x in RealRange(|c|) ensures x in image {
      var k := x.Floor;
      assert 0 <= k < |c|;
      assert c[k] in v;
      var i :| 0 <= i < |v| && v[i] == c[k];
      assert codes[i] == k;
      assert Reals(codes)[i] == x;
    }
  }

  /** Regression leaves the labels as they are, reports no mapping and keeps the encoder. */
  lemma RegressionTargetUnchanged(render: real -> string, y: Target, encoder: Option<TargetEncoder>)
    ensures TargetEncoding("regression", render, y, encoder) == TargetStep(y, None, encoder)
  {
  }

  /** A binary task over numeric labels keeps them and reports the fixed two-class mapping. */
  lemma BinaryNumericTargetUnchanged(taskType: string, render: real -> string, y: Target, encoder: Option<TargetEncoder>)
    requires taskType != "regression" && taskType != "multiclass_classification" && y.Numeric?
    ensures var step := TargetEncoding(taskType, render, y, encoder);
      step.processed == y && step.mapping == Some(map[0 := "class_0", 1 := "class_1"]) && step.encoder == encoder
  {
  }

  /** The class mapping has one key per class, 0 .. n-1. */
  lemma ClassNamesKeys(render: real -> string, enc: TargetEncoder)
    ensures forall k :: k in ClassNames(render, enc) <==> 0 <= k < NumClasses(enc)
    ensures |ClassNames(render, enc)| == NumClasses(enc)
  {
    assert ClassNames(render, enc).Keys == Range(NumClasses(enc));
  }

  lemma EncodedDistinctCount(y: Target)
    ensures DistinctCount(Numeric(Reals(FitTransform(y)))) == DistinctCount(y)
  {
    var enc := FitEncoder(y);
    var codes := FitTransform(y);
    match y {
      case Numeric(v) =>
        assert forall i :: 0 <= i < |v| ==> IsClassOf(enc, y, i, codes[i]);
        CodeImage(enc.reals, v, codes);
      case Object(l) =>
        assert forall i :: 0 <= i < |l| ==> IsClassOf(enc, y, i, codes[i]);
        CodeImage(enc.strings, l, codes);
    }
  }

  lemma EncodedLabelsMapBack(render: real -> string, y: Target, i: nat)
    requires i < Size(y)
    ensures var code := Reals(FitTransform(y))[i];
      var mapping := ClassNames(render, FitEncoder(y));
      code == code.Floor as real && code.Floor in mapping && mapping[code.Floor] == LabelText(render, y, i)
  {
    var enc := FitEncoder(y);
    var codes := FitTransform(y);
    assert IsClassOf(enc, y, i, codes[i]);
    assert Reals(codes)[i].Floor == codes[i];
    ClassNamesKeys(render, enc);
  }

  /**
   * When the target is encoded, each label becomes the index of its class,
   * the mapping sends that index back to the label's text, the mapping has one
   * entry per distinct label, and the processed labels have exactly as many
   * distinct values.
   */
  lemma EncodedTargetMapping(taskType: string, render: real -> string, y: Target, encoder: Option<TargetEncoder>)
    requires EncodesTarget(taskType, y)
    ensures var step := TargetEncoding(taskType, render, y, encoder);
      && step.encoder == Some(FitEncoder(y))
      && step.processed.Numeric? && |step.processed.values| == Size(y)
      && step.mapping.Some?
      && (forall k :: k in step.mapping.value <==> 0 <= k < DistinctCount(y))
      && |step.mapping.value| == DistinctCount(y)
      && DistinctCount(step.processed) == DistinctCount(y)
      && (forall i :: 0 <= i < Size(y) ==>
            var code := step.processed.values[i];
            code == code.Floor as real && code.Floor in step.mapping.value
            && step.mapping.value[code.Floor] == LabelText(render, y, i))
  {
    var enc := FitEncoder(y);
    var step := TargetEncoding(taskType, render, y, encoder);
    assert step == TargetStep(Numeric(Reals(FitTransform(y))), Some(ClassNames(render, enc)), Some(enc));
    ClassNamesKeys(render, enc);
    EncodedDistinctCount(y);
    forall i | 0 <= i < Size(y)
      ensures var code := step.processed.values[i];
        code == code.Floor as real && code.Floor in step.mapping.value
        && step.mapping.value[code.Floor] == LabelText(render, y, i)
    {
      EncodedLabelsMapBack(render, y, i);
    }
  }

  // ---------------------------------------------------------------- the estimator

  /** A keyword-argument value. */
  datatype ParamValue = IntValue(i: int) | RealValue(r: real) | StrValue(s: string) | NoneValue

  /** parameters.dict(): every field, the unset objective as None. */
  function ParametersDict(p: XGBParameters): (d: map<string, ParamValue>)
    ensures d.Keys == {"max_depth", "learning_rate", "n_estimators", "objective"}
  {
    map["max_depth" := IntValue(p.maxDepth),
        "learning_rate" := RealValue(p.learningRate),
        "n_estimators" := IntValue(p.nEstimators),
        "objective" := if p.objective.Some? then StrValue(p.objective.value) else NoneValue]
  }

  function OptionalInt(n: Option<int>): ParamValue {
    if n.Some? then IntValue(n.value) else NoneValue
  }

  /** The estimator with its keyword arguments. */
  datatype Estimator = XGBRegressor(kwargs: map<string, ParamValue>) | XGBClassifier(kwargs: map<string, ParamValue>)

  /** The model _init_model builds for the task type and class count. */
  function InitModelSpec(cfg: XGBConfig, nClasses: Option<int>): Estimator {
    var params := ParametersDict(cfg.parameters) - {"objective"};
    if cfg.taskType == "regression" then
      XGBRegressor(params)
    else if cfg.taskType == "multiclass_classification" then
      XGBClassifier(params["objective" := StrValue("multi:softmax")]["num_class" := OptionalInt(nClasses)])
    else
      XGBClassifier(params["objective" := StrValue("binary:logistic")])
  }

  /**
   * The task type decides the estimator and its objective: regression has no
   * forced objective, multiclass gets multi:softmax with num_class, and every
   * other task type is treated as binary with binary:logistic.
   */
  lemma ObjectiveByTaskType(cfg: XGBConfig, nClasses: Option<int>)
    ensures var est := InitModelSpec(cfg, nClasses);
      && (est.XGBRegressor? <==> cfg.taskType == "regression")
      && (cfg.taskType == "regression" ==> "objective" !in est.kwargs && "num_class" !in est.kwargs)
      && (cfg.taskType == "multiclass_classification" ==>
            est.kwargs["objective"] == StrValue("multi:softmax") && est.kwargs["num_class"] == OptionalInt(nClasses))
      && (cfg.taskType != "regression" && cfg.taskType != "multiclass_classification" ==>
            est.kwargs["objective"] == StrValue("binary:logistic") && "num_class" !in est.kwargs)
  {
  }

  /**
   * The user's objective never reaches the estimator, and the three other
   * parameters are passed through unchanged.
   */
  lemma UserObjectiveDropped(cfg: XGBConfig, nClasses: Option<int>, objective: Option<string>)
    ensures InitModelSpec(cfg.(parameters := cfg.parameters.(objective := objective)), nClasses) == InitModelSpec(cfg, nClasses)
    ensures var est := InitModelSpec(cfg, nClasses);
      && est.kwargs.Keys - {"objective", "num_class"} == {"max_depth", "learning_rate", "n_estimators"}
      && est.kwargs["max_depth"] == IntValue(cfg.parameters.maxDepth)
      && est.kwargs["learning_rate"] == RealValue(cfg.parameters.learningRate)
      && est.kwargs["n_estimators"] == IntValue(cfg.parameters.nEstimators)
  {
    var p' := cfg.parameters.(objective := objective);
    assert ParametersDict(p') - {"objective"} == ParametersDict(cfg.parameters) - {"objective"};
  }

  /** The n_classes metric: an absent or empty mapping is falsy and counts as two classes. */
  function NClassesMetric(mapping: Option<map<int, string>>): int {
    if mapping.Some? && mapping.value != map[] then |mapping.value| else 2
  }

  // ---------------------------------------------------------------- training

  datatype TrainState = TrainState(model: Option<Estimator>, encoder: Option<TargetEncoder>)

  /** What train prepares for the library: labels, mapping, class count and estimator. */
  datatype TrainSetup = TrainSetup(
    trainLabels: Target,
    testLabels: Target,
    mapping: Option<map<int, string>>,
    nClasses: Option<int>,
    estimator: Estimator)

  function TestLabels(encoder: Option<TargetEncoder>, yTest: Target): Result<Target, TrainError> {
    if encoder.Some? then
      var codes :- EncodeLabels(encoder.value, yTest);
      Success(Numeric(Reals(codes)))
    else
      Success(yTest)
  }

  function TrainSpec(cfg: XGBConfig, render: real -> string, st: TrainState, yTrain: Target,
                     yTest: Target): (TrainState, Result<TrainSetup, TrainError>)
  {
    var step := TargetEncoding(cfg.taskType, render, yTrain, st.encoder);
    match TestLabels(step.encoder, yTest)
    case Failure(e) => (TrainState(st.model, step.encoder), Failure(e))
    case Success(test) =>
      var n := if cfg.taskType != "regression" then Some(DistinctCount(step.processed)) else None;
      var est := InitModelSpec(cfg, n);
      (TrainState(Some(est), step.encoder), Success(TrainSetup(step.processed, test, step.mapping, n, est)))
  }

  /**
   * Test labels are re-encoded exactly when the trainer holds a target
   * encoder, which may be left from an earlier call: each then becomes the
   * index of its class among that encoder's classes.
   */
  lemma TestLabelsReencodedOnlyWithEncoder(cfg: XGBConfig, render: real -> string, st: TrainState, yTrain: Target, yTest: Target)
    requires TrainSpec(cfg, render, st, yTrain, yTest).1.Success?
    ensures var (st', r) := TrainSpec(cfg, render, st, yTrain, yTest);
      st'.encoder.None? ==> r.value.testLabels == yTest
    ensures var (st', r) := TrainSpec(cfg, render, st, yTrain, yTest);
      st'.encoder.Some? ==>
        && r.value.testLabels.Numeric? && |r.value.testLabels.values| == Size(yTest)
        && forall i :: 0 <= i < Size(yTest) ==>
             var code := r.value.testLabels.values[i];
             code == code.Floor as real && code.Floor >= 0 && IsClassOf(st'.encoder.value, yTest, i, code.Floor)
  {
    var step := TargetEncoding(cfg.taskType, render, yTrain, st.encoder);
    if step.encoder.Some? {
      var codes := EncodeLabels(step.encoder.value, yTest).value;
      forall i | 0 <= i < Size(yTest) ensures (codes[i] as real).Floor == codes[i] {
      }
    }
  }

  /**
   * For a classification task with encoded labels the class count, the
   * mapping's size and the reported n_classes metric agree, except that no
   * labels give an empty mapping and so a metric of 2; a binary task over
   * numeric labels reports the fixed two-class mapping and a metric of 2
   * whatever the labels; for regression there is no class count and the
   * estimator is a regressor.
   */
  lemma ClassCountAgrees(cfg: XGBConfig, render: real -> string, st: TrainState, yTrain: Target, yTest: Target)
    requires TrainSpec(cfg, render, st, yTrain, yTest).1.Success?
    ensures var r := TrainSpec(cfg, render, st, yTrain, yTest).1.value;
      (cfg.taskType == "regression" ==> r.nClasses.None? && r.estimator.XGBRegressor? && r.mapping.None?)
    ensures var r := TrainSpec(cfg, render, st, yTrain, yTest).1.value;
      EncodesTarget(cfg.taskType, yTrain) && Size(yTrain) > 0 ==>
        && r.nClasses == Some(DistinctCount(yTrain))
        && r.mapping.Some? && |r.mapping.value| == DistinctCount(yTrain)
        && NClassesMetric(r.mapping) == DistinctCount(yTrain)
    ensures var r := TrainSpec(cfg, render, st, yTrain, yTest).1.value;
      EncodesTarget(cfg.taskType, yTrain) && Size(yTrain) == 0 ==>
        r.nClasses == Some(0) && r.mapping == Some(map[]) && NClassesMetric(r.mapping) == 2
    ensures var r := TrainSpec(cfg, render, st, yTrain, yTest).1.value;
      cfg.taskType != "regression" && !EncodesTarget(cfg.taskType, yTrain) ==>
        && yTrain.Numeric? && r.trainLabels == yTrain
        && r.nClasses == Some(DistinctCount(yTrain))
        && r.mapping == Some(BinaryMapping) && NClassesMetric(r.mapping) == 2
  {
    if EncodesTarget(cfg.taskType, yTrain) && Size(yTrain) == 0 {
      EncodedTargetMapping(cfg.taskType, render, yTrain, st.encoder);
    }
    if EncodesTarget(cfg.taskType, yTrain) && Size(yTrain) > 0 {
      EncodedTargetMapping(cfg.taskType, render, yTrain, st.encoder);
      var k: int := 0;
      assert IsClassOf(FitEncoder(yTrain), yTrain, 0, FitTransform(yTrain)[0]);
      assert DistinctCount(yTrain) > 0;
      assert k in TargetEncoding(cfg.taskType, render, yTrain, st.encoder).mapping.value;
    }
  }

  /**
   * With the task-type pattern as written, "regression\n" is a valid
   * configuration, and the trainer, which compares task types exactly,
   * builds a binary classifier for it.
   */
  lemma TrailingNewlineTrainsAsBinary(targetColumn: string, nClasses: Option<int>)
    ensures ValidateConfigAsWritten(targetColumn, "regression\n", None).Success?
    ensures var est := InitModelSpec(ValidateConfigAsWritten(targetColumn, "regression\n", None).value, nClasses);
      est.XGBClassifier? && est.kwargs["objective"] == StrValue("binary:logistic")
  {
    TrailingNewlinePassesPattern();
  }

  /**
   * With the exact task-type check, a validated configuration's estimator is
   * the one its task type names.
   */
  lemma ValidatedTaskTypeSelectsItsEstimator(targetColumn: string, taskType: string, parameters: Option<XGBParameters>,
                                             nClasses: Option<int>)
    requires ValidateConfig(targetColumn, taskType, parameters).Success?
    ensures var est := InitModelSpec(ValidateConfig(targetColumn, taskType, parameters).value, nClasses);
      && (taskType == "regression" <==> est.XGBRegressor?)
      && (taskType == "multiclass_classification" <==> est.XGBClassifier? && est.kwargs["objective"] == StrValue("multi:softmax"))
      && (taskType == "binary_classification" <==> est.XGBClassifier? && est.kwargs["objective"] == StrValue("binary:logistic"))
  {
    IsTaskTypeIsExact(taskType);
  }

  class ModelTrainer {
    const config: XGBConfig
    const render: real -> string
    var model: Option<Estimator>
    var targetEncoder: Option<TargetEncoder>

    constructor(config: XGBConfig, render: real -> string)
      ensures this.config == config && this.render == render
      ensures model == None && targetEncoder == None
    {
      this.config := config;
      this.render := render;
      model := None;
      targetEncoder := None;
    }

    method InitModel(nClasses: Option<int>)
      modifies this
      ensures model == Some(InitModelSpec(config, nClasses))
      ensures targetEncoder == old(targetEncoder)
    {
      var params := ParametersDict(config.parameters);
      if "objective" in params {
        params := params - {"objective"};
      }
      if config.taskType == "regression" {
        model := Some(XGBRegressor(params));
      } else if config.taskType == "multiclass_classification" {
        model := Some(XGBClassifier(params["objective" := StrValue("multi:softmax")]["num_class" := OptionalInt(nClasses)]));
      } else {
        model := Some(XGBClassifier(params["objective" := StrValue("binary:logistic")]));
      }
    }

    method PreprocessTarget(y: Target) returns (processed: Target, mapping: Option<map<int, string>>)
      modifies this
      ensures TargetStep(processed, mapping, targetEncoder) == TargetEncoding(config.taskType, render, y, old(targetEncoder))
      ensures model == old(model)
    {
      processed := y;
      mapping := None;
      if config.taskType != "regression" {
        if y.Object? || config.taskType == "multiclass_classification" {
          var enc := FitEncoder(y);
          targetEncoder := Some(enc);
          processed := Numeric(Reals(FitTransform(y)));
          mapping := Some(ClassNames(render, enc));
        } else {
          mapping := Some(BinaryMapping);
        }
      }
    }

    method Train(yTrain: Target, yTest: Target) returns (r: Result<TrainSetup, TrainError>)
      modifies this
      ensures (TrainState(model, targetEncoder), r) == TrainSpec(config, render, old(TrainState(model, targetEncoder)), yTrain, yTest)
    {
      var processed, mapping := PreprocessTarget(yTrain);
      var test := yTest;
      if targetEncoder.Some? {
        var codes := EncodeLabels(targetEncoder.value, yTest);
        if codes.Failure? {
          return Failure(codes.error);
        }
        test := Numeric(Reals(codes.value));
      }
      var nClasses := if config.taskType != "regression" then Some(DistinctCount(processed)) else None;
      InitModel(nClasses);
      return Success(TrainSetup(processed, test, mapping, nClasses, model.value));
    }
  }
}
