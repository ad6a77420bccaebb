/**
 * The feature pipeline of the training backend. Fitting records, per
 * categorical feature, a label encoder and its class-to-code dictionary, and,
 * per numeric feature, the fitted scaler's parameters; transforming encodes
 * categoricals (an unseen category falls back to the first class), scales the
 * numeric block and lays the columns out in the configured feature order;
 * exporting gives the preprocessing document.
 *
 * The numeric work (imputation, z-score outlier replacement, the scaler's own
 * arithmetic, Python's formatting of numbers) is done by functions of a
 * Numerics value that the pipeline is constructed with.
 */
module DataPipeline {
  import opened Wrappers
  import opened Frames
  import opened Schemas
  import opened LabelEncoding

  datatype ScalerKind = StandardScaler | MinMaxScaler

  /** mean_ (StandardScaler) or min_ (MinMaxScaler), and scale_, one entry per numeric column. */
  datatype FittedScaler = FittedScaler(offset: seq<real>, scale: seq<real>)

  /** A scaler object, fitted or not yet fitted. */
  datatype Scaler = Scaler(kind: ScalerKind, fitted: Option<FittedScaler>)

  datatype Numerics = Numerics(
    render: real -> string,
    impute: (string, Frame) -> Frame,
    replaceOutliers: (seq<seq<Cell>>, real) -> seq<seq<Cell>>,
    fitScaler: (ScalerKind, seq<seq<Cell>>) -> Result<FittedScaler, string>,
    applyScaler: (ScalerKind, FittedScaler, seq<seq<Cell>>) -> Result<seq<seq<real>>, string>)

  datatype PipelineError =
    | MissingColumns(names: set<string>)       // the ValueError fit raises for configured features
    | ColumnsNotFound(names: set<string>)      // a KeyError looking a column up
    | EncoderNotFitted(feature: string)        // a KeyError in categorical_encoders
    | NoClasses(feature: string)               // classes_[0] on an encoder with no classes
    | ScalerNotFitted
    | ScalerFailed(message: string)
    | ScalingParamOutOfRange(feature: string)  // values[idx] past the end of a parameter array
    | ScaledColumnOutOfRange(feature: string)  // numeric_data[:, idx] past the last column
    | CannotStack                              // column_stack of nothing or of unequal columns
    | MetadataNotFound(feature: string)
    | NoCategoricalMapping(feature: string)
    | NoScalingParams(feature: string)

  /** The fields fit and transform read or write. */
  datatype PipelineState = PipelineState(
    metadata: map<string, FeatureMetadata>,
    encoders: map<string, seq<string>>,
    scaler: Option<Scaler>)

  ghost predicate AgreeAt<K, V>(m: map<K, V>, m': map<K, V>, k: K) {
    (k in m <==> k in m') && (k in m ==> m[k] == m'[k])
  }

  ghost predicate EncodersDistinct(encoders: map<string, seq<string>>) {
    forall f :: f in encoders ==> Distinct(encoders[f])
  }

  function MissingColumnsOf(features: seq<string>, df: Frame): set<string> {
    set f | f in features && f !in df.columns
  }

  /** The first feature of fs, in order, that is not a column of df. */
  function FirstAbsent(fs: seq<string>, df: Frame): (r: Option<string>)
    ensures r.None? <==> forall f :: f in fs ==> f in df.columns
    ensures r.Some? ==> exists i ::
      && 0 <= i < |fs| && fs[i] == r.value && r.value !in df.columns
      && (forall j :: 0 <= j < i ==> fs[j] in df.columns)
    decreases |fs|
  {
    if fs == [] then None
    else if fs[0] !in df.columns then Some(fs[0])
    else
      var r := FirstAbsent(fs[1..], df);
      if r.Some? then
        var i :| 0 <= i < |fs[1..]| && fs[1..][i] == r.value && r.value !in df.columns
          && (forall j :: 0 <= j < i ==> fs[1..][j] in df.columns);
        assert fs[i + 1] == r.value;
        assert forall j :: 1 <= j < i + 1 ==> fs[j] == fs[1..][j - 1];
        r
      else
        r
  }

  /**
   * _handle_missing_values: 'drop' drops every row with a missing cell;
   * any other strategy first looks up each numeric feature's column and then
   * each categorical feature's column (a KeyError for the first absent one)
   * and imputes through Numerics.
   */
  function HandleMissingValues(cfg: DataPipelineConfig, numerics: Numerics, df: Frame): (r: Result<Frame, PipelineError>)
    requires WellFormed(df)
    ensures cfg.handleMissing == "drop" ==> r == Success(DropNa(df))
    ensures cfg.handleMissing != "drop" ==>
      (r.Success? <==> forall f :: (f in cfg.numericFeatures || f in cfg.categoricalFeatures) ==> f in df.columns)
    ensures r.Failure? ==> r.error.ColumnsNotFound? && |r.error.names| == 1
    ensures cfg.handleMissing != "drop" && FirstAbsent(cfg.numericFeatures, df).Some? ==>
      r == Failure(ColumnsNotFound({FirstAbsent(cfg.numericFeatures, df).value}))
    ensures cfg.handleMissing != "drop" && FirstAbsent(cfg.numericFeatures, df).None? && FirstAbsent(cfg.categoricalFeatures, df).Some? ==>
      r == Failure(ColumnsNotFound({FirstAbsent(cfg.categoricalFeatures, df).value}))
  {
    if cfg.handleMissing == "drop" then
      Success(DropNa(df))
    else
      match FirstAbsent(cfg.numericFeatures, df)
      case Some(f) => Failure(ColumnsNotFound({f}))
      case None =>
        match FirstAbsent(cfg.categoricalFeatures, df)
        case Some(f) => Failure(ColumnsNotFound({f}))
        case None => Success(numerics.impute(cfg.handleMissing, df))
  }

  function ScalerKindFor(scalingMethod: string): ScalerKind {
    if scalingMethod == "standard" then StandardScaler else MinMaxScaler
  }

  function OffsetName(kind: ScalerKind): string {
    match kind
    case StandardScaler => "mean"
    case MinMaxScaler => "min"
  }

  function CategoricalMetadata(feature: string, classes: seq<string>): FeatureMetadata {
    FeatureMetadata(feature, "categorical", categoricalMapping := Some(CodeMap(classes)))
  }

  function NumericMetadata(feature: string, kind: ScalerKind, fitted: FittedScaler, k: nat): FeatureMetadata
    requires k < |fitted.offset| && k < |fitted.scale|
  {
    FeatureMetadata(feature, "numeric",
      scalingParams := Some(map[OffsetName(kind) := fitted.offset[k], "scale" := fitted.scale[k]]))
  }

  /** The metadata a categorical feature receives: one code per distinct string of its column. */
  lemma CategoricalMetadataMapping(feature: string, texts: seq<string>)
    ensures var classes := StringClasses(texts);
      var md := CategoricalMetadata(feature, classes);
      && md.name == feature && md.dtype == "categorical" && md.scalingParams == None
      && md.categoricalMapping.Some?
      && md.categoricalMapping.value.Keys == (set t | t in texts)
      && |md.categoricalMapping.value| == |set t | t in texts|
      && (forall i :: 0 <= i < |classes| ==> md.categoricalMapping.value[classes[i]] == i)
      && (forall t :: t in texts ==> 0 <= md.categoricalMapping.value[t] < |classes|
                                     && classes[md.categoricalMapping.value[t]] == t)
  {
    var classes := StringClasses(texts);
    CodeMapSendsClassToIndex(classes);
    DistinctCardinality(classes);
    assert (set c | c in classes) == (set t | t in texts);
  }

  lemma NumericMetadataKeys(feature: string, kind: ScalerKind, fitted: FittedScaler, k: nat)
    requires k < |fitted.offset| && k < |fitted.scale|
    ensures var md := NumericMetadata(feature, kind, fitted, k);
      && md.name == feature && md.dtype == "numeric" && md.categoricalMapping == None
      && md.scalingParams.Some?
      && md.scalingParams.value.Keys == (if kind == StandardScaler then {"mean", "scale"} else {"min", "scale"})
      && md.scalingParams.value[OffsetName(kind)] == fitted.offset[k]
      && md.scalingParams.value["scale"] == fitted.scale[k]
  {
  }

  // ---------------------------------------------------------------- fit

  datatype FitStep = FitStep(state: PipelineState, frame: Frame, outcome: Outcome<PipelineError>)

  /** The categorical loop of fit, from state st and working frame d over the features fs. */
  function FitCategoricals(render: real -> string, st: PipelineState, d: Frame, fs: seq<string>): FitStep
    decreases |fs|
  {
    if fs == [] then
      FitStep(st, d, Pass)
    else
      var f := fs[0];
      if f !in d.columns then
        FitStep(st, d, Fail(ColumnsNotFound({f})))
      else
        var texts := AsText(render, d.columns[f]);
        var classes := StringClasses(texts);
        FitCategoricals(render,
          st.(encoders := st.encoders[f := classes], metadata := st.metadata[f := CategoricalMetadata(f, classes)]),
          d.(columns := d.columns[f := TextCells(texts)]),
          fs[1..])
  }

  /** The numeric loop of fit: fs are the numeric features from position k on. */
  function RecordScalingParams(meta: map<string, FeatureMetadata>, fs: seq<string>, k: nat,
                               kind: ScalerKind, fitted: FittedScaler): (map<string, FeatureMetadata>, Outcome<PipelineError>)
    decreases |fs|
  {
    if fs == [] then
      (meta, Pass)
    else if k < |fitted.offset| && k < |fitted.scale| then
      RecordScalingParams(meta[fs[0] := NumericMetadata(fs[0], kind, fitted, k)], fs[1..], k + 1, kind, fitted)
    else
      (meta, Fail(ScalingParamOutOfRange(fs[0])))
  }

  /** The state after fit(df) from state st, and whether fit returned or raised. */
  function FitSpec(cfg: DataPipelineConfig, numerics: Numerics, st: PipelineState, df: Frame): (PipelineState, Outcome<PipelineError>)
    requires WellFormed(df)
  {
    var missing := MissingColumnsOf(cfg.features, df);
    var cleaned := HandleMissingValues(cfg, numerics, df);
    if missing != {} then
      (st, Fail(MissingColumns(missing)))
    else if cleaned.Failure? then
      (st, Fail(cleaned.error))
    else
      var cat := FitCategoricals(numerics.render, st, cleaned.value, cfg.categoricalFeatures);
      if cat.outcome.Fail? then
        (cat.state, cat.outcome)
      else
        match Select(cat.frame, cfg.numericFeatures)
        case Failure(absent) => (cat.state, Fail(ColumnsNotFound(absent)))
        case Success(block) =>
          var input := if cfg.handleOutliers then numerics.replaceOutliers(block, cfg.outlierThreshold) else block;
          var kind := ScalerKindFor(cfg.scalingMethod);
          match numerics.fitScaler(kind, input)
          case Failure(msg) => (cat.state.(scaler := Some(Scaler(kind, None))), Fail(ScalerFailed(msg)))
          case Success(fitted) =>
            var recorded := RecordScalingParams(cat.state.metadata, cfg.numericFeatures, 0, kind, fitted);
            (PipelineState(recorded.0, cat.state.encoders, Some(Scaler(kind, Some(fitted)))), recorded.1)
  }

  lemma {:induction false} FitCategoricalsFacts(render: real -> string, st: PipelineState, d: Frame, fs: seq<string>)
    ensures var r := FitCategoricals(render, st, d, fs);
      r.outcome.Fail? ==> r.outcome.error.ColumnsNotFound?
    ensures var r := FitCategoricals(render, st, d, fs);
      r.outcome.Pass? ==> forall f :: f in fs ==>
        && f in d.columns
        && f in r.state.encoders && r.state.encoders[f] == StringClasses(AsText(render, d.columns[f]))
        && f in r.state.metadata && r.state.metadata[f] == CategoricalMetadata(f, r.state.encoders[f])
        && f in r.frame.columns && r.frame.columns[f] == TextCells(AsText(render, d.columns[f]))
    ensures var r := FitCategoricals(render, st, d, fs);
      forall g :: g !in fs ==>
        AgreeAt(st.encoders, r.state.encoders, g) && AgreeAt(st.metadata, r.state.metadata, g) && AgreeAt(d.columns, r.frame.columns, g)
    ensures FitCategoricals(render, st, d, fs).state.scaler == st.scaler
    decreases |fs|
  {
    if fs != [] && fs[0] in d.columns {
      var f := fs[0];
      var texts := AsText(render, d.columns[f]);
      var classes := StringClasses(texts);
      var st' := st.(encoders := st.encoders[f := classes], metadata := st.metadata[f := CategoricalMetadata(f, classes)]);
      var d' := d.(columns := d.columns[f := TextCells(texts)]);
      var rest := fs[1..];
      FitCategoricalsFacts(render, st', d', rest);
      var r := FitCategoricals(render, st', d', rest);
      assert r == FitCategoricals(render, st, d, fs);
      AsTextOfTextCells(render, texts);
      forall g | g in fs && r.outcome.Pass?
        ensures && g in d.columns
                && g in r.state.encoders && r.state.encoders[g] == StringClasses(AsText(render, d.columns[g]))
                && g in r.state.metadata && r.state.metadata[g] == CategoricalMetadata(g, r.state.encoders[g])
                && g in r.frame.columns && r.frame.columns[g] == TextCells(AsText(render, d.columns[g]))
      {
        if g !in rest {
          assert g == f;
          assert AgreeAt(st'.encoders, r.state.encoders, g) && AgreeAt(st'.metadata, r.state.metadata, g);
          assert AgreeAt(d'.columns, r.frame.columns, g);
        } else if g != f {
          assert d'.columns[g] == d.columns[g];
        }
      }
      forall g | g !in fs
        ensures AgreeAt(st.encoders, r.state.encoders, g) && AgreeAt(st.metadata, r.state.metadata, g)
                && AgreeAt(d.columns, r.frame.columns, g)
      {
        assert g != f && g !in rest;
        assert AgreeAt(st'.encoders, r.state.encoders, g) && AgreeAt(st'.metadata, r.state.metadata, g);
        assert AgreeAt(d'.columns, r.frame.columns, g);
      }
    }
  }

  lemma {:induction false} RecordScalingParamsOutcome(meta: map<string, FeatureMetadata>, fs: seq<string>, k: nat,
                                                      kind: ScalerKind, fitted: FittedScaler)
    ensures var r := RecordScalingParams(meta, fs, k, kind, fitted);
      r.1.Pass? <==> fs == [] || (k + |fs| <= |fitted.offset| && k + |fs| <= |fitted.scale|)
    ensures var r := RecordScalingParams(meta, fs, k, kind, fitted);
      r.1.Fail? ==> r.1.error.ScalingParamOutOfRange?
    decreases |fs|
  {
    if fs != [] && k < |fitted.offset| && k < |fitted.scale| {
      RecordScalingParamsOutcome(meta[fs[0] := NumericMetadata(fs[0], kind, fitted, k)], fs[1..], k + 1, kind, fitted);
    }
  }

  lemma {:induction false} RecordScalingParamsUntouched(meta: map<string, FeatureMetadata>, fs: seq<string>, k: nat,
                                                        kind: ScalerKind, fitted: FittedScaler, g: string)
    requires g !in fs
    ensures AgreeAt(meta, RecordScalingParams(meta, fs, k, kind, fitted).0, g)
    decreases |fs|
  {
    if fs != [] && k < |fitted.offset| && k < |fitted.scale| {
      assert g != fs[0] && g !in fs[1..];
      RecordScalingParamsUntouched(meta[fs[0] := NumericMetadata(fs[0], kind, fitted, k)], fs[1..], k + 1, kind, fitted, g);
    }
  }

  /** A feature at position j, not repeated later, keeps the parameters at index k + j. */
  lemma {:induction false} RecordScalingParamsAt(meta: map<string, FeatureMetadata>, fs: seq<string>, k: nat,
                                                 kind: ScalerKind, fitted: FittedScaler, j: nat)
    requires RecordScalingParams(meta, fs, k, kind, fitted).1.Pass?
    requires j < |fs| && fs[j] !in fs[j + 1..]
    ensures k + j < |fitted.offset| && k + j < |fitted.scale|
    ensures var m := RecordScalingParams(meta, fs, k, kind, fitted).0;
      fs[j] in m && m[fs[j]] == NumericMetadata(fs[j], kind, fitted, k + j)
    decreases |fs|
  {
    var meta' := meta[fs[0] := NumericMetadata(fs[0], kind, fitted, k)];
    if j == 0 {
      RecordScalingParamsUntouched(meta', fs[1..], k + 1, kind, fitted, fs[0]);
    } else {
      assert fs[1..][j - 1] == fs[j] && fs[1..][j..] == fs[j + 1..];
      RecordScalingParamsAt(meta', fs[1..], k + 1, kind, fitted, j - 1);
    }
  }

  lemma {:induction false} RecordScalingParamsKeys(meta: map<string, FeatureMetadata>, fs: seq<string>, k: nat,
                                                   kind: ScalerKind, fitted: FittedScaler, f: string)
    requires RecordScalingParams(meta, fs, k, kind, fitted).1.Pass?
    requires f in fs
    ensures var m := RecordScalingParams(meta, fs, k, kind, fitted).0;
      && f in m && m[f].dtype == "numeric" && m[f].categoricalMapping == None && m[f].scalingParams.Some?
      && m[f].scalingParams.value.Keys == {OffsetName(kind), "scale"}
    decreases |fs|
  {
    var meta' := meta[fs[0] := NumericMetadata(fs[0], kind, fitted, k)];
    if f in fs[1..] {
      RecordScalingParamsKeys(meta', fs[1..], k + 1, kind, fitted, f);
    } else {
      RecordScalingParamsUntouched(meta', fs[1..], k + 1, kind, fitted, f);
    }
  }

  lemma RecordScalingParamsFacts(meta: map<string, FeatureMetadata>, fs: seq<string>, k: nat,
                                 kind: ScalerKind, fitted: FittedScaler)
    ensures var r := RecordScalingParams(meta, fs, k, kind, fitted);
      r.1.Pass? <==> fs == [] || (k + |fs| <= |fitted.offset| && k + |fs| <= |fitted.scale|)
    ensures var r := RecordScalingParams(meta, fs, k, kind, fitted);
      r.1.Fail? ==> r.1.error.ScalingParamOutOfRange?
    ensures var r := RecordScalingParams(meta, fs, k, kind, fitted);
      r.1.Pass? ==> forall j :: 0 <= j < |fs| && fs[j] !in fs[j + 1..] ==>
        k + j < |fitted.offset| && k + j < |fitted.scale| &&
        fs[j] in r.0 && r.0[fs[j]] == NumericMetadata(fs[j], kind, fitted, k + j)
    ensures var r := RecordScalingParams(meta, fs, k, kind, fitted);
      r.1.Pass? ==> forall f :: f in fs ==>
        f in r.0 && r.0[f].dtype == "numeric" && r.0[f].categoricalMapping == None && r.0[f].scalingParams.Some?
        && r.0[f].scalingParams.value.Keys == {OffsetName(kind), "scale"}
    ensures var r := RecordScalingParams(meta, fs, k, kind, fitted);
      forall g :: g !in fs ==> AgreeAt(meta, r.0, g)
  {
    var r := RecordScalingParams(meta, fs, k, kind, fitted);
    RecordScalingParamsOutcome(meta, fs, k, kind, fitted);
    forall j | 0 <= j < |fs| && fs[j] !in fs[j + 1..] && r.1.Pass?
      ensures k + j < |fitted.offset| && k + j < |fitted.scale|
      ensures fs[j] in r.0 && r.0[fs[j]] == NumericMetadata(fs[j], kind, fitted, k + j)
    {
      RecordScalingParamsAt(meta, fs, k, kind, fitted, j);
    }
    forall f | f in fs && r.1.Pass?
      ensures f in r.0 && r.0[f].dtype == "numeric" && r.0[f].categoricalMapping == None && r.0[f].scalingParams.Some?
      ensures r.0[f].scalingParams.value.Keys == {OffsetName(kind), "scale"}
    {
      RecordScalingParamsKeys(meta, fs, k, kind, fitted, f);
    }
    forall g | g !in fs ensures AgreeAt(meta, r.0, g) {
      RecordScalingParamsUntouched(meta, fs, k, kind, fitted, g);
    }
  }

  /** fit raises its ValueError exactly when a configured feature is not a column, and then changes nothing. */
  lemma FitRejectsMissingColumns(cfg: DataPipelineConfig, numerics: Numerics, st: PipelineState, df: Frame)
    requires WellFormed(df)
    ensures var r := FitSpec(cfg, numerics, st, df);
      (r.1.Fail? && r.1.error.MissingColumns?) <==> exists f :: f in cfg.features && f !in df.columns
    ensures (exists f :: f in cfg.features && f !in df.columns) ==>
      FitSpec(cfg, numerics, st, df) == (st, Fail(MissingColumns(MissingColumnsOf(cfg.features, df))))
  {
    var missing := MissingColumnsOf(cfg.features, df);
    if missing != {} {
      var f :| f in missing;
    } else {
      forall f | f in cfg.features ensures f in df.columns {
        assert f !in missing;
      }
      var cleaned := HandleMissingValues(cfg, numerics, df);
      var clean := if cleaned.Success? then cleaned.value else df;
      var cat := FitCategoricals(numerics.render, st, clean, cfg.categoricalFeatures);
      FitCategoricalsFacts(numerics.render, st, clean, cfg.categoricalFeatures);
      if cleaned.Success? && cat.outcome.Pass? {
        match Select(cat.frame, cfg.numericFeatures)
        case Failure(_) =>
        case Success(block) =>
          var input := if cfg.handleOutliers then numerics.replaceOutliers(block, cfg.outlierThreshold) else block;
          var kind := ScalerKindFor(cfg.scalingMethod);
          match numerics.fitScaler(kind, input)
          case Failure(_) =>
          case Success(fitted) =>
            RecordScalingParamsFacts(cat.state.metadata, cfg.numericFeatures, 0, kind, fitted);
            assert FitSpec(cfg, numerics, st, df).1 == RecordScalingParams(cat.state.metadata, cfg.numericFeatures, 0, kind, fitted).1;
      }
    }
  }

  /**
   * After a successful fit every categorical feature has an encoder fitted on
   * its column as strings, and (unless it is also numeric) the metadata with
   * that encoder's class-to-code dictionary. Encoders stay duplicate-free.
   */
  lemma FitRecordsEncoders(cfg: DataPipelineConfig, numerics: Numerics, st: PipelineState, df: Frame)
    requires WellFormed(df)
    requires FitSpec(cfg, numerics, st, df).1.Pass?
    ensures HandleMissingValues(cfg, numerics, df).Success?
    ensures var clean := HandleMissingValues(cfg, numerics, df).value;
      var st' := FitSpec(cfg, numerics, st, df).0;
      forall f :: f in cfg.categoricalFeatures ==>
        && f in clean.columns && f in st'.encoders
        && st'.encoders[f] == StringClasses(AsText(numerics.render, clean.columns[f]))
        && (f !in cfg.numericFeatures ==>
              f in st'.metadata && st'.metadata[f] == CategoricalMetadata(f, st'.encoders[f]))
  {
    var clean := HandleMissingValues(cfg, numerics, df).value;
    var cat := FitCategoricals(numerics.render, st, clean, cfg.categoricalFeatures);
    FitCategoricalsFacts(numerics.render, st, clean, cfg.categoricalFeatures);
    var block := Select(cat.frame, cfg.numericFeatures).value;
    var input := if cfg.handleOutliers then numerics.replaceOutliers(block, cfg.outlierThreshold) else block;
    var kind := ScalerKindFor(cfg.scalingMethod);
    var fitted := numerics.fitScaler(kind, input).value;
    RecordScalingParamsFacts(cat.state.metadata, cfg.numericFeatures, 0, kind, fitted);
  }

  /** fit keeps every encoder's classes free of duplicates, whether it returns or raises. */
  lemma FitKeepsEncodersDistinct(cfg: DataPipelineConfig, numerics: Numerics, st: PipelineState, df: Frame)
    requires WellFormed(df)
    requires EncodersDistinct(st.encoders)
    ensures EncodersDistinct(FitSpec(cfg, numerics, st, df).0.encoders)
  {
    var missing := MissingColumnsOf(cfg.features, df);
    if missing == {} && HandleMissingValues(cfg, numerics, df).Success? {
      var clean := HandleMissingValues(cfg, numerics, df).value;
      var cat := FitCategoricals(numerics.render, st, clean, cfg.categoricalFeatures);
      FitCategoricalsFacts(numerics.render, st, clean, cfg.categoricalFeatures);
      forall f | f in cat.state.encoders ensures Distinct(cat.state.encoders[f]) {
        if f !in cfg.categoricalFeatures {
          assert AgreeAt(st.encoders, cat.state.encoders, f);
        } else if cat.outcome.Fail? {
          // the loop stopped part-way: the feature was either refitted or left as it was
          assert f in cat.state.encoders;
          FitCategoricalsPartial(numerics.render, st, clean, cfg.categoricalFeatures, f);
        }
      }
    }
  }

  /** Even when the categorical loop stops part-way, every encoder it holds is old or freshly fitted. */
  lemma {:induction false} FitCategoricalsPartial(render: real -> string, st: PipelineState, d: Frame, fs: seq<string>, g: string)
    requires g in FitCategoricals(render, st, d, fs).state.encoders
    ensures var e := FitCategoricals(render, st, d, fs).state.encoders[g];
      (g in st.encoders && e == st.encoders[g]) || exists texts :: e == StringClasses(texts)
    decreases |fs|
  {
    if fs != [] && fs[0] in d.columns {
      var f := fs[0];
      var texts := AsText(render, d.columns[f]);
      var classes := StringClasses(texts);
      var st' := st.(encoders := st.encoders[f := classes], metadata := st.metadata[f := CategoricalMetadata(f, classes)]);
      var d' := d.(columns := d.columns[f := TextCells(texts)]);
      FitCategoricalsPartial(render, st', d', fs[1..], g);
    }
  }

  /**
   * After a successful fit the scaler is a StandardScaler exactly when the
   * scaling method is 'standard', it is fitted, and the k-th numeric feature
   * (at its last position) records the k-th entries of the fitted arrays
   * under the keys {mean, scale} or {min, scale}.
   */
  lemma FitRecordsScalingParams(cfg: DataPipelineConfig, numerics: Numerics, st: PipelineState, df: Frame)
    requires WellFormed(df)
    requires FitSpec(cfg, numerics, st, df).1.Pass?
    ensures var st' := FitSpec(cfg, numerics, st, df).0;
      && st'.scaler.Some? && st'.scaler.value.fitted.Some?
      && (st'.scaler.value.kind == StandardScaler <==> cfg.scalingMethod == "standard")
    ensures var st' := FitSpec(cfg, numerics, st, df).0;
      var kind := st'.scaler.value.kind;
      var fitted := st'.scaler.value.fitted.value;
      var nums := cfg.numericFeatures;
      && |nums| <= |fitted.offset| && |nums| <= |fitted.scale|
      && (forall k :: 0 <= k < |nums| && nums[k] !in nums[k + 1..] ==>
            nums[k] in st'.metadata && st'.metadata[nums[k]] == NumericMetadata(nums[k], kind, fitted, k))
      && (forall f :: f in nums ==>
            f in st'.metadata && st'.metadata[f].scalingParams.Some?
            && st'.metadata[f].scalingParams.value.Keys
               == (if cfg.scalingMethod == "standard" then {"mean", "scale"} else {"min", "scale"}))
  {
    var clean := HandleMissingValues(cfg, numerics, df).value;
    var cat := FitCategoricals(numerics.render, st, clean, cfg.categoricalFeatures);
    var block := Select(cat.frame, cfg.numericFeatures).value;
    var input := if cfg.handleOutliers then numerics.replaceOutliers(block, cfg.outlierThreshold) else block;
    var kind := ScalerKindFor(cfg.scalingMethod);
    var fitted := numerics.fitScaler(kind, input).value;
    RecordScalingParamsFacts(cat.state.metadata, cfg.numericFeatures, 0, kind, fitted);
  }

  // ---------------------------------------------------------------- transform

  predicate CodesBelow(col: seq<Cell>, n: nat) {
    forall i :: 0 <= i < |col| ==> col[i].Num? && 0.0 <= col[i].x < n as real && col[i].x == col[i].x.Floor as real
  }

  /**
   * Encoding one categorical column: a string that is not a class is first
   * replaced by classes_[0], then every string is replaced by its class index.
   */
  function EncodeColumn(classes: seq<string>, texts: seq<string>): (r: Option<seq<nat>>)
    ensures r.Some? <==> classes != [] || texts == []
    ensures r.Some? ==> |r.value| == |texts|
    ensures r.Some? ==> forall i :: 0 <= i < |texts| ==> r.value[i] < |classes|
    ensures r.Some? ==> forall i :: 0 <= i < |texts| && texts[i] in classes ==> classes[r.value[i]] == texts[i]
    ensures r.Some? && Distinct(classes) ==> forall i :: 0 <= i < |texts| && texts[i] !in classes ==> r.value[i] == 0
  {
    if classes == [] && texts != [] then
      None
    else
      var mapped := seq(|texts|, i requires 0 <= i < |texts| => if texts[i] in classes then texts[i] else classes[0]);
      var codes := Encode(classes, mapped);
      assert codes.Success?;
      Some(codes.value)
  }

  lemma CodesOfEncodeColumn(classes: seq<string>, texts: seq<string>)
    requires EncodeColumn(classes, texts).Some?
    ensures CodesBelow(Codes(EncodeColumn(classes, texts).value), |classes|)
  {
  }

  /** The categorical loop of transform over the working frame d. */
  function EncodeCategoricals(render: real -> string, encoders: map<string, seq<string>>, d: Frame,
                              fs: seq<string>): Result<Frame, PipelineError>
    decreases |fs|
  {
    if fs == [] then
      Success(d)
    else
      var f := fs[0];
      if f !in encoders then
        Failure(EncoderNotFitted(f))
      else if f !in d.columns then
        Failure(ColumnsNotFound({f}))
      else
        match EncodeColumn(encoders[f], AsText(render, d.columns[f]))
        case None => Failure(NoClasses(f))
        case Some(codes) => EncodeCategoricals(render, encoders, d.(columns := d.columns[f := Codes(codes)]), fs[1..])
  }

  /**
   * The numeric block: selected (a KeyError names every absent numeric
   * feature, before the scaler is consulted), outliers replaced if
   * configured, then scaled by the fitted scaler, which must exist.
   */
  function ScaleNumeric(cfg: DataPipelineConfig, numerics: Numerics, scaler: Option<Scaler>,
                        d: Frame): (r: Result<seq<seq<real>>, PipelineError>)
    ensures (exists k :: 0 <= k < |cfg.numericFeatures| && cfg.numericFeatures[k] !in d.columns) ==>
      r.Failure? && r.error.ColumnsNotFound?
      && forall k :: 0 <= k < |cfg.numericFeatures| && cfg.numericFeatures[k] !in d.columns ==>
           cfg.numericFeatures[k] in r.error.names
    ensures
      && (forall k :: 0 <= k < |cfg.numericFeatures| ==> cfg.numericFeatures[k] in d.columns)
      && (scaler.None? || scaler.value.fitted.None?)
      ==> r == Failure(ScalerNotFitted)
    ensures r.Success? ==>
      && scaler.Some? && scaler.value.fitted.Some?
      && (forall k :: 0 <= k < |cfg.numericFeatures| ==> cfg.numericFeatures[k] in d.columns)
    ensures r.Success? ==>
      var block := Select(d, cfg.numericFeatures).value;
      var input := if cfg.handleOutliers then numerics.replaceOutliers(block, cfg.outlierThreshold) else block;
      numerics.applyScaler(scaler.value.kind, scaler.value.fitted.value, input) == Success(r.value)
  {
    match Select(d, cfg.numericFeatures)
    case Failure(absent) => Failure(ColumnsNotFound(absent))
    case Success(block) =>
      var input := if cfg.handleOutliers then numerics.replaceOutliers(block, cfg.outlierThreshold) else block;
      if scaler.None? || scaler.value.fitted.None? then
        Failure(ScalerNotFitted)
      else
        match numerics.applyScaler(scaler.value.kind, scaler.value.fitted.value, input)
        case Failure(msg) => Failure(ScalerFailed(msg))
        case Success(scaled) => Success(scaled)
  }

  /** One output column: the scaled column at the feature's place among the numeric features, or the frame's column. */
  function AssembleColumn(nums: seq<string>, scaled: seq<seq<real>>, d: Frame, f: string): (r: Result<seq<Cell>, PipelineError>)
    ensures f in nums ==> (r.Success? <==> IndexOf(nums, f) < |scaled|)
    ensures f in nums && r.Success? ==> nums[IndexOf(nums, f)] == f && r.value == Nums(scaled[IndexOf(nums, f)])
    ensures f !in nums ==> (r.Success? <==> f in d.columns) && (r.Success? ==> r.value == d.columns[f])
    ensures r.Failure? ==> r.error == ScaledColumnOutOfRange(f) || r.error == ColumnsNotFound({f})
  {
    if f in nums then
      var idx := IndexOf(nums, f);
      if idx < |scaled| then Success(Nums(scaled[idx])) else Failure(ScaledColumnOutOfRange(f))
    else if f in d.columns then
      Success(d.columns[f])
    else
      Failure(ColumnsNotFound({f}))
  }

  /** The assembly loop: one column per feature of fs, in order. */
  function Assemble(nums: seq<string>, scaled: seq<seq<real>>, d: Frame, fs: seq<string>): (r: Result<seq<seq<Cell>>, PipelineError>)
    ensures r.Success? <==> forall k :: 0 <= k < |fs| ==> AssembleColumn(nums, scaled, d, fs[k]).Success?
    ensures r.Success? ==> |r.value| == |fs|
    ensures r.Success? ==> forall k :: 0 <= k < |fs| ==> AssembleColumn(nums, scaled, d, fs[k]) == Success(r.value[k])
    ensures r.Failure? ==> r.error.ScaledColumnOutOfRange? || r.error.ColumnsNotFound?
    decreases |fs|
  {
    if fs == [] then
      Success([])
    else
      var c :- AssembleColumn(nums, scaled, d, fs[0]);
      var rest :- Assemble(nums, scaled, d, fs[1..]);
      assert forall k :: 1 <= k < |fs| ==> fs[k] == fs[1..][k - 1];
      Success([c] + rest)
  }

  /** np.column_stack: at least one column, all of one length. */
  function ColumnStack(cols: seq<seq<Cell>>): (r: Result<seq<seq<Cell>>, PipelineError>)
    ensures r.Success? <==> |cols| > 0 && forall k :: 0 <= k < |cols| ==> |cols[k]| == |cols[0]|
    ensures r.Success? ==> r.value == cols
    ensures r.Failure? ==> r.error == CannotStack
  {
    if cols == [] || exists k :: 0 <= k < |cols| && |cols[k]| != |cols[0]| then Failure(CannotStack) else Success(cols)
  }

  /** The transformed data, column by column, and the feature names. */
  datatype Transformed = Transformed(columns: seq<seq<Cell>>, names: seq<string>)

  function TransformSpec(cfg: DataPipelineConfig, numerics: Numerics, encoders: map<string, seq<string>>,
                         scaler: Option<Scaler>, df: Frame): Result<Transformed, PipelineError>
    requires WellFormed(df)
  {
    var clean :- HandleMissingValues(cfg, numerics, df);
    var encoded :- EncodeCategoricals(numerics.render, encoders, clean, cfg.categoricalFeatures);
    var scaled :- ScaleNumeric(cfg, numerics, scaler, encoded);
    var cols :- Assemble(cfg.numericFeatures, scaled, encoded, cfg.features);
    var stacked :- ColumnStack(cols);
    Success(Transformed(stacked, cfg.features))
  }

  function Prepend<T, E>(prefix: seq<T>, r: Result<seq<T>, E>): Result<seq<T>, E> {
    match r
    case Success(rest) => Success(prefix + rest)
    case Failure(e) => Failure(e)
  }

  lemma {:induction false} EncodeCategoricalsFacts(render: real -> string, encoders: map<string, seq<string>>, d: Frame, fs: seq<string>)
    ensures var r := EncodeCategoricals(render, encoders, d, fs);
      r.Success? ==> r.value.columns.Keys == d.columns.Keys && r.value.rows == d.rows
    ensures var r := EncodeCategoricals(render, encoders, d, fs);
      r.Success? ==> forall f :: f in fs ==>
        f in encoders && f in d.columns && f in r.value.columns
        && |r.value.columns[f]| == |d.columns[f]| && CodesBelow(r.value.columns[f], |encoders[f]|)
    ensures var r := EncodeCategoricals(render, encoders, d, fs);
      r.Success? ==> forall g :: g !in fs && g in d.columns ==> r.value.columns[g] == d.columns[g]
    ensures var r := EncodeCategoricals(render, encoders, d, fs);
      r.Failure? ==> r.error.EncoderNotFitted? || r.error.ColumnsNotFound? || r.error.NoClasses?
    ensures var r := EncodeCategoricals(render, encoders, d, fs);
      r.Failure? && r.error.NoClasses? ==> r.error.feature in fs && r.error.feature in encoders && encoders[r.error.feature] == []
    decreases |fs|
  {
    if fs != [] && fs[0] in encoders && fs[0] in d.columns {
      var f := fs[0];
      var texts := AsText(render, d.columns[f]);
      var codes := EncodeColumn(encoders[f], texts);
      if codes.Some? {
        CodesOfEncodeColumn(encoders[f], texts);
        var d' := d.(columns := d.columns[f := Codes(codes.value)]);
        var rest := fs[1..];
        EncodeCategoricalsFacts(render, encoders, d', rest);
        var r := EncodeCategoricals(render, encoders, d', rest);
        assert r == EncodeCategoricals(render, encoders, d, fs);
        forall g | g in fs && r.Success?
          ensures g in encoders && g in d.columns && g in r.value.columns
          ensures |r.value.columns[g]| == |d.columns[g]| && CodesBelow(r.value.columns[g], |encoders[g]|)
        {
          if g !in rest {
            assert g == f;
          } else if g != f {
            assert d'.columns[g] == d.columns[g];
          }
        }
      }
    }
  }

  /**
   * A categorical feature listed once ends up with exactly the codes
   * EncodeColumn gives its column as strings: the class index of a known
   * value and 0, the first class, for an unseen one.
   */
  lemma {:induction false} EncodeCategoricalsColumn(render: real -> string, encoders: map<string, seq<string>>, d: Frame,
                                                    fs: seq<string>, j: nat)
    requires EncodeCategoricals(render, encoders, d, fs).Success?
    requires j < |fs| && fs[j] !in fs[..j] && fs[j] !in fs[j + 1..]
    ensures fs[j] in encoders && fs[j] in d.columns
    ensures EncodeColumn(encoders[fs[j]], AsText(render, d.columns[fs[j]])).Some?
    ensures fs[j] in EncodeCategoricals(render, encoders, d, fs).value.columns
    ensures EncodeCategoricals(render, encoders, d, fs).value.columns[fs[j]]
         == Codes(EncodeColumn(encoders[fs[j]], AsText(render, d.columns[fs[j]])).value)
    decreases |fs|
  {
    var f := fs[0];
    var codes := EncodeColumn(encoders[f], AsText(render, d.columns[f]));
    var d' := d.(columns := d.columns[f := Codes(codes.value)]);
    var rest := fs[1..];
    assert EncodeCategoricals(render, encoders, d, fs) == EncodeCategoricals(render, encoders, d', rest);
    if j == 0 {
      assert f !in rest;
      EncodeCategoricalsFacts(render, encoders, d', rest);
    } else {
      assert rest[j - 1] == fs[j] && rest[..j - 1] == fs[1..j] && rest[j..] == fs[j + 1..];
      assert fs[j] != f by { assert fs[..j][0] == f; }
      EncodeCategoricalsColumn(render, encoders, d', rest, j - 1);
      assert d'.columns[fs[j]] == d.columns[fs[j]];
    }
  }

  /**
   * A successful transform has one column per configured feature, all of one
   * length, and returns the configured feature names in order; a numeric
   * feature takes the scaled column at its first position among the numeric
   * features and every other feature takes its (encoded) frame column.
   */
  lemma TransformFollowsFeatureOrder(cfg: DataPipelineConfig, numerics: Numerics, encoders: map<string, seq<string>>,
                                     scaler: Option<Scaler>, df: Frame)
    requires WellFormed(df)
    requires TransformSpec(cfg, numerics, encoders, scaler, df).Success?
    ensures var out := TransformSpec(cfg, numerics, encoders, scaler, df).value;
      && |out.columns| == |cfg.features| > 0
      && out.names == cfg.features
      && (forall k :: 0 <= k < |out.columns| ==> |out.columns[k]| == |out.columns[0]|)
    ensures var out := TransformSpec(cfg, numerics, encoders, scaler, df).value;
      var clean := HandleMissingValues(cfg, numerics, df);
      && clean.Success?
      && var encoded := EncodeCategoricals(numerics.render, encoders, clean.value, cfg.categoricalFeatures);
      && encoded.Success?
      && ScaleNumeric(cfg, numerics, scaler, encoded.value).Success?
      && var scaled := ScaleNumeric(cfg, numerics, scaler, encoded.value).value;
         forall k :: 0 <= k < |cfg.features| ==>
           if cfg.features[k] in cfg.numericFeatures then
             IndexOf(cfg.numericFeatures, cfg.features[k]) < |scaled|
             && out.columns[k] == Nums(scaled[IndexOf(cfg.numericFeatures, cfg.features[k])])
           else
             cfg.features[k] in encoded.value.columns && out.columns[k] == encoded.value.columns[cfg.features[k]]
  {
  }

  /**
   * In the output of transform, a categorical feature that is not numeric
   * holds only codes of its encoder: integers in [0, number of classes).
   */
  lemma TransformEncodesCategoricals(cfg: DataPipelineConfig, numerics: Numerics, encoders: map<string, seq<string>>,
                                     scaler: Option<Scaler>, df: Frame, k: nat)
    requires WellFormed(df)
    requires TransformSpec(cfg, numerics, encoders, scaler, df).Success?
    requires k < |cfg.features|
    requires cfg.features[k] in cfg.categoricalFeatures && cfg.features[k] !in cfg.numericFeatures
    ensures var out := TransformSpec(cfg, numerics, encoders, scaler, df).value;
      cfg.features[k] in encoders && k < |out.columns| && CodesBelow(out.columns[k], |encoders[cfg.features[k]]|)
  {
    TransformFollowsFeatureOrder(cfg, numerics, encoders, scaler, df);
    if HandleMissingValues(cfg, numerics, df).Success? {
      EncodeCategoricalsFacts(numerics.render, encoders, HandleMissingValues(cfg, numerics, df).value, cfg.categoricalFeatures);
    }
  }

  /**
   * In the output of transform, a categorical feature that is not numeric
   * and is listed once among the categorical features holds exactly the codes
   * of its cleaned column as strings.
   */
  lemma TransformCategoricalColumn(cfg: DataPipelineConfig, numerics: Numerics, encoders: map<string, seq<string>>,
                                   scaler: Option<Scaler>, df: Frame, k: nat, j: nat)
    requires WellFormed(df)
    requires TransformSpec(cfg, numerics, encoders, scaler, df).Success?
    requires k < |cfg.features| && cfg.features[k] !in cfg.numericFeatures
    requires j < |cfg.categoricalFeatures| && cfg.categoricalFeatures[j] == cfg.features[k]
    requires cfg.features[k] !in cfg.categoricalFeatures[..j] && cfg.features[k] !in cfg.categoricalFeatures[j + 1..]
    ensures var f := cfg.features[k];
      var clean := HandleMissingValues(cfg, numerics, df);
      var out := TransformSpec(cfg, numerics, encoders, scaler, df).value;
      && clean.Success? && f in clean.value.columns && f in encoders
      && EncodeColumn(encoders[f], AsText(numerics.render, clean.value.columns[f])).Some?
      && k < |out.columns|
      && out.columns[k] == Codes(EncodeColumn(encoders[f], AsText(numerics.render, clean.value.columns[f])).value)
  {
    TransformFollowsFeatureOrder(cfg, numerics, encoders, scaler, df);
    EncodeCategoricalsColumn(numerics.render, encoders, HandleMissingValues(cfg, numerics, df).value, cfg.categoricalFeatures, j);
  }

  /**
   * The unseen-category fallback means transform never raises over a
   * category once every encoder has a class: the only category failure is
   * classes_[0] of an encoder with no classes.
   */
  lemma UnseenCategoriesNeverFail(cfg: DataPipelineConfig, numerics: Numerics, encoders: map<string, seq<string>>,
                                  scaler: Option<Scaler>, df: Frame)
    requires WellFormed(df)
    requires forall f :: f in encoders ==> encoders[f] != []
    ensures var r := TransformSpec(cfg, numerics, encoders, scaler, df);
      r.Failure? ==> !r.error.NoClasses?
  {
    if HandleMissingValues(cfg, numerics, df).Success? {
      EncodeCategoricalsFacts(numerics.render, encoders, HandleMissingValues(cfg, numerics, df).value, cfg.categoricalFeatures);
    }
  }

  // ---------------------------------------------------------------- export

  /** The preprocessing document export_metadata serialises. */
  datatype Metadata = Metadata(
    features: seq<string>,
    categoricalFeatures: map<string, map<string, int>>,
    numericFeatures: map<string, map<string, real>>,
    scalingMethod: string)

  /** The first categorical feature (in order) whose metadata is absent or has no mapping. */
  function FirstCategoricalProblem(meta: map<string, FeatureMetadata>, fs: seq<string>): (r: Option<PipelineError>)
    ensures r.None? <==> forall f :: f in fs ==> f in meta && meta[f].categoricalMapping.Some?
    decreases |fs|
  {
    if fs == [] then None
    else if fs[0] !in meta then Some(MetadataNotFound(fs[0]))
    else if meta[fs[0]].categoricalMapping.None? then Some(NoCategoricalMapping(fs[0]))
    else FirstCategoricalProblem(meta, fs[1..])
  }

  function FirstNumericProblem(meta: map<string, FeatureMetadata>, fs: seq<string>): (r: Option<PipelineError>)
    ensures r.None? <==> forall f :: f in fs ==> f in meta && meta[f].scalingParams.Some?
    decreases |fs|
  {
    if fs == [] then None
    else if fs[0] !in meta then Some(MetadataNotFound(fs[0]))
    else if meta[fs[0]].scalingParams.None? then Some(NoScalingParams(fs[0]))
    else FirstNumericProblem(meta, fs[1..])
  }

  /**
   * export_metadata: the features and the scaling method verbatim, the
   * categorical section keyed exactly by the categorical features and the
   * numeric section keyed exactly by the numeric features.
   */
  function Export(cfg: DataPipelineConfig, meta: map<string, FeatureMetadata>): (r: Result<Metadata, PipelineError>)
    ensures r.Success? <==>
      && (forall f :: f in cfg.categoricalFeatures ==> f in meta && meta[f].categoricalMapping.Some?)
      && (forall f :: f in cfg.numericFeatures ==> f in meta && meta[f].scalingParams.Some?)
    ensures r.Success? ==> r.value.features == cfg.features && r.value.scalingMethod == cfg.scalingMethod
    ensures r.Success? ==> r.value.categoricalFeatures.Keys == set f | f in cfg.categoricalFeatures
    ensures r.Success? ==> r.value.numericFeatures.Keys == set f | f in cfg.numericFeatures
    ensures r.Success? ==> forall f :: f in r.value.categoricalFeatures ==>
      r.value.categoricalFeatures[f] == meta[f].categoricalMapping.value
    ensures r.Success? ==> forall f :: f in r.value.numericFeatures ==>
      r.value.numericFeatures[f] == meta[f].scalingParams.value
  {
    match FirstCategoricalProblem(meta, cfg.categoricalFeatures)
    case Some(e) => Failure(e)
    case None =>
      match FirstNumericProblem(meta, cfg.numericFeatures)
      case Some(e) => Failure(e)
      case None =>
        Success(Metadata(
          cfg.features,
          map f | f in cfg.categoricalFeatures :: meta[f].categoricalMapping.value,
          map f | f in cfg.numericFeatures :: meta[f].scalingParams.value,
          cfg.scalingMethod))
  }

  /**
   * After a successful fit over disjoint categorical and numeric features the
   * export succeeds, each categorical section is its encoder's code map and
   * each numeric section has exactly the keys of the chosen scaler.
   */
  lemma ExportAfterFit(cfg: DataPipelineConfig, numerics: Numerics, st: PipelineState, df: Frame)
    requires WellFormed(df)
    requires FitSpec(cfg, numerics, st, df).1.Pass?
    requires forall f :: f in cfg.categoricalFeatures ==> f !in cfg.numericFeatures
    ensures var st' := FitSpec(cfg, numerics, st, df).0;
      var r := Export(cfg, st'.metadata);
      && r.Success?
      && (forall f :: f in r.value.categoricalFeatures ==> f in st'.encoders && r.value.categoricalFeatures[f] == CodeMap(st'.encoders[f]))
      && (forall f :: f in r.value.numericFeatures ==>
            r.value.numericFeatures[f].Keys == (if cfg.scalingMethod == "standard" then {"mean", "scale"} else {"min", "scale"}))
  {
    FitRecordsEncoders(cfg, numerics, st, df);
    FitRecordsScalingParams(cfg, numerics, st, df);
  }

  /**
   * A feature listed as both categorical and numeric ends up with numeric
   * metadata, which has no categorical mapping, so export then raises.
   */
  lemma ExportFailsForFeatureInBothLists(cfg: DataPipelineConfig, numerics: Numerics, st: PipelineState, df: Frame, f: string)
    requires WellFormed(df)
    requires FitSpec(cfg, numerics, st, df).1.Pass?
    requires f in cfg.categoricalFeatures && f in cfg.numericFeatures
    ensures Export(cfg, FitSpec(cfg, numerics, st, df).0.metadata).Failure?
  {
    var clean := HandleMissingValues(cfg, numerics, df).value;
    var cat := FitCategoricals(numerics.render, st, clean, cfg.categoricalFeatures);
    var block := Select(cat.frame, cfg.numericFeatures).value;
    var input := if cfg.handleOutliers then numerics.replaceOutliers(block, cfg.outlierThreshold) else block;
    var kind := ScalerKindFor(cfg.scalingMethod);
    var fitted := numerics.fitScaler(kind, input).value;
    RecordScalingParamsFacts(cat.state.metadata, cfg.numericFeatures, 0, kind, fitted);
  }

  // ---------------------------------------------------------------- the pipeline object

  class DataPipeline {
    const config: DataPipelineConfig
    const numerics: Numerics
    var featureMetadata: map<string, FeatureMetadata>
    var categoricalEncoders: map<string, seq<string>>
    var numericScaler: Option<Scaler>

    function State(): PipelineState
      reads this
    {
      PipelineState(featureMetadata, categoricalEncoders, numericScaler)
    }

    ghost predicate Valid()
      reads this
    {
      EncodersDistinct(categoricalEncoders)
    }

    constructor(config: DataPipelineConfig, numerics: Numerics)
      ensures this.config == config && this.numerics == numerics
      ensures State() == PipelineState(map[], map[], None)
      ensures Valid()
    {
      this.config := config;
      this.numerics := numerics;
      featureMetadata := map[];
      categoricalEncoders := map[];
      numericScaler := None;
    }

    method Fit(df: Frame) returns (r: Outcome<PipelineError>)
      requires WellFormed(df)
      requires Valid()
      modifies this
      ensures Valid()
      ensures (State(), r) == FitSpec(config, numerics, old(State()), df)
      ensures r.Pass? && (forall f :: f in config.categoricalFeatures ==> f !in config.numericFeatures) ==>
        ExportMetadata().Success?
    {
      FitKeepsEncodersDistinct(config, numerics, State(), df);
      ghost var st0 := State();
      var missing := MissingColumnsOf(config.features, df);
      if missing != {} {
        return Fail(MissingColumns(missing));
      }
      var clean := HandleMissingValues(config, numerics, df);
      if clean.Failure? {
        return Fail(clean.error);
      }
      var d;
      d, r := FitCategoricalLoop(clean.value);
      if r.Fail? {
        return;
      }
      var selected := Select(d, config.numericFeatures);
      if selected.Failure? {
        return Fail(ColumnsNotFound(selected.error));
      }
      var block := selected.value;
      if config.handleOutliers {
        block := numerics.replaceOutliers(block, config.outlierThreshold);
      }
      var kind := ScalerKindFor(config.scalingMethod);
      numericScaler := Some(Scaler(kind, None));
      var fitted := numerics.fitScaler(kind, block);
      if fitted.Failure? {
        return Fail(ScalerFailed(fitted.error));
      }
      numericScaler := Some(Scaler(kind, Some(fitted.value)));
      r := ScalingParamsLoop(kind, fitted.value);
      if r.Pass? && (forall f :: f in config.categoricalFeatures ==> f !in config.numericFeatures) {
        ExportAfterFit(config, numerics, st0, df);
      }
    }

    /** The categorical loop of fit over the cleaned frame d0. */
    method FitCategoricalLoop(d0: Frame) returns (d: Frame, r: Outcome<PipelineError>)
      modifies this
      ensures var step := FitCategoricals(numerics.render, old(State()), d0, config.categoricalFeatures);
        State() == step.state && d == step.frame && r == step.outcome
    {
      d := d0;
      var cats := config.categoricalFeatures;
      var i := 0;
      while i < |cats|
        invariant 0 <= i <= |cats|
        invariant FitCategoricals(numerics.render, old(State()), d0, cats)
               == FitCategoricals(numerics.render, State(), d, cats[i..])
      {
        var f := cats[i];
        assert cats[i..][0] == f && cats[i..][1..] == cats[i + 1..];
        if f !in d.columns {
          return d, Fail(ColumnsNotFound({f}));
        }
        var texts := AsText(numerics.render, d.columns[f]);
        d := d.(columns := d.columns[f := TextCells(texts)]);
        var classes := StringClasses(texts);
        categoricalEncoders := categoricalEncoders[f := classes];
        featureMetadata := featureMetadata[f := CategoricalMetadata(f, classes)];
        i := i + 1;
      }
      assert cats[i..] == [];
      r := Pass;
    }

    /** The numeric loop of fit: the k-th numeric feature takes the k-th fitted parameters. */
    method ScalingParamsLoop(kind: ScalerKind, fitted: FittedScaler) returns (r: Outcome<PipelineError>)
      modifies this
      ensures var step := RecordScalingParams(old(featureMetadata), config.numericFeatures, 0, kind, fitted);
        featureMetadata == step.0 && r == step.1
      ensures categoricalEncoders == old(categoricalEncoders) && numericScaler == old(numericScaler)
    {
      var nums := config.numericFeatures;
      var k := 0;
      while k < |nums|
        invariant 0 <= k <= |nums|
        invariant categoricalEncoders == old(categoricalEncoders) && numericScaler == old(numericScaler)
        invariant RecordScalingParams(old(featureMetadata), nums, 0, kind, fitted)
               == RecordScalingParams(featureMetadata, nums[k..], k, kind, fitted)
      {
        var f := nums[k];
        assert nums[k..][0] == f && nums[k..][1..] == nums[k + 1..];
        if !(k < |fitted.offset| && k < |fitted.scale|) {
          return Fail(ScalingParamOutOfRange(f));
        }
        featureMetadata := featureMetadata[f := NumericMetadata(f, kind, fitted, k)];
        k := k + 1;
      }
      assert nums[k..] == [];
      r := Pass;
    }

    method Transform(df: Frame) returns (r: Result<Transformed, PipelineError>)
      requires WellFormed(df)
      ensures r == TransformSpec(config, numerics, categoricalEncoders, numericScaler, df)
    {
      var clean := HandleMissingValues(config, numerics, df);
      if clean.Failure? {
        return Failure(clean.error);
      }
      var encoded := EncodeLoop(clean.value);
      if encoded.Failure? {
        return Failure(encoded.error);
      }
      var scaled := ScaleNumeric(config, numerics, numericScaler, encoded.value);
      if scaled.Failure? {
        return Failure(scaled.error);
      }
      var data := AssembleLoop(scaled.value, encoded.value);
      if data.Failure? {
        return Failure(data.error);
      }
      var stacked := ColumnStack(data.value);
      if stacked.Failure? {
        return Failure(stacked.error);
      }
      return Success(Transformed(stacked.value, config.features));
    }

    /** The categorical loop of transform over the cleaned frame d0. */
    method EncodeLoop(d0: Frame) returns (r: Result<Frame, PipelineError>)
      ensures r == EncodeCategoricals(numerics.render, categoricalEncoders, d0, config.categoricalFeatures)
    {
      var d := d0;
      var cats := config.categoricalFeatures;
      var i := 0;
      while i < |cats|
        invariant 0 <= i <= |cats|
        invariant EncodeCategoricals(numerics.render, categoricalEncoders, d0, cats)
               == EncodeCategoricals(numerics.render, categoricalEncoders, d, cats[i..])
      {
        var f := cats[i];
        assert cats[i..][0] == f && cats[i..][1..] == cats[i + 1..];
        if f !in categoricalEncoders {
          return Failure(EncoderNotFitted(f));
        }
        if f !in d.columns {
          return Failure(ColumnsNotFound({f}));
        }
        var codes := EncodeColumn(categoricalEncoders[f], AsText(numerics.render, d.columns[f]));
        if codes.None? {
          return Failure(NoClasses(f));
        }
        d := d.(columns := d.columns[f := Codes(codes.value)]);
        i := i + 1;
      }
      assert cats[i..] == [];
      return Success(d);
    }

    /** The assembly loop of transform: one column per configured feature, in order. */
    method AssembleLoop(scaled: seq<seq<real>>, d: Frame) returns (r: Result<seq<seq<Cell>>, PipelineError>)
      ensures r == Assemble(config.numericFeatures, scaled, d, config.features)
    {
      var nums := config.numericFeatures;
      var features := config.features;
      var data: seq<seq<Cell>> := [];
      var k := 0;
      assert features[k..] == features;
      assert Prepend(data, Assemble(nums, scaled, d, features)) == Assemble(nums, scaled, d, features) by {
        if Assemble(nums, scaled, d, features).Success? {
          assert data + Assemble(nums, scaled, d, features).value == Assemble(nums, scaled, d, features).value;
        }
      }
      while k < |features|
        invariant 0 <= k <= |features|
        invariant Assemble(nums, scaled, d, features) == Prepend(data, Assemble(nums, scaled, d, features[k..]))
      {
        var f := features[k];
        assert features[k..][0] == f && features[k..][1..] == features[k + 1..];
        var column := AssembleColumn(nums, scaled, d, f);
        if column.Failure? {
          return Failure(column.error);
        }
        ghost var tail := Assemble(nums, scaled, d, features[k + 1..]);
        if tail.Success? {
          assert data + [column.value] + tail.value == data + ([column.value] + tail.value);
        }
        data := data + [column.value];
        k := k + 1;
      }
      assert features[k..] == [];
      assert data + [] == data;
      return Success(data);
    }

    /** export_metadata: the preprocessing document of the fitted object, or the lookup that fails. */
    function ExportMetadata(): (r: Result<Metadata, PipelineError>)
      reads this
      ensures r.Success? <==>
        && (forall f :: f in config.categoricalFeatures ==> f in featureMetadata && featureMetadata[f].categoricalMapping.Some?)
        && (forall f :: f in config.numericFeatures ==> f in featureMetadata && featureMetadata[f].scalingParams.Some?)
      ensures r.Success? ==> r.value.features == config.features && r.value.scalingMethod == config.scalingMethod
      ensures r.Success? ==> forall f :: f in config.categoricalFeatures ==>
        f in r.value.categoricalFeatures && r.value.categoricalFeatures[f] == featureMetadata[f].categoricalMapping.value
    {
      Export(config, featureMetadata)
    }
  }
}
