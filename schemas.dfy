/**
 * The request and configuration records of the training backend: field
 * bounds are checked by a validation function that reports every failing
 * field, as pydantic does, and defaults are constructor defaults.
 */
module Schemas {
  import opened Wrappers

  datatype XGBParameters = XGBParameters(
    maxDepth: int := 3,
    learningRate: real := 0.1,
    nEstimators: int := 100,
    objective: Option<string> := None)

  predicate ParametersInBounds(p: XGBParameters) {
    && 1 <= p.maxDepth <= 10
    && 0.0 < p.learningRate <= 1.0
    && 1 <= p.nEstimators <= 1000
  }

  /** The fields that fail their bounds, in declaration order. */
  function ParameterErrors(p: XGBParameters): (errs: seq<string>)
    ensures "max_depth" in errs <==> !(1 <= p.maxDepth <= 10)
    ensures "learning_rate" in errs <==> !(0.0 < p.learningRate <= 1.0)
    ensures "n_estimators" in errs <==> !(1 <= p.nEstimators <= 1000)
    ensures errs == [] <==> ParametersInBounds(p)
  {
    (if 1 <= p.maxDepth <= 10 then [] else ["max_depth"])
    + (if 0.0 < p.learningRate <= 1.0 then [] else ["learning_rate"])
    + (if 1 <= p.nEstimators <= 1000 then [] else ["n_estimators"])
  }

  /**
   * XGBParameters(**fields): an absent field takes its default, and the
   * record is built exactly when every field is within its bounds.
   */
  function ValidateParameters(maxDepth: Option<int>, learningRate: Option<real>, nEstimators: Option<int>,
                              objective: Option<string>): (r: Result<XGBParameters, seq<string>>)
    ensures r.Success? ==> ParametersInBounds(r.value)
    ensures r.Success? ==> r.value.maxDepth == (if maxDepth.Some? then maxDepth.value else 3)
    ensures r.Success? ==> r.value.learningRate == (if learningRate.Some? then learningRate.value else 0.1)
    ensures r.Success? ==> r.value.nEstimators == (if nEstimators.Some? then nEstimators.value else 100)
    ensures r.Success? ==> r.value.objective == objective
    ensures maxDepth.Some? && !(1 <= maxDepth.value <= 10) ==> r.Failure? && "max_depth" in r.error
    ensures learningRate.Some? && !(0.0 < learningRate.value <= 1.0) ==> r.Failure? && "learning_rate" in r.error
    ensures nEstimators.Some? && !(1 <= nEstimators.value <= 1000) ==> r.Failure? && "n_estimators" in r.error
    ensures
      && (maxDepth.Some? ==> 1 <= maxDepth.value <= 10)
      && (learningRate.Some? ==> 0.0 < learningRate.value <= 1.0)
      && (nEstimators.Some? ==> 1 <= nEstimators.value <= 1000)
      ==> r.Success?
  {
    var p := XGBParameters(
      if maxDepth.Some? then maxDepth.value else 3,
      if learningRate.Some? then learningRate.value else 0.1,
      if nEstimators.Some? then nEstimators.value else 100,
      objective);
    var errs := ParameterErrors(p);
    if errs == [] then Success(p) else Failure(errs)
  }

  /** The defaults XGBConfig falls back on satisfy every bound. */
  lemma DefaultParametersInBounds()
    ensures ParametersInBounds(XGBParameters())
    ensures XGBParameters().objective == None
    ensures ValidateParameters(None, None, None, None) == Success(XGBParameters())
  {
  }

  const TaskTypes: seq<string> := ["binary_classification", "multiclass_classification", "regression"]

  /**
   * The task-type pattern ^(binary_classification|multiclass_classification|regression)$
   * as Python's re.match applies it: `$` matches at the end of the string and
   * also just before a newline that ends it.
   */
  predicate TaskTypeMatchesAsWritten(s: string) {
    exists t :: t in TaskTypes && (s == t || s == t + "\n")
  }

  /** The intended rule: the task type is exactly one of the three names. */
  predicate IsTaskType(s: string) {
    s in TaskTypes
  }

  /** "regression\n" passes the pattern as written but is not a task type. */
  lemma TrailingNewlinePassesPattern()
    ensures TaskTypeMatchesAsWritten("regression\n")
    ensures !IsTaskType("regression\n")
  {
    assert "regression\n" == TaskTypes[2] + "\n";
  }

  lemma IsTaskTypeIsExact(s: string)
    ensures IsTaskType(s) <==> s == "binary_classification" || s == "multiclass_classification" || s == "regression"
    ensures IsTaskType(s) ==> TaskTypeMatchesAsWritten(s)
  {
  }

  datatype XGBConfig = XGBConfig(
    targetColumn: string,
    taskType: string,
    parameters: XGBParameters := XGBParameters())

  function ConfigErrors(taskTypeOk: bool, parameters: Option<XGBParameters>): seq<string> {
    (if taskTypeOk then [] else ["task_type"])
    + (if parameters.Some? then
         var errs := ParameterErrors(parameters.value);
         seq(|errs|, i requires 0 <= i < |errs| => "parameters." + errs[i])
       else [])
  }

  /** XGBConfig(...) with the task type checked by the pattern as written. */
  function ValidateConfigAsWritten(targetColumn: string, taskType: string,
                                   parameters: Option<XGBParameters>): (r: Result<XGBConfig, seq<string>>)
    ensures r.Success? <==> TaskTypeMatchesAsWritten(taskType) && (parameters.Some? ==> ParametersInBounds(parameters.value))
  {
    var errs := ConfigErrors(TaskTypeMatchesAsWritten(taskType), parameters);
    if errs == [] then
      Success(XGBConfig(targetColumn, taskType, if parameters.Some? then parameters.value else XGBParameters()))
    else
      Failure(errs)
  }

  /**
   * XGBConfig(...) with the intended exact task-type check. A validated
   * configuration has one of the three task types and bounded parameters.
   */
  function ValidateConfig(targetColumn: string, taskType: string,
                          parameters: Option<XGBParameters>): (r: Result<XGBConfig, seq<string>>)
    ensures r.Success? <==> IsTaskType(taskType) && (parameters.Some? ==> ParametersInBounds(parameters.value))
    ensures r.Success? ==> r.value.targetColumn == targetColumn && r.value.taskType == taskType
    ensures r.Success? ==> ParametersInBounds(r.value.parameters)
    ensures r.Success? && parameters.None? ==> r.value.parameters == XGBParameters()
    ensures !IsTaskType(taskType) ==> r.Failure? && |r.error| > 0 && r.error[0] == "task_type"
  {
    var errs := ConfigErrors(IsTaskType(taskType), parameters);
    if errs == [] then
      Success(XGBConfig(targetColumn, taskType, if parameters.Some? then parameters.value else XGBParameters()))
    else
      Failure(errs)
  }

  datatype FeatureMetadata = FeatureMetadata(
    name: string,
    dtype: string,
    categoricalMapping: Option<map<string, int>> := None,
    scalingParams: Option<map<string, real>> := None)

  datatype DataPipelineConfig = DataPipelineConfig(
    features: seq<string>,
    categoricalFeatures: seq<string>,
    numericFeatures: seq<string>,
    scalingMethod: string := "standard",
    handleMissing: string := "mean",
    handleOutliers: bool := true,
    outlierThreshold: real := 3.0)

  lemma RecordDefaults(name: string, dtype: string, features: seq<string>, cats: seq<string>, nums: seq<string>)
    ensures FeatureMetadata(name, dtype).categoricalMapping == None
    ensures FeatureMetadata(name, dtype).scalingParams == None
    ensures DataPipelineConfig(features, cats, nums).scalingMethod == "standard"
    ensures DataPipelineConfig(features, cats, nums).handleMissing == "mean"
    ensures DataPipelineConfig(features, cats, nums).handleOutliers
    ensures DataPipelineConfig(features, cats, nums).outlierThreshold == 3.0
  {
  }
}
