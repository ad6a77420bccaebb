# ElectronML backend core in Dafny

This project models the deterministic core of the ElectronML training backend and proves properties about it:

- **The feature pipeline (`DataPipeline`).**
  - `fit` checks the configured columns.
  - It fits one label encoder per categorical feature, on the column turned into strings, and records each category's code.
  - It picks a StandardScaler or a MinMaxScaler and records each numeric feature's scaling parameters.
  - `transform` encodes categoricals. A value that is not a fitted class falls back to the first class.
  - It then scales the numeric block and lays the columns out in the configured feature order.
  - `export_metadata` builds the preprocessing document.
- **The generated TypeScript inference wrapper (`Templates`).**
  - `preprocess` is a strict validator and encoder over a record of named features.
  - `predict` maps the raw prediction through an optional class mapping.
- **The trainer's bookkeeping (`ModelTrainer`).**
  - Target encoding and the class mapping it reports.
  - Re-encoding of the test labels.
  - The class count.
  - The estimator's keyword arguments. The user's objective is dropped and the task type chooses the objective.
- **The request and configuration records (`Schemas`).** Field bounds, the task-type pattern and defaults.

Modules:

| module | file | content |
|---|---|---|
| `Wrappers` | `wrappers.dfy` | `Option`, `Result` and `Outcome` |
| `Ordering` | `ordering.dfy` | Strict total orders. Sorting without duplicates. Code-point order on strings. |
| `LabelEncoding` | `label_encoding.dfy` | The label encoder. Its classes are the distinct fitted values in increasing order, and a value's code is its index among them. |
| `Frames` | `frames.dfy` | Data frames as values: a row count and named columns of cells. Also `dropna`, column selection and `astype(str)`. |
| `Schemas` | `schemas.dfy` | `XGBParameters`, `XGBConfig`, `FeatureMetadata` and `DataPipelineConfig`, with their validation. |
| `DataPipeline` | `data_pipeline.dfy` | The pipeline class, the specification functions of `fit`/`transform`/`export_metadata`, and lemmas about them. |
| `Templates` | `templates.dfy` | `preprocess` and `predict` of the inference wrapper, as pure functions. |
| `ModelTrainer` | `model_trainer.dfy` | The trainer class, target encoding, estimator selection, and lemmas about them. |

Parts of the source that mutate state become classes:

- `DataPipeline.DataPipeline` has the encoders, the metadata map and the scaler as fields.
- `ModelTrainer.ModelTrainer` has the model and the target encoder as fields.

Each state-changing method carries a postcondition. That postcondition says the new state and the result are those of a specification function applied to the old state:

- `FitSpec`
- `TrainSpec`
- `TargetEncoding`
- `InitModelSpec`

Loops carry a continuation invariant against a fold function: the result from the start equals the fold over the rest from the current state. The lemmas are then proved about the specification functions.

The pipeline is built with a `Numerics` value, which stands for work done by pandas, numpy or scikit-learn. It supplies:

- imputation;
- z-score outlier replacement;
- fitting and applying a scaler;
- Python's `str()` of a number.

A frame is a value. An operation therefore cannot change its caller's frame, which is what `df.copy()` ensures in the source.

## Model

| member | source | states |
|---|---|---|
| Ordering.SortedUniqueCorrect | backend/services/data_pipeline.py:35 | Under a strict total order, fitting yields classes that are strictly increasing and are exactly the fitted values. |
| Ordering.StringLessIsStrictTotalOrder | backend/services/data_pipeline.py:35 | The code-point order on strings, used for string classes, is irreflexive, transitive and total. |
| LabelEncoding.StringClasses | backend/services/data_pipeline.py:33-35 | The string classes of a fitted encoder are increasing and duplicate-free. They are exactly the values of the column. |
| LabelEncoding.RealClasses | backend/services/model_trainer.py:47-48 | The numeric classes of a fitted target encoder are increasing and duplicate-free. They are exactly the labels. |
| LabelEncoding.Encode | backend/services/data_pipeline.py:95 | `transform` succeeds iff every value is a class. Each value is replaced by the index of its class. A failure reports exactly the unseen values. |
| LabelEncoding.IndexOf | backend/services/data_pipeline.py:41 | A value's code is the position of its first occurrence among the classes. |
| LabelEncoding.DistinctCardinality | backend/services/data_pipeline.py:41 | A duplicate-free sequence has as many distinct elements as it has entries. |
| LabelEncoding.CodeMapSendsClassToIndex | backend/services/data_pipeline.py:41 | The class-to-code dictionary has one entry per class and sends the i-th class to i. |
| Frames.CompleteRows | backend/services/data_pipeline.py:124 | The increasing indices of exactly those rows that have no missing cell. |
| Frames.DropNa | backend/services/data_pipeline.py:123-124 | `dropna` keeps all columns and exactly the complete rows, in their order. No missing cell is left. |
| Frames.Select | backend/services/data_pipeline.py:45 | `df[names]` returns the named columns in order. The KeyError names exactly the absent columns. |
| Frames.AsTextOfTextCells | backend/services/data_pipeline.py:92 | Converting a column that already holds strings with `astype(str)` changes nothing. |
| Schemas.ParameterErrors | backend/models/schemas.py:6-8 | A field is reported iff it is out of its bounds: max_depth in [1,10], 0 < learning_rate <= 1, n_estimators in [1,1000]. No field is reported iff all are in bounds. |
| Schemas.ValidateParameters | backend/models/schemas.py:5-9 | The record is built iff every given field is within its bounds. An absent field takes its default (3, 0.1, 100, None), and a built record is in bounds. An out-of-bounds field is rejected and named. |
| Schemas.DefaultParametersInBounds | backend/models/schemas.py:5-14 | The default parameters, which `XGBConfig` uses, satisfy every bound, and their objective is None. |
| Schemas.TrailingNewlinePassesPattern | backend/models/schemas.py:13 | "regression\n" matches the task-type pattern as Python applies it, yet it is not one of the three task types. |
| Schemas.IsTaskTypeIsExact | backend/models/schemas.py:13 | The intended task types are exactly the three names. Each of them matches the pattern. |
| Schemas.ValidateConfigAsWritten | backend/models/schemas.py:11-14 | With the pattern as written, a configuration is valid iff the task type matches it and given parameters are in bounds. |
| Schemas.ValidateConfig | backend/models/schemas.py:11-14 | With the exact task-type check, a configuration is valid iff the task type is one of the three and the parameters are in bounds. Absent parameters default. A bad task type is reported first. |
| Schemas.RecordDefaults | backend/models/schemas.py:16-31 | FeatureMetadata's mapping and parameters default to None. DataPipelineConfig defaults to 'standard', 'mean', outliers on, and threshold 3.0. |
| DataPipeline.FirstAbsent | backend/services/data_pipeline.py:126-137 | Nothing is found iff every feature is a column. Otherwise the result is the first feature, in order, that is not a column. |
| DataPipeline.HandleMissingValues | backend/services/data_pipeline.py:120-140 | 'drop' gives exactly `dropna`. Any other strategy succeeds iff every numeric and categorical feature is a column. Its KeyError names the first absent numeric feature, or if there is none, the first absent categorical one. |
| DataPipeline.CategoricalMetadataMapping | backend/services/data_pipeline.py:38-42 | A categorical feature's metadata maps each class to its own code. It has exactly one entry per distinct string of the column, and every string maps to a code that indexes back to it. |
| DataPipeline.NumericMetadataKeys | backend/services/data_pipeline.py:59-75 | A numeric feature's parameters have the keys {mean, scale} for StandardScaler and {min, scale} otherwise, with the entries at its index. |
| DataPipeline.FitCategoricalsFacts | backend/services/data_pipeline.py:32-42 | The categorical loop fails only on a missing column. It fits every listed feature on its column as strings, records its metadata, and leaves every other feature alone. |
| DataPipeline.FitCategoricalsPartial | backend/services/data_pipeline.py:32-42 | Even when the loop stops part-way, every encoder is either old or freshly fitted. |
| DataPipeline.RecordScalingParamsOutcome | backend/services/data_pipeline.py:67-75 | The numeric loop fails exactly when the parameter arrays are shorter than the numeric features. |
| DataPipeline.RecordScalingParamsUntouched | backend/services/data_pipeline.py:67-75 | The numeric loop leaves the metadata of a feature outside the list unchanged. |
| DataPipeline.RecordScalingParamsAt | backend/services/data_pipeline.py:67-75 | The k-th numeric feature, when not repeated later, records the k-th parameter entries. |
| DataPipeline.RecordScalingParamsKeys | backend/services/data_pipeline.py:67-75 | Every numeric feature ends with numeric metadata that carries the scaler's two parameter keys. |
| DataPipeline.RecordScalingParamsFacts | backend/services/data_pipeline.py:67-75 | The four facts above together. |
| DataPipeline.FitRejectsMissingColumns | backend/services/data_pipeline.py:24-26 | `fit` raises its missing-columns error iff some configured feature is not a column. It then changes no encoder, metadata or scaler. |
| DataPipeline.FitRecordsEncoders | backend/services/data_pipeline.py:32-42 | After a successful fit, each categorical feature has the encoder fitted on its cleaned column as strings. Unless the feature is also numeric, its metadata holds that encoder's code map. |
| DataPipeline.FitKeepsEncodersDistinct | backend/services/data_pipeline.py:32-42 | After `fit`, whether it returns or raises, every encoder's classes are free of duplicates. |
| DataPipeline.FitRecordsScalingParams | backend/services/data_pipeline.py:51-75 | The scaler is StandardScaler iff the method is 'standard', and it is fitted. The arrays cover every numeric feature. The k-th feature records the k-th entries under {mean, scale} or {min, scale}. |
| DataPipeline.EncodeColumn | backend/services/data_pipeline.py:92-95 | Encoding a column fails only when there are no classes and the column is non-empty. A known value gets its class index. An unseen value gets code 0, the first class. Every code is below the class count. |
| DataPipeline.EncodeCategoricalsColumn | backend/services/data_pipeline.py:90-95 | A categorical feature listed once ends with exactly the codes `EncodeColumn` gives its column as strings. |
| DataPipeline.CodesOfEncodeColumn | backend/services/data_pipeline.py:95 | An encoded column holds only integral codes in [0, number of classes). |
| DataPipeline.EncodeCategoricalsFacts | backend/services/data_pipeline.py:90-95 | The categorical loop of `transform` keeps the frame's columns and rows. Every categorical column becomes codes of its encoder. Other columns are unchanged. The only category error is an encoder with no classes. |
| DataPipeline.ScaleNumeric | backend/services/data_pipeline.py:98-101 | Selecting the numeric block fails with a KeyError naming every absent numeric feature. This happens before the scaler is consulted. With all columns present, an absent or unfitted scaler is an error. A result is the fitted scaler applied to the block, after outlier replacement when configured. |
| DataPipeline.AssembleColumn | backend/services/data_pipeline.py:106-111 | A numeric feature takes the scaled column at its first index among the numeric features, and fails iff there is no such column. Any other feature takes its frame column, and fails iff it is absent. |
| DataPipeline.Assemble | backend/services/data_pipeline.py:104-112 | One column per feature, in feature order. The assembly fails iff some feature's column cannot be taken. |
| DataPipeline.TransformFollowsFeatureOrder | backend/services/data_pipeline.py:104-114 | The output has one column per configured feature, all of one length, and the names equal the features in order. A numeric feature takes the scaled column at its index among the numeric features. Any other feature takes its encoded column. |
| DataPipeline.ColumnStack | backend/services/data_pipeline.py:114 | Stacking succeeds iff there is at least one column and all columns have one length. It keeps the columns. |
| DataPipeline.TransformCategoricalColumn | backend/services/data_pipeline.py:87-111 | In the output, a non-numeric categorical feature listed once holds exactly the codes of its cleaned column as strings. A known value gets its class index and an unseen one gets 0. |
| DataPipeline.TransformEncodesCategoricals | backend/services/data_pipeline.py:90-111 | In the output, a categorical feature that is not numeric holds only codes in the fitted range. |
| DataPipeline.UnseenCategoriesNeverFail | backend/services/data_pipeline.py:94 | When every encoder has a class, `transform` never fails because of a category value. |
| DataPipeline.FirstCategoricalProblem | backend/services/data_pipeline.py:155-161 | There is no problem iff every categorical feature has metadata with a mapping. |
| DataPipeline.FirstNumericProblem | backend/services/data_pipeline.py:162-168 | There is no problem iff every numeric feature has metadata with scaling parameters. |
| DataPipeline.Export | backend/services/data_pipeline.py:151-170 | The export succeeds iff those lookups succeed. The features and the scaling method are copied verbatim. The two sections are keyed exactly by the categorical and the numeric features and hold their mappings and parameters. |
| DataPipeline.ExportAfterFit | backend/services/data_pipeline.py:153-170 | After a successful fit over disjoint feature lists, the export succeeds. Each categorical section is its encoder's code map, and each numeric section has the scaler's keys. |
| DataPipeline.ExportFailsForFeatureInBothLists | backend/services/data_pipeline.py:155-161 | After a fit, a feature that is both categorical and numeric has no mapping, so the export raises. |
| DataPipeline.DataPipeline.constructor | backend/services/data_pipeline.py:14-18 | Empty metadata, no encoders, no scaler. |
| DataPipeline.DataPipeline.Fit | backend/services/data_pipeline.py:20-79 | The new state and the outcome are `FitSpec` of the old state. The encoders stay duplicate-free. After a successful fit over disjoint feature lists, the export succeeds. |
| DataPipeline.DataPipeline.FitCategoricalLoop | backend/services/data_pipeline.py:32-42 | The loop's state, frame and outcome are those of `FitCategoricals`. |
| DataPipeline.DataPipeline.ScalingParamsLoop | backend/services/data_pipeline.py:67-75 | The loop's metadata and outcome are those of `RecordScalingParams`. Encoders and scaler are unchanged. |
| DataPipeline.DataPipeline.Transform | backend/services/data_pipeline.py:81-118 | The result is `TransformSpec` of the current encoders and scaler. |
| DataPipeline.DataPipeline.EncodeLoop | backend/services/data_pipeline.py:90-95 | The loop's result is `EncodeCategoricals`. |
| DataPipeline.DataPipeline.AssembleLoop | backend/services/data_pipeline.py:104-112 | The loop's result is `Assemble` over the configured features. |
| DataPipeline.DataPipeline.ExportMetadata | backend/services/data_pipeline.py:151-170 | The object's export succeeds iff every categorical feature's metadata has a mapping and every numeric one's has parameters. It copies the features and scaling method, and each categorical section is that feature's mapping. |
| Templates.EncodeAll | backend/templates.py:35-58 | Preprocessing succeeds iff every listed feature is acceptable. The output has one entry per feature name. Entry i is `mapping[value]` for a categorical feature and the number itself, unscaled, otherwise. |
| Templates.EncodeAllRejectsFirstBadFeature | backend/templates.py:35-57 | A rejection concerns the first unacceptable feature in `featureNames` order. The error is one of missing feature, non-string categorical, unknown category (no fallback) or non-number, matching the cause. |
| Templates.PreprocessRejectsFirstBadFeature | backend/templates.py:33-61 | The same, for `preprocess` over the configured feature names. |
| Templates.EncodeAllIgnoresExtraKeys | backend/templates.py:35-39 | The result depends only on the input's entries for the listed features. |
| Templates.PreprocessIgnoresExtraKeys | backend/templates.py:35 | Adding entries that are not feature names to the input changes nothing. |
| Templates.ClassLabel | backend/templates.py:69 | A prediction yields a label iff it equals some key of the class mapping, and then it is that key's label. A prediction equal to no key yields `undefined`. |
| Templates.Predict | backend/templates.py:63-78 | `predict` succeeds iff preprocessing does and fails with its error. `probability` is `predict_proba` of the same vector. Without a mapping the prediction is the raw value, and with one it never is. |
| Templates.PredictMapsClassIndex | backend/templates.py:67-71 | With a class mapping, a prediction equal to a key yields that key's label, and any other prediction yields `undefined`. |
| ModelTrainer.FitEncoder | backend/services/model_trainer.py:47-48 | A fitted target encoder has one class per distinct label. Its classes are labels, and every label is a class. |
| ModelTrainer.EncodeLabels | backend/services/model_trainer.py:92 | `transform` succeeds iff every label is a class of the same kind. Code i indexes the class equal to label i. |
| ModelTrainer.FitTransform | backend/services/model_trainer.py:48 | `fit_transform` equals `transform` after `fit` on the same labels, and it always succeeds. |
| ModelTrainer.CodeImage | backend/services/model_trainer.py:48 | The codes of labels under distinct classes that all occur take exactly the values 0 .. n-1. |
| ModelTrainer.ClassNamesKeys | backend/services/model_trainer.py:49 | The class mapping has exactly the keys 0 .. n-1. |
| ModelTrainer.EncodedDistinctCount | backend/services/model_trainer.py:95 | Encoding keeps the number of distinct labels. |
| ModelTrainer.EncodedLabelsMapBack | backend/services/model_trainer.py:46-49 | Each encoded label is an integral key of the mapping, and the mapping sends it back to the label's `str()`. |
| ModelTrainer.RegressionTargetUnchanged | backend/services/model_trainer.py:43-53 | For regression the labels are unchanged, there is no mapping, and the encoder is untouched. |
| ModelTrainer.BinaryNumericTargetUnchanged | backend/services/model_trainer.py:50-51 | A non-multiclass classification task over numeric labels keeps them. It uses exactly {0: 'class_0', 1: 'class_1'} and does not touch the encoder. |
| ModelTrainer.EncodedTargetMapping | backend/services/model_trainer.py:46-49 | For multiclass, or object labels, a fresh encoder is set. The mapping has keys 0 .. n-1 for the n distinct labels. Each label becomes the key whose value is its `str()`. The processed labels still have n distinct values. |
| ModelTrainer.ParametersDict | backend/services/model_trainer.py:23 | `.dict()` always has the four fields, objective included. |
| ModelTrainer.ObjectiveByTaskType | backend/services/model_trainer.py:27-39 | Regression gives a regressor with no forced objective. Multiclass gets multi:softmax with num_class set to the class count. Every other task type gets binary:logistic and no num_class. |
| ModelTrainer.UserObjectiveDropped | backend/services/model_trainer.py:23-25 | The estimator does not depend on the user's objective. The other three parameters pass through unchanged. |
| ModelTrainer.TestLabelsReencodedOnlyWithEncoder | backend/services/model_trainer.py:91-92 | Test labels are unchanged without a target encoder. With one, possibly left from an earlier call, each becomes the index of its class. |
| ModelTrainer.ClassCountAgrees | backend/services/model_trainer.py:79-95 | Regression has no class count and gets a regressor. For encoded, non-empty labels, the class count, the mapping's size and the n_classes metric all equal the number of distinct labels. No encoded labels give an empty mapping, which counts as 2. A binary task over numeric labels reports the fixed two-class mapping and an n_classes metric of 2, whatever the number of distinct labels. |
| ModelTrainer.TrailingNewlineTrainsAsBinary | backend/services/model_trainer.py:27-39 | "regression\n" is a valid configuration as written, and the trainer builds a binary classifier for it. |
| ModelTrainer.ValidatedTaskTypeSelectsItsEstimator | backend/services/model_trainer.py:27-39 | Under the exact task-type check, the estimator and objective are the ones the validated task type names. |
| ModelTrainer.ModelTrainer.constructor | backend/services/model_trainer.py:16-19 | No model and no target encoder. |
| ModelTrainer.ModelTrainer.InitModel | backend/services/model_trainer.py:21-39 | The model becomes `InitModelSpec` of the configuration and class count. The encoder is unchanged. |
| ModelTrainer.ModelTrainer.PreprocessTarget | backend/services/model_trainer.py:41-53 | The processed labels, the mapping and the new encoder are `TargetEncoding` of the old encoder. The model is unchanged. |
| ModelTrainer.ModelTrainer.Train | backend/services/model_trainer.py:84-96 | The new model and encoder and the training setup are `TrainSpec` of the old state. |

## Left out

- The fill values for 'mean', 'median' and 'mode' (backend/services/data_pipeline.py:128-139) come from `Numerics.impute`, because they are floating-point statistics computed by pandas. The column lookups before them are modelled. `mode()[0]` of a column with no values would raise. Imputation is modelled as total, so the model does not raise there.
- Z-score outlier replacement (backend/services/data_pipeline.py:142-149) is `Numerics.replaceOutliers`, because it is floating-point work.
- The StandardScaler and MinMaxScaler arithmetic is `Numerics.fitScaler` and `Numerics.applyScaler`. Nothing is assumed about the fitted arrays' values or lengths, so the model keeps the source's index errors.
- Python's `str()` of a number, used for categorical columns and class names, is the `render` function. A missing cell is rendered as "nan", whereas a `None` in an object column would become "None".
- A numeric cell holds a real and has no dtype. The text `astype(str)` gives a number depends on its column's dtype: int64 1 gives "1", float64 1.0 gives "1.0" and a bool gives "True". One `render` per pipeline cannot give an int column and a float column their own texts. So the encoder classes and mapping keys of such columns (backend/services/data_pipeline.py:34, 41, 158) are only as faithful as `render`.
- Label encoder class order follows numpy's `unique`: strings by code point, numbers by value. This is library behaviour that the source files do not show.
- Library work in the trainer is not modelled:
  - the xgboost fit, predict and score calls;
  - `confusion_matrix` and RMSE (backend/services/model_trainer.py:55-82, 97-111);
  - feature-importance normalisation (backend/services/model_trainer.py:113-117).

  These are foreign numeric code. `Train` stops once the estimator has been built, just before `fit`.
- `_save_model` (backend/services/model_trainer.py:140-147) is temporary-file I/O, and the result dictionary of `train` is only packaging. Logging and the re-raising `except` blocks are also left out.
- The JSON text produced by `json.dumps` (backend/services/data_pipeline.py:171) is left out. The export is a structured `Metadata` value.
- `transform` returns the output as a list of columns rather than a 2-D array. numpy's dtype promotion in `column_stack` is not modelled.
- Mixing numeric and object labels is not modelled. A target encoder applied to test labels of the other kind fails with `LabelTypeMismatch`, unless there are no test labels.
- pydantic's type coercion of field values (for example "3" to 3) is left out. Fields have their declared types.
- backend/utils/encoders.py, backend/main.py and backend/schemas/schemas.py are not part of this model. They are a base64/JSON wrapper, a web route stub and bare declarations.
- Filling the template's placeholders is not modelled; `PreprocessingConfig` is a parameter. The predictor's constructor only stores the model, which is a parameter of `Predict`.
- The JavaScript `in` operator is modelled as plain key membership, ignoring the prototype chain.
- The TypeScript tree runtime that would evaluate the model is not modelled: no source for it is shown.
- Templates.ClassLabel: `classMapping[prediction]` is looked up by the prediction's text. The model treats that as a lookup of a prediction equal to an integer key.
- The text of the Error that `preprocess` throws is not modelled. A rejection is a `PreprocessError` value naming its kind, its feature and, for an unknown category, its value.
- `JsNumber` holds a real. NaN and the infinities, which `typeof value === "number"` accepts (backend/templates.py:54), are outside the model.
- DataPipeline.Export: on failure the contract does not say which feature the error names. `FirstCategoricalProblem` and `FirstNumericProblem` define it as the first failing feature of the categorical list, then of the numeric list.

## Findings

| source | as written | input that shows it | evidently intended | confidence | as-written member | corrected member |
|---|---|---|---|---|---|---|
| backend/models/schemas.py:13 | The pattern ends in `$`. Under Python's `re.match`, `$` also matches just before a final newline, so a task type with a trailing newline passes validation. The trainer compares task types exactly, so such a value falls through to the binary branch. | task_type = "regression\n" validates, and the trainer then builds a binary:logistic classifier | accept exactly the three task-type names | not executed | Schemas.ValidateConfigAsWritten (shown by Schemas.TrailingNewlinePassesPattern and ModelTrainer.TrailingNewlineTrainsAsBinary) | Schemas.ValidateConfig (with ModelTrainer.ValidatedTaskTypeSelectsItsEstimator) |
