# GabeDA feature engine: a Dafny model

GabeDA computes business features from transaction tables. A model
configuration names the output features it wants. A feature is a Python
function, or a `udf` code string, whose argument names are the columns or
earlier features it reads.

- **Resolution.** The resolver walks the arguments depth first. It produces the input columns the data must supply and an execution sequence in which every feature follows the features it reads.
- **Analysis.** The analyzer records, for each feature in the sequence, its function, its arguments and whether it aggregates. A feature aggregates when its source mentions one of a fixed list of keywords.
- **Execution.** The engine then runs one pass over the sequence per group. A feature that reads a group column and aggregates nothing is a FILTER: a new column, one value per row. Every other feature is an ATTRIBUTE: one value for the group, which later features read as a scalar. Without a `group_by`, only filters are computed ("enrichment mode").
- **Context.** The context stores the resulting filters and attributes tables under `<model>_filters` and `<model>_attrs`. It resolves `<model>_input` through the input dataset each model recorded.

Around this engine the model covers:

- the in-memory feature registry;
- the configuration manager;
- the result objects;
- the column schema and the column-selection rule used when saving outputs;
- the dictionary, column-list and validation utilities;
- preprocessing: the column mapper, the numeric-string cleaner and the row-level validators;
- synthetic-feature selection and enrichment, and the luck score;
- the two test-data generators, which compute inference closures and column combinations;
- the markdown parser of the notebook-to-PDF converter.

Modelling conventions:

- A pandas DataFrame is a `Frames.Table`: an ordered list of column names, each mapped to a sequence of cell values of the table's row count.
- A Python dict is a `Dicts.Dict`: a map plus the insertion order of its keys.
- Python's `None` and its exceptions are `Option` and `Result` values.
- Feature bodies are opaque. `Calculator.Eval` is a function parameter standing for "call this feature function on these arguments", returning a value or raising.
- Code that updates objects in place is modelled with classes and methods:
  - the registry (`Store.FeatureStore`);
  - the configuration manager (`Config.ConfigManager`);
  - the context (`Context.GabedaContext`);
  - the operation results (`Results.OperationResult`).
- Loops in the source are `while`/`for` loops here, each proved against a function that states what the loop computes.

## Model

| member | source | states |
|---|---|---|
| Store.KeyInjective | src/features/store.py:143-144 | within one model scope, two names that map to the same registry key are the same name |
| Store.StoreAllFound | src/features/store.py:125-126 | after `store_features`, every name of the batch is found by `get_feature` under the same scope with its own definition |
| Store.StoreAllKeeps | src/features/store.py:125-126 | a batch store neither adds nor changes the key of a name outside the batch |
| Store.HasImpliesFound | src/features/store.py:159-166 | a name stored under its bare key is always found, whatever scope is in force, and through the fallback when the scoped key misses |
| Store.ScopedKeyWins | src/features/store.py:161-163 | when the scoped key is present its definition is returned and the bare-name fallback is not consulted |
| Store.FeatureStore.constructor | src/features/store.py:83-101 | a new registry has no features, no feature index and no current model |
| Store.FeatureStore.StoreFeature | src/features/store.py:134-146 | the definition is stored under `model or current_model` (bare name when that is empty), replacing any earlier one; it is then found by `get_feature`; nothing else changes |
| Store.FeatureStore.StoreFeatures | src/features/store.py:105-126 | every entry is stored in order under the current scope and afterwards found with its own definition |
| Store.FeatureStore.GetFeature | src/features/store.py:148-166 | a definition is returned iff the scoped key is present, or a model is in force and the bare name is present; no `common:` fallback |
| Store.FeatureStore.HasFeature | src/features/store.py:168-178 | a literal-key test: a name it reports is found by `get_feature` whatever model is asked for; a name it does not report is not found when no model is in force |
| Store.FeatureStore.Clear | src/features/store.py:711-714 | both the features and the feature index are emptied; the current model stays |
| Detector.ScanKeywords | src/features/detector.py:87-90 | the `any(...)` scan is true iff some keyword from the given position on, lower-cased, occurs in the lower-cased text |
| Detector.IsAggregationText | src/features/detector.py:84-90 | a text is flagged iff one of the 23 keywords, lower-cased, occurs in the lower-cased text; a text without any keyword is not flagged |
| Detector.IsAggregation | src/features/detector.py:72-90 | a function whose source cannot be read is not an aggregation; otherwise the verdict is the keyword search on its source, or on the code string itself |
| Detector.AggregationSurvivesContext | src/features/detector.py:87-90 | putting more text before and after a flagged text keeps it flagged |
| Detector.CaseDoesNotMatter | src/features/detector.py:84-88 | two texts that differ only in letter case get the same verdict |
| Detector.KeywordFlags | src/features/detector.py:30-90 | a text holding any one of the keywords, in any case, is flagged |
| Detector.SumIsAggregation | src/features/detector.py:33-90 | any code that calls `.SUM(`, in upper case, is flagged |
| Results.OperationResult.constructor | src/core/results.py:62-66 | a new result has the given success flag and no errors or warnings |
| Results.OperationResult.AddError | src/core/results.py:68-71 | the message is appended to the errors and the result is marked failed, so it has errors and is not a complete success; warnings are unchanged |
| Results.OperationResult.AddWarning | src/core/results.py:73-87 | the message is appended to the warnings; success and errors are unchanged, and the result is no longer a complete success |
| Results.OperationResult.HasErrors | src/core/results.py:77-79 | true exactly when at least one error was recorded |
| Results.OperationResult.HasWarnings | src/core/results.py:81-83 | true exactly when at least one warning was recorded |
| Results.OperationResult.IsCompleteSuccess | src/core/results.py:85-87 | a complete success has succeeded and has no warnings, and (errors always clearing success) no errors either |
| Results.ModelOutput.HasFilters | src/core/results.py:153-155 | a filters table is present and has at least one row |
| Results.ModelOutput.HasAttrs | src/core/results.py:157-159 | an attributes table is present and has at least one row |
| Results.ModelOutput.FilterCount | src/core/results.py:161-163 | the number of filter features the run tracked |
| Results.ModelOutput.AttrCount | src/core/results.py:165-167 | the number of attribute features the run tracked |
| Results.ModelOutput.TotalFeatures | src/core/results.py:161-171 | the total is the number of filter features plus the number of attribute features |
| Results.MakeGroupResult | src/core/results.py:229-239 | an explicit row count is kept; without one the row count is the number of rows of `data_in`, and it stays unknown when there is no `data_in` |
| Results.GroupResult.HasFilters | src/core/results.py:241-243 | true exactly when the group calculated some filter |
| Results.GroupResult.HasAttrs | src/core/results.py:245-247 | true exactly when the group calculated some attribute |
| Config.Effective | src/core/config.py:108-126 | the effective configuration is the user configuration when the model has no runtime entry (or an empty one), and the user configuration updated with the runtime entry otherwise |
| Config.EffectiveOverlay | src/core/config.py:120-126 | a key is in the effective configuration iff it is in the user or the runtime configuration; runtime values win on shared keys; other keys keep their user values |
| Config.EffectiveEmptyRuntime | src/core/config.py:122-124 | an empty runtime entry leaves the user configuration as it is |
| Config.ConfigManager.constructor | src/core/config.py:31-39 | the user configuration is the one given and there is no runtime configuration |
| Config.ConfigManager.RuntimeOf | src/core/config.py:94-104 | a model's runtime entry is returned iff it has one |
| Config.ConfigManager.GetUserConfig | src/core/config.py:45-56 | the user value of the key, or the default when the key is absent |
| Config.ConfigManager.GetAllUserConfig | src/core/config.py:58-65 | the whole user configuration |
| Config.ConfigManager.SetRuntimeConfig | src/core/config.py:69-77 | the model's runtime entry is replaced by the given configuration; no other model's entry changes |
| Config.ConfigManager.MergeRuntimeConfig | src/core/config.py:80-91 | an unknown model starts from an empty entry; the updates then override or extend that entry; other models keep theirs |
| Config.ConfigManager.GetRuntimeConfig | src/core/config.py:94-104 | the model's runtime entry when it has one, nothing otherwise |
| Config.ConfigManager.GetEffectiveConfig | src/core/config.py:108-126 | the result is the effective configuration of the model |
| Config.MergeUnknownIsUpdates | src/core/config.py:88-91 | merging into a model without an entry makes its entry exactly the updates |
| Constants.Pick | src/core/constants.py:250-262 | the selected columns are schema keys in declaration order, and every key whose flag has the asked value is among them |
| Constants.RequiredOptionalPartition | src/core/constants.py:250-257 | with 0/1 `optional` flags, every schema key is in exactly one of the required and the optional lists, once |
| Constants.InferableSubOptional | src/core/constants.py:255-262 | when every inferable column is optional, the inferable columns are optional columns in the same relative order |
| Constants.ColumnSchemaWellFormed | src/core/constants.py:138-247 | the declared schema's `optional` flags are 0 or 1, and every inferable column is optional |
| Constants.BlockRequired | src/core/constants.py:138-252 | with the schema laid out as required, plain optional, inferable blocks, the required columns are the first block |
| Constants.BlockOptional | src/core/constants.py:171-257 | with that layout, the optional columns are the last two blocks, in order |
| Constants.BlockInferable | src/core/constants.py:209-262 | with that layout, the inferable columns are the last block |
| Constants.RequiredColumnsAre | src/core/constants.py:138-262 | the required columns are `in_dt`, `in_trans_id`, `in_product_id`, `in_quantity`, `in_price_total`, and the inferable ones are the six cost, price, discount, commission and margin columns, in declaration order |
| Persistence.ColumnsToSave | src/core/persistence.py:35-100 | a dataset that is not the output of a known model with a truthy configuration keeps every column; the only failures are the `get` on a configuration that is not a dict and iterating `in_cols` that is not iterable |
| Persistence.KeptInCols | src/core/persistence.py:80-93 | the kept columns have no duplicates and keep their `in_cols` order, and a column is kept iff it is listed in `in_cols`, is a table column, and is neither a `row_id` nor a group-by column |
| Persistence.PlainDatasetsKeepAll | src/core/persistence.py:63-100 | a dataset whose name mentions neither `_filters` nor `_attrs` keeps every column |
| Persistence.UnknownModelKeepsAll | src/core/persistence.py:65-100 | the output of a model the context does not know keeps every column |
| Persistence.EnrichmentKeepsAll | src/core/persistence.py:71-97 | the output of a model without `group_by` keeps every column |
| Persistence.AnalyticalKeepsInCols | src/core/persistence.py:76-93 | the output of a model with a `group_by` and a non-empty `in_cols` list keeps exactly its listed table columns that are neither `row_id` nor group-by columns, each once |
| Persistence.EmptyInColsKeepsAll | src/core/persistence.py:78-100 | a model with missing or empty `in_cols` keeps every column |
| DictUtils.SafeGet | src/utils/dict_utils.py:30-60 | the value under the key when present, the default otherwise |
| DictUtils.NormalizeToList | src/utils/dict_utils.py:63-115 | an empty indicator (by default `None`, `''`, `[]`) becomes `None` exactly when `to_none` is set and `[]` otherwise; a list comes back as is; any other value is wrapped in a one-element list |
| DictUtils.NormalizeEmptyIff | src/utils/dict_utils.py:103-108 | with the default indicators the result is `[]` exactly for `None`, `''` and `[]` |
| DictUtils.NormalizeIdempotent | src/utils/dict_utils.py:103-115 | normalizing a normalized list gives it back unchanged |
| DictUtils.MergeDicts | src/utils/dict_utils.py:118-148 | the merged dict holds the keys of both; values of `updates` win; the keys of `base` keep their order and come first |
| DictUtils.GetNested | src/utils/dict_utils.py:151-181 | an empty path gives the dict itself; a non-dict with a non-empty path gives the default |
| DictUtils.GetNestedLoop | src/utils/dict_utils.py:174-181 | the loop over the keys returns what following the path gives: the value reached, or the default at the first non-dict level or missing/`None` value |
| DictUtils.WalkConcat | src/utils/dict_utils.py:174-181 | following a path is following its first part and then the rest from where that stopped |
| DictUtils.WalkNeverNone | src/utils/dict_utils.py:178-180 | a value found along a non-empty path is never `None` |
| DictUtils.KeepPresent | src/utils/dict_utils.py:209-210 | the safe filter keeps exactly the listed keys that are present, with their values |
| DictUtils.FilterDictByKeys | src/utils/dict_utils.py:184-212 | in unsafe mode a listed key that is missing raises `KeyError`, and only then; otherwise the result holds exactly the listed present keys with their values |
| DictUtils.GetOrRaise | src/utils/dict_utils.py:215-246 | the value when the key is present; otherwise the chosen error class, carrying the custom message when one is given |
| DictUtils.GetMissingKeys | src/utils/dict_utils.py:272-290 | a key is reported iff it is required and absent from the dict |
| DictUtils.HasAllIffNoneMissing | src/utils/dict_utils.py:249-290 | `has_all_keys` holds exactly when `get_missing_keys` is empty |
| DictUtils.InvertMap | src/utils/dict_utils.py:313 | every key of the partial inverse maps back to a key that holds it |
| DictUtils.InvertPrefix | src/utils/dict_utils.py:313 | the ordered comprehension over the first entries builds that partial inverse |
| DictUtils.InvertDict | src/utils/dict_utils.py:293-313 | every key of the inverse is a value of the dict and maps to a key holding that value |
| DictUtils.InvertMapHas | src/utils/dict_utils.py:313 | every value among the first entries becomes a key of the partial inverse |
| DictUtils.InvertMapLast | src/utils/dict_utils.py:313 | an entry whose value no later entry repeats keeps its key in the partial inverse |
| DictUtils.InvertDictHas | src/utils/dict_utils.py:293-313 | every value of the dict is a key of the inverse |
| DictUtils.InvertDictLastWins | src/utils/dict_utils.py:293-313 | when several keys share a value, the inverse maps it to the key listed last |
| DictUtils.InvertInjective | src/utils/dict_utils.py:293-313 | for a dict with distinct values, the inverse maps each value back to its own key |
| ColumnUtils.SelectColumnsSafe | src/utils/column_utils.py:39-95 | with `missing_ok` the present requested columns are selected in request order, and none present gives an empty frame; otherwise a missing column raises `KeyError` naming every missing one in order, and with all present the requested columns are selected with every row; selected columns carry the frame's values |
| ColumnUtils.AddNotExcluded | src/utils/column_utils.py:148-151 | the loop appends, in order and once each, every column that is neither excluded nor already listed, keeping what was listed before as a prefix |
| ColumnUtils.FilterColumns | src/utils/column_utils.py:98-154 | the present `keep_first` columns come first (even when excluded), then the other non-excluded columns in table order; nothing twice; a column is listed iff it is in the table and is kept first or not excluded |
| ColumnUtils.BuiltColumns | src/utils/column_utils.py:159-225 | a column is listed iff it is in the base or include list, not excluded and (when given) available; with deduplication nothing repeats, without it the order is that of base then include |
| ColumnUtils.BuiltColumnsDedup | src/utils/column_utils.py:215-223 | the de-duplicated list is the plain list with its repeats dropped, and still in the order of base then include |
| ColumnUtils.BuildColumnList | src/utils/column_utils.py:200-225 | the steps of `build_column_list`, its `seen`-set loop included, compute that list |
| ColumnUtils.EnsureColumnsExist | src/utils/column_utils.py:228-275 | the requested columns missing from the frame, in request order; with `raise_on_missing` a missing column raises `KeyError` instead, and only then |
| Seqs.DedupOrder | src/utils/column_utils.py:215-223 | the `seen`-set idiom keeps a subsequence of its input whose elements come in the order of their first occurrences |
| ColumnUtils.DeduplicateColumns | src/utils/column_utils.py:278-305 | with `preserve_order`, the first occurrences in order; without it the distinct columns sorted; either way no repeats and the same set of columns |
| ColumnUtils.ColumnsByPattern | src/utils/column_utils.py:308-351 | the columns that contain the pattern (case folded on both sides unless case-sensitive) and are not excluded, in table order |
| ColumnUtils.LowerKeepsContains | src/utils/column_utils.py:346-349 | lower-casing both sides keeps a substring a substring |
| ColumnUtils.CaseInsensitiveWidens | src/utils/column_utils.py:343-349 | every case-sensitive match is also a case-insensitive match |
| ColumnUtils.SortedDifference | src/utils/column_utils.py:380-384 | `sorted(list(set(a) - set(b)))` is sorted, has no repeats, and holds exactly the columns of the first list absent from the second |
| ColumnUtils.GetColumnDiff | src/utils/column_utils.py:354-393 | `both`, `df1` and `df2` give the two differences, the first or the second; any other return type raises `ValueError`, and only those |
| ColumnUtils.DifferenceIgnoresOrder | src/utils/column_utils.py:380-384 | the difference depends only on which columns each frame has, not on their order or repetition |
| ColumnUtils.ValidateColumnSubset | src/utils/column_utils.py:396-426 | true iff every subset column is in the superset |
| ValidationUtils.DataFrameErrors | src/utils/validation_utils.py:57-68 | no error iff the row count is at least the minimum, at most the maximum when one is given, and every required column is present; at most three errors |
| ValidationUtils.ValidateDataFrame | src/utils/validation_utils.py:32-75 | a fresh result without warnings whose errors are the too-few-rows, too-many-rows and missing-columns messages in checking order; it succeeds iff there is no error |
| ValidationUtils.RequiredKeysErrors | src/utils/validation_utils.py:101-103 | no error iff every required key is present; at most one message, naming every missing key |
| ValidationUtils.ValidateRequiredKeys | src/utils/validation_utils.py:78-107 | a fresh result whose errors are those of the required-keys check; it succeeds iff there is none |
| ValidationUtils.SetFields | src/utils/validation_utils.py:134 | the named fields whose value is not `None` (an absent key reads as `None`), in order |
| ValidationUtils.ExclusiveErrors | src/utils/validation_utils.py:134-139 | no error iff exactly one field is set; none set gives the "at least one" message |
| ValidationUtils.ExclusiveMeansOne | src/utils/validation_utils.py:110-144 | when the check passes, some field is set and any two set fields are the same field |
| ValidationUtils.ValidateMutuallyExclusive | src/utils/validation_utils.py:110-144 | a fresh result whose errors are those of the exclusivity check; it succeeds iff there is none |
| ValidationUtils.RangeErrors | src/utils/validation_utils.py:171-175 | no error iff the value lies within the bounds that are given, both inclusive; at most two errors |
| ValidationUtils.ValidateValueRange | src/utils/validation_utils.py:147-180 | a fresh result whose errors are the below-minimum and above-maximum messages; it succeeds iff there is none |
| ValidationUtils.ValidateListNotEmpty | src/utils/validation_utils.py:183-208 | fails exactly on the empty list, with the single "cannot be empty" error |
| ValidationUtils.Summaries | src/utils/validation_utils.py:232-236 | one summary per result, holding its flag, errors and warnings |
| ValidationUtils.FailedErrors | src/utils/validation_utils.py:233-235 | when every result succeeded, no error is collected |
| ValidationUtils.ValidateAllNext | src/utils/validation_utils.py:232-236 | one more result ands its flag in, adds its errors only when it failed, and always adds its warnings |
| ValidationUtils.Absorb | src/utils/validation_utils.py:233-236 | the body of the loop: a failed result clears success and contributes its errors; every result contributes its warnings |
| ValidationUtils.AbsorbAll | src/utils/validation_utils.py:232-236 | after the loop, success holds iff every result succeeded; the errors are those of the failed results and the warnings those of all results, in input order |
| ValidationUtils.ValidateAll | src/utils/validation_utils.py:211-241 | a fresh result that succeeds iff every input did, with the errors of the failed inputs and all warnings in input order; the inputs are not changed |
| Validators.ValidateRequiredColumns | src/preprocessing/validators.py:164-188 | invalid iff some required name is not a column, then with one error listing the absent names in request order; never warnings or rejected rows |
| Validators.Mapped | src/preprocessing/validators.py:221-225 | `target_to_source` holds exactly the schema targets that name a `source_column`, in schema order |
| Validators.RejectedIff | src/preprocessing/validators.py:231-247 | a row collects a rejection reason exactly when some required target (`optional == 0`) has a source column that is null in that row |
| Validators.RejectedUpTo | src/preprocessing/validators.py:228-255 | the rejected row positions are increasing and below the rows scanned |
| Validators.KeptUpTo | src/preprocessing/validators.py:262 | the kept row positions are increasing and below the rows scanned |
| Validators.RowCount | src/preprocessing/validators.py:228-262 | every row is kept or rejected, never both: kept plus rejected is the row count |
| Validators.RejectedRows | src/preprocessing/validators.py:228-255 | a row is rejected exactly when one of its required fields is null |
| Validators.KeptRows | src/preprocessing/validators.py:259-262 | a row stays in the clean table exactly when none of its required fields is null |
| Validators.ReasonsFor | src/preprocessing/validators.py:253-256 | only scanned rows have reasons, and a row's reasons are its rejection messages joined with "; " in target order |
| Validators.ReasonRows | src/preprocessing/validators.py:253-256 | a row has recorded reasons exactly when it is rejected |
| Validators.NoneRejectedKeepsAll | src/preprocessing/validators.py:288-294 | with nothing rejected every row is kept, in order |
| Validators.NoneRejectedClean | src/preprocessing/validators.py:288-294 | with nothing rejected the clean table is the input itself |
| Validators.DedupSnoc | src/preprocessing/validators.py:249-251 | a warning is appended exactly when it is not yet listed |
| Validators.DedupGrow | src/preprocessing/validators.py:249-251 | the same, after any earlier warnings |
| Validators.CheckNext | src/preprocessing/validators.py:231-251 | one target more extends the row's reasons and warnings by that target's verdict only |
| Validators.CheckTarget | src/preprocessing/validators.py:232-251 | a target outside the column schema, or whose source is not a column, changes nothing; a null required source adds a rejection reason; a null optional source adds its warning unless already listed |
| Validators.CheckRow | src/preprocessing/validators.py:229-251 | the inner loop gives the row's rejection reasons in target order and adds its warnings, each once |
| Validators.CheckRows | src/preprocessing/validators.py:228-256 | the row loop gives the rejected positions in order, each rejected row's joined reasons, and every warning once in first-seen order |
| Validators.ValidateRowLevelRequiredFields | src/preprocessing/validators.py:190-294 | always valid and without errors; the rejected rows are exactly those with a null required field, with their reasons; the clean table holds the other rows in order (the input itself when none is rejected); warnings are de-duplicated |
| Validators.RowWarningsDistinct | src/preprocessing/validators.py:249-251 | the reported warnings have no repeats and are exactly the warnings some row raised |
| Validators.ValidateAll | src/preprocessing/validators.py:336-412 | missing required columns end validation as invalid, with the date errors then the missing-columns error and without the quality warnings; otherwise valid iff no date check failed, with the date warnings then the quality warnings |
| Transformers.Rename | src/preprocessing/transformers.py:51 | `df.rename(columns={source: target})` renames every column named `source` and leaves the data and the other names alone |
| Transformers.MapFrom | src/preprocessing/transformers.py:46-58 | the mapping walk changes column names only: the data and the number of columns stay |
| Transformers.MapFromPartition | src/preprocessing/transformers.py:46-58 | the available and missing lists split the targets: each keeps target order, together they have one entry per target, every target is in one, and with distinct targets none is in both |
| Transformers.MapFromStep | src/preprocessing/transformers.py:47-55 | one target of the walk: available (renamed when the names differ) when its truthy source is a column, missing otherwise |
| Transformers.MapsToStep | src/preprocessing/transformers.py:46-55 | one iteration of the loop keeps the loop invariant of `map_columns` |
| Transformers.MapColumns | src/preprocessing/transformers.py:31-58 | the loop over the schema returns the mapped copy and the two lists that the mapping walk gives, in schema order |
| Transformers.MapColumnsPartition | src/preprocessing/transformers.py:31-58 | each schema target is in exactly one of the two lists, both in schema order; the data is untouched |
| Transformers.CleanNumericString | src/preprocessing/transformers.py:164-194 | nulls and blank text come back unchanged; any other value becomes text |
| Transformers.CleanRemovesSeparators | src/preprocessing/transformers.py:186-192 | with one-character separators, no thousands separator (other than '.') and no decimal separator other than '.' survives the cleaning |
| Transformers.CleanStripped | src/preprocessing/transformers.py:178-194 | stripped, non-blank text goes straight through the two replaces |
| Transformers.ReplaceEuropean | src/preprocessing/transformers.py:186-192 | for `x.y,z` with no separator inside the parts, removing '.' and turning ',' into '.' gives `xy.z` |
| Transformers.CleanEuropean | src/preprocessing/transformers.py:164-194 | with '.' as thousands and ',' as decimal separator, `x.y,z` is cleaned to `xy.z` |
| Transformers.CleanEuropeanExample | src/preprocessing/transformers.py:164-194 | "1.234,5" is cleaned to "1234.5" |
| Analyzer.AnalyzeDef | src/features/analyzer.py:121-126 | a function definition yields itself, its first `co_argcount` variable names and the aggregation flag of its source; a dict definition yields the compiled `udf`, its `args` and the flag of the code, and fails with `KeyError` exactly when `udf` or `args` is absent |
| Analyzer.AnalyzeOneKeys | src/features/analyzer.py:108-131 | one iteration adds metadata for its own feature only, and only when that feature is not an input column and is found in the store |
| Analyzer.AnalyzeSpecKeys | src/features/analyzer.py:108-131 | a feature has metadata exactly when it is in the execution sequence, not an input column and found in the store |
| Analyzer.AnalyzeSpecMeta | src/features/analyzer.py:115-131 | the metadata recorded for a feature is what analysing its stored definition gives |
| Analyzer.AnalyzeSpecErr | src/features/analyzer.py:121-126 | the analysis fails only because some analysed feature has a dict definition that lacks `udf` or `args` |
| Analyzer.AnalyzeFeatures | src/features/analyzer.py:84-142 | the loop over the execution sequence returns the analysis of the whole sequence, looked up under the model's scope |
| Analyzer.AnalyzeFeature | src/features/analyzer.py:108-131 | one iteration: an input column or a feature not in the store is skipped, otherwise its metadata is added or its error raised |
| Analyzer.AnalyzeNext | src/features/analyzer.py:108-131 | the analysis of one more feature is one more iteration, and an error there is the result of the whole loop |
| Analyzer.ErrSticks | src/features/analyzer.py:108-131 | an exception ends the loop: a failed prefix is the result of the whole sequence |
| Analyzer.ValidateArguments | src/features/analyzer.py:207-238 | true exactly when every argument is an input column or an aggregation result |
| Calculator.InjectFrom | src/execution/calculator.py:96-104 | injection never overwrites an existing global, binds every standard name, and adds nothing else |
| Calculator.InjectIdempotent | src/execution/calculator.py:99-102 | injecting the globals a second time changes nothing |
| Calculator.InjectGlobals | src/execution/calculator.py:96-104 | `InjectFrom` over the names of `FEATURE_FUNCTION_GLOBALS`: the existing bindings stay, every standard name is bound, nothing else is added |
| Calculator.RowArgs | src/execution/calculator.py:136 | the arguments of one row's call: each column contributes that row's value, scalars are broadcast |
| Calculator.MapRows | src/execution/calculator.py:134-143 | the row-by-row calls: one value per row, each what the function returns on that row; a failure is the first row that raises |
| Calculator.CalculateFilter | src/execution/calculator.py:106-143 | one value per row, each the function on that row; without column arguments the single result fills every row; column arguments and no rows raise `ValueError` |
| Calculator.CalculateAttribute | src/execution/calculator.py:145-183 | the function is called once on the arguments as given, whole columns included, and its error is the call's error |
| Calculator.ScalarFilterIsBroadcastAttribute | src/execution/calculator.py:106-183 | a filter whose arguments are all scalars is the attribute value repeated on every row |
| Calculator.FilterRowIsLocal | src/execution/calculator.py:136 | each row of a successful filter is what the function returns on that row alone |
| Calculator.PrepareArg | src/execution/calculator.py:185-249 | a table column first, an aggregation result second, `KeyError` exactly when the argument is neither |
| Resolver.ArgList | src/features/resolver.py:212-217 | a function's arguments are its first `co_argcount` variable names; a dict without `args` has none |
| Resolver.DefOf | src/features/resolver.py:196-207 | a feature stored under its bare name reads what `get_feature` finds under the current model (scoped key, then bare name); an indexed one under the resolver's own model reads the index's definition |
| Resolver.DepsOf | src/features/resolver.py:196-217 | the registry knows a feature exactly when it is stored under its bare name or listed in the feature index, and then supplies the argument list of the definition `_resolve_feature` reads |
| Resolver.DepsOfOwnModel | src/features/store.py:134-166 | with the resolver's model current, a stored feature reads its scoped definition when present, else its bare one, and an indexed feature reads the index's definition |
| Resolver.GrowsKeeps | src/features/resolver.py:189-239 | the lists only ever have names appended, so nothing once collected is lost |
| Resolver.GrowsTrans | src/features/resolver.py:225-235 | appending across nested calls is still appending |
| Resolver.WfMoreInputs | src/features/resolver.py:189-206 | appending an input column keeps the dependency order of the execution sequence |
| Resolver.ReachesArg | src/features/resolver.py:221-235 | whatever the walk from a non-group-by argument of an expanded feature meets, the walk from the feature meets |
| Resolver.ResolveFeature | src/features/resolver.py:154-242 | after the call the feature is an input column or scheduled; an available column or unknown name becomes an input column and schedules nothing; both lists only grow, stay duplicate-free, and every scheduled feature comes after each of its non-group-by arguments; what the call adds is exactly what the walk from the feature meets that was not there before, and everything the walk meets ends up in one of the lists |
| Resolver.WfDisjoint | src/features/resolver.py:189-206 | no name is both an input column and a scheduled feature |
| Resolver.GroupByList | src/features/resolver.py:69 | `None` and `''` mean no group-by columns; a single name becomes a one-element list; a list is kept |
| Resolver.WithPrefix | src/features/resolver.py:142-144 | exactly the input columns that start with the prefix |
| Resolver.StripPrefix | src/features/resolver.py:135-139 | each stripped name, with the prefix put back, is the column it came from |
| Resolver.ExtractExternalColumns | src/features/resolver.py:103-152 | no sources give nothing; otherwise the sources are scanned in order and those with matching columns are recorded |
| Resolver.ExtractFullSound | src/features/resolver.py:130-149 | every name in the flat list is an input column carrying some source's `<name>_` prefix |
| Resolver.ExtractFullComplete | src/features/resolver.py:130-149 | every input column carrying some source's prefix is in the flat list |
| Resolver.ExtractKeeps | src/features/resolver.py:149 | scanning further sources never drops a collected name |
| Resolver.ReachedStep | src/features/resolver.py:73-85 | after each requested output, the lists hold exactly what the walks from the outputs so far meet |
| Resolver.ResolveDependencies | src/features/resolver.py:39-101 | every requested output ends up an input column or scheduled (an available one as an input column); the execution sequence is duplicate-free and in dependency order; the external split is taken over the resolved input columns; a name is an input column or scheduled exactly when the walk from some requested output meets it (input columns being the data columns and unknown names met, scheduled ones the registered features the data lacks) |
| GroupBy.Init | src/execution/groupby.py:84-87 | a group starts with its own rows, no aggregation results and no filters |
| GroupBy.ArgSource | src/execution/groupby.py:113-139 | an argument comes from the group's attributes first, then from an external column (its first row), then from a group column; a name that is none of these raises `ValueError` "Argument '<arg>' not found for feature '<feature>'" |
| GroupBy.PrepareArgs | src/execution/groupby.py:106-139 | the prepared list has one value per argument, and its columns have one value per row |
| GroupBy.PrepareArgsMeaning | src/execution/groupby.py:106-139 | each prepared value is that argument's own value; `in_flg` holds exactly when some argument is a group column and `out_flg` exactly when some is an attribute or external value; a failure comes from some argument |
| GroupBy.PrepareArgsValues | src/execution/groupby.py:113-130 | position `k` of the prepared list holds argument `k`'s value |
| GroupBy.PrepareArgsInFlag | src/execution/groupby.py:127-130 | `in_flg` holds exactly when some argument is read from a group column |
| GroupBy.PrepareArgsOutFlag | src/execution/groupby.py:116-124 | `out_flg` holds exactly when some argument is an attribute or an external value |
| GroupBy.PrepareArgsFails | src/execution/groupby.py:133-139 | the argument loop raises only on an argument that cannot be found |
| GroupBy.Decide | src/execution/groupby.py:148-150 | the four cases collapse to one test: a feature is a filter exactly when it reads a group column and aggregates nothing |
| GroupBy.Step | src/execution/groupby.py:90-182 | one iteration of the single loop keeps the group state well formed |
| GroupBy.RunFrom | src/execution/groupby.py:90-182 | the single loop over the execution sequence keeps the group state well formed |
| GroupBy.StepKeeps | src/execution/groupby.py:90-182 | one iteration keeps the group's rows and original columns, adds at most one non-aggregating planned filter column, and records only planned attributes |
| GroupBy.AddFilterKeeps | src/execution/groupby.py:157-164 | storing a filter as a new column leaves the rows and every earlier column alone and appends the filter's name |
| GroupBy.RunKeeps | src/execution/groupby.py:90-182 | after the loop the group has the same rows, its original columns unchanged and first, then one column per computed filter in order; filters never aggregate |
| GroupBy.ExistingColumnSkipped | src/execution/groupby.py:91-94 | a feature the group already holds as a column is skipped, never recomputed |
| GroupBy.FilterReadsAttribute | src/execution/groupby.py:115-118 | an attribute computed earlier in the group reaches a later feature as its value, and sets `out_flg` |
| GroupBy.ProcessFeature | src/execution/groupby.py:90-182 | the loop body for one feature does exactly one iteration of the specification |
| GroupBy.ProcessGroup | src/execution/groupby.py:68-188 | `process_group` returns the state the single loop defines, with the group's rows and columns kept |
| GroupBy.PrepareErrSticks | src/execution/groupby.py:133-139 | an argument that raises ends the argument loop |
| GroupBy.ColumnArgs | src/execution/groupby.py:418-426 | in enrichment mode every argument must be a column; the arguments are those columns, else the first argument that is not raises `ValueError` "Argument '<arg>' not found for feature '<feature>' (enrichment mode)" |
| GroupBy.EnrichStep | src/execution/groupby.py:399-441 | one enrichment iteration keeps the state well formed and records no attribute |
| GroupBy.EnrichFrom | src/execution/groupby.py:399-441 | the enrichment loop never records an attribute |
| GroupBy.EnrichStepKeeps | src/execution/groupby.py:399-441 | one enrichment iteration keeps the rows and columns and adds at most one non-aggregating filter |
| GroupBy.EnrichKeeps | src/execution/groupby.py:399-441 | after enrichment the data has the same rows and original columns, plus one column per computed filter; aggregations are skipped |
| GroupBy.ProcessNoGrouping | src/execution/groupby.py:371-453 | `_process_no_grouping` returns the enriched data, an empty attributes table and the filters computed, and fails exactly when the enrichment loop fails |
| GroupBy.GroupColumns | src/execution/groupby.py:328-333 | a string names one group column; a list of strings names each of its items |
| GroupBy.AttachFrom | src/execution/groupby.py:328-333 | putting the group columns back keeps the rows and other columns; each group column holds its key value on every row |
| GroupBy.GroupPart | src/execution/groupby.py:321-337 | one group's part of the filters table has the group's rows |
| GroupBy.KeyRecord | src/execution/groupby.py:349-360 | a group's record starts with its key under the group column name(s) |
| GroupBy.LastIndex | src/execution/groupby.py:355 | the last position of a name, where a dict display keeps the value written last |
| GroupBy.RunGroups | src/execution/groupby.py:299-302 | every group is processed in order, each result carrying its group's key and keeping its rows and columns |
| GroupBy.RunGroupsNext | src/execution/groupby.py:299-302 | one more group either ends the whole with its failure or appends its result |
| GroupBy.RunGroupsPrefixErr | src/execution/groupby.py:299-302 | a failure in some group is the failure of `process_all_groups` |
| GroupBy.RunGroupsFails | src/execution/groupby.py:299-302 | processing the groups fails exactly when processing some group fails |
| GroupBy.NameSet | src/execution/groupby.py:310-312 | the set holds exactly the listed names |
| GroupBy.FilterUnionMember | src/execution/groupby.py:310-312 | `all_filters` holds exactly the filters some group computed |
| GroupBy.Parts | src/execution/groupby.py:319-337 | every part is a well-formed table |
| GroupBy.Records | src/execution/groupby.py:347-363 | one record per group, in group order, each its key updated with its attributes |
| GroupBy.FiltersOf | src/execution/groupby.py:339-345 | the filters table is well formed, empty when no part has data |
| GroupBy.AttrsOf | src/execution/groupby.py:365 | the attributes table is well formed |
| GroupBy.FirstAbsent | src/execution/groupby.py:299 | grouping by a column the data lacks raises; this finds the first such column, and finds none exactly when all are present |
| GroupBy.LastIndexOfLast | src/execution/groupby.py:355 | a name that does not repeat later is found at its own position |
| GroupBy.KeyRecordTuple | src/execution/groupby.py:354-355 | a tuple key gives each group column its own item |
| GroupBy.AttrsOnePerGroup | src/execution/groupby.py:347-365 | the attributes table has one row per group, and row `k` holds group `k`'s attributes |
| GroupBy.AttrsCarryKey | src/execution/groupby.py:349-365 | a group column no attribute overrides holds the group's key on that group's row |
| GroupBy.KeyInRecord | src/execution/groupby.py:349-362 | a group's record holds its key value under each group column no attribute overrides |
| GroupBy.PartsRows | src/execution/groupby.py:319-339 | the parts together have exactly the rows of the non-empty groups |
| GroupBy.PartsSnocRows | src/execution/groupby.py:321-337 | each non-empty group adds its own rows to the parts |
| GroupBy.FiltersKeepEveryRow | src/execution/groupby.py:319-345 | a non-empty filters table has one row per row of every non-empty group |
| GroupBy.GroupPartCarriesKey | src/execution/groupby.py:328-337 | a group's part carries each group column, holding the key on every row, unless that key value is missing |
| GroupBy.FilterUnionPlanned | src/execution/groupby.py:310-316 | `exec_fltrs` holds only planned, non-aggregating features |
| GroupBy.PlannedFilters | src/execution/groupby.py:310-316 | if each group computed only planned non-aggregating filters, so does their union |
| GroupBy.CollectFilters | src/execution/groupby.py:310-312 | the loop builds `all_filters` as the union of the groups' filters |
| GroupBy.CollectParts | src/execution/groupby.py:319-337 | the loop builds `data_in_list` |
| GroupBy.PartsNext | src/execution/groupby.py:320-337 | one more group adds its part unless its rows are empty |
| GroupBy.KeyedPart | src/execution/groupby.py:321-336 | the column loop of one group gives that group's part |
| GroupBy.AttachNext | src/execution/groupby.py:329-330 | one iteration of the column loop sets one group column |
| GroupBy.CollectRecords | src/execution/groupby.py:347-363 | the loop builds `attrs_list` |
| GroupBy.GroupRecord | src/execution/groupby.py:349-362 | `row_dict` is the group's key record updated with its attributes |
| GroupBy.ProcessAllGroups | src/execution/groupby.py:262-369 | without grouping, the enrichment result; otherwise a missing group column raises `KeyError`, a failing group raises, and the tables are assembled from the processed groups; `exec_fltrs` holds only planned non-aggregating features |
| GroupBy.ProcessEachGroup | src/execution/groupby.py:299-302 | the loop over the groups stops at the first that raises and otherwise returns every group's result |
| GroupBy.AssembleOutcome | src/execution/groupby.py:310-365 | the three collecting loops produce the filters table, the attributes table and `exec_fltrs` |
| ExternalData.JoinColumns | src/execution/external_data.py:111-113 | a falsy `join_on` gives no join labels; a truthy list gives its items; anything else truthy, of any type, is one label |
| ExternalData.FirstUnhashable | src/execution/external_data.py:113 | no label is found exactly when every join label can be hashed; one found is a list or a dictionary among the labels, which `col not in columns` raises `TypeError` on |
| ExternalData.MissingLabels | src/execution/external_data.py:113 | nothing is missing exactly when every join label is a column name of the table; no missing label is one |
| ExternalData.MissingLabelsNames | src/execution/external_data.py:113 | on column names, the labels found missing are the names that are not columns, in order |
| PyValues.LabelsReprNames | src/execution/external_data.py:116-117 | a list of names prints as labels exactly as a list of strings prints |
| ExternalData.EntryCheckIff | src/execution/external_data.py:93-119 | an entry passes exactly when it is a dictionary whose truthy string source the context finds and every join label is one of its columns; it raises exactly when it is not a dictionary (`AttributeError` on `.get`), its source is truthy but not a string (`AttributeError` from src/core/context.py:99), or a join label of a found source is a list or a dictionary (`TypeError`) |
| ExternalData.RaisedIff | src/execution/external_data.py:93-119 | validation raises exactly when some entry raises, and then what that entry raises |
| ExternalData.ProblemsIff | src/execution/external_data.py:93-126 | validation records some error exactly when some entry has a problem |
| ExternalData.Descriptions | src/execution/external_data.py:100-119 | one message per problem |
| ExternalData.DescriptionsStep | src/execution/external_data.py:93-119 | an entry's error, if any, comes before the errors of later entries |
| ExternalData.RecordProblems | src/execution/external_data.py:93-119 | the loop raises what the first raising entry raises; otherwise it records one error per problem entry, in entry order, and no warning, and success holds exactly when there is no error |
| ExternalData.RecordEntry | src/execution/external_data.py:94-119 | one iteration raises the entry's exception, if any; otherwise it adds the entry's error, if it has one, after those already recorded |
| ExternalData.CheckEntry | src/execution/external_data.py:94-119 | the checks of one entry give that entry's problem or exception |
| ExternalData.ValidateExternalSources | src/execution/external_data.py:62-126 | with nothing configured the result is a success without errors; otherwise, when some entry raises, the first such exception; otherwise one error per problem entry in entry order, each the code's full message (the missing join labels and the available datasets or columns included), and success exactly when there is none |
| ExternalData.ExternalColumnList | src/execution/external_data.py:128-154 | `cfg['ext_cols']['list']`, and an empty list when either key is absent |
| ExternalData.ResolveArgumentSource | src/execution/external_data.py:156-232 | an attribute first; an external column's first value from the external table, else from the data, else `ValueError`; then a whole data column; anything else `ValueError` whose message lists the data columns, the attributes computed so far (in the order computed) and the external columns; only a data argument is a whole column |
| ExternalData.AgreesWithProcessGroup | src/execution/external_data.py:199-232 | without an external table this resolver picks the same value from the same kind of source as the argument loop of `process_group` (src/execution/groupby.py:113-139) and fails on the same arguments |
| ExternalData.EntryLoad | src/execution/external_data.py:256-264 | an entry without `source` raises `KeyError`, one whose source is not a string `AttributeError` (src/core/context.py:99); otherwise it loads exactly the dataset the context finds under that source |
| ExternalData.EntryLoads | src/execution/external_data.py:256-264 | each entry's load, in entry order |
| ExternalData.GatherEntries | src/execution/external_data.py:256-266 | every found table is stored under its own entry's name, and nothing else is |
| ExternalData.GatherNext | src/execution/external_data.py:256-264 | the next entry either ends the loop with its exception or is stored when its dataset is found |
| ExternalData.GatherFails | src/execution/external_data.py:256-264 | the loading fails exactly when some entry's load fails |
| ExternalData.GatherStopsAt | src/execution/external_data.py:256-264 | a failed entry ends the loop |
| ExternalData.PreparedMeaning | src/execution/external_data.py:235-266 | `prepare_external_data` fails exactly when some entry lacks `source` or has one that is not a string; otherwise an entry's name is present exactly when its source is found, mapped to that dataset, and no other name is present |
| ExternalData.PrepareExternalData | src/execution/external_data.py:235-266 | the method loads what the specification of `prepare_external_data` says |
| ExternalData.LoadAll | src/execution/external_data.py:253-266 | the loop over the entries gathers their loads in entry order |
| ExternalData.LoadEntry | src/execution/external_data.py:257-264 | one entry: its `source` (`KeyError` when absent), then the context's dataset of that name (`AttributeError` when the source is not a string) |
| ExternalData.AllEntryColumnsNext | src/execution/external_data.py:289-301 | one more entry appends its own columns |
| ExternalData.ExternalColumnNames | src/execution/external_data.py:268-310 | every entry's columns (all the source's columns for `'ALL'`, the list otherwise), each name once, in order of first appearance |
| ExternalData.CollectEntryColumns | src/execution/external_data.py:289-301 | the loop concatenates every entry's columns in entry order |
| ExternalData.DedupInOrder | src/execution/external_data.py:303-308 | the `seen` loop keeps the first occurrence of each name, in order |
| Executor.TrackingKeysDistinct | src/execution/executor.py:169-170 | the two tracking keys differ from each other and from `group_by` and `row_id`, so writing them leaves those alone |
| Executor.NormalizeGroupBy | src/execution/executor.py:98 | `None`, `''` and `[]` become `None`; a non-empty list is kept; anything else becomes a one-element list |
| Executor.NormalizeGroupByIdempotent | src/execution/executor.py:98-99 | normalising the stored `group_by` again changes nothing |
| Executor.NormalizedNoGrouping | src/execution/executor.py:98-99 | normalising does not change whether the run is in enrichment mode |
| Executor.ExcludeCols | src/execution/executor.py:218 | every group-by column and the row-id column are excluded |
| Executor.KeepNotExcluded | src/execution/executor.py:222-225 | the filtered column list is never longer than the table's |
| Executor.KeepNotExcludedMember | src/execution/executor.py:222-225 | a column is kept exactly when it is the table's and not excluded |
| Executor.KeepNotExcludedAppend | src/execution/executor.py:222-225 | filtering keeps column order |
| Executor.KeepNotExcludedNoDup | src/execution/executor.py:222-225 | distinct columns give a tracked list without repeats |
| Executor.Tracked | src/execution/executor.py:221-238 | an empty table tracks nothing; otherwise exactly its non-excluded columns |
| Executor.TrackedSkipsKeys | src/execution/executor.py:218-225 | a tracked feature is never a group-by column nor the row-id column |
| Executor.SetTracking | src/execution/executor.py:226-238 | writes `exec_fltrs` and `exec_attrs` and keeps every other key |
| Executor.UpdateExecTracking | src/execution/executor.py:201-238 | `exec_fltrs` and `exec_attrs` become the filters' and the attributes' tracked columns |
| Executor.UpdateExecTrackingKeeps | src/execution/executor.py:201-238 | no other configuration key changes |
| ExternalData.JoinLabels | src/execution/executor.py:132 | a list `join_on` is its items; anything else, of any type, is one label |
| Executor.EntryFailureMeaning | src/execution/executor.py:117-145 | an entry passes exactly when it names a source and join columns, the source is a string found through the context (src/core/context.py:99 calls `endswith` on it), and every join label is a column name of both tables; a missing key is `KeyError`, a source that is not a string `AttributeError`, a join label that is a list or a dictionary `TypeError`, anything else `ValueError` |
| Executor.PassedIsMergeable | src/execution/executor.py:117-145 | entries that passed the checks have a `join_on` that is a name or a list of names, which with named columns is all `_merge_external_data` (src/execution/groupby.py:224-233) needs to read them |
| Executor.EntryFailures | src/execution/executor.py:117-145 | each entry's own failure, in entry order |
| Wrappers.FirstFailureNone | src/execution/executor.py:117-145 | the loop raises nothing exactly when no entry fails, and what it raises is some entry's failure |
| Executor.ExternalFailureNone | src/execution/executor.py:117-145 | the external checks pass exactly when every entry passes |
| Executor.CheckExternalData | src/execution/executor.py:117-145 | the loop over `external_data` raises the first entry's failure, in entry order |
| Executor.PartitionGroups | src/execution/groupby.py:299-302 | the groups pandas forms are well formed and their keys fit `group_by` |
| Executor.InputTable | src/execution/executor.py:86-95 | `data_in` when given; otherwise the context's dataset by name, `ValueError` when it is not found or there is no context |
| Executor.LookupWellFormed | src/execution/executor.py:92-94 | a dataset found through the context is well formed |
| Executor.AdmittedMeaning | src/execution/executor.py:80-145 | the guards raise in order: no `model_name`, then no input table, then external data without a context or with a failing entry; passing means every external entry passed |
| Executor.Admitted | src/execution/executor.py:80-145 | a passing guard hands on the input table; with `external_data` set, every entry it let through is one `_merge_external_data` can read |
| Executor.ExecuteModel | src/execution/executor.py:54-199 | a failed guard is the result; otherwise the result fails exactly as the analysis, the external-data merge or the groups do (a missing `exec_seq` is `KeyError`) and carries the computed filters and attributes, `None` when empty; once an input table is there `group_by` is normalised in the configuration; after a successful analysis the configuration holds `feature_funcs`, `feature_args` and `feature_groupby_flg`; no key other than those written changes; a result names the input dataset and its tracking lists, also written to the configuration, are its tables' columns minus group-by and row-id; enrichment mode gives no attributes |
| Executor.RunAdmitted | src/execution/executor.py:147-199 | on an admitted input, the same result, configuration writes and untouched keys as `execute_model` |
| Executor.Admit | src/execution/executor.py:80-145 | the guards as specified, with `group_by` normalised into the configuration once an input table is found, even when a later guard fails |
| Executor.RequireModelName | src/execution/executor.py:80-83 | no `model_name` raises `ValueError` with the message `validate_required_keys` gives; otherwise the name |
| Executor.ModelNameErrors | src/execution/executor.py:80-82 | the validation of `model_name` gives no error or exactly the one naming it |
| Executor.OneKeyErrors | src/utils/validation_utils.py:101-103 | with one required key the error list is empty or the one message naming that key |
| Executor.ExternalGuard | src/execution/executor.py:109-145 | nothing to check without `external_data`; without a context a `ValueError`; otherwise the first failing entry |
| Executor.CheckExternal | src/execution/executor.py:109-145 | the method raises what the guard specifies |
| Executor.TrackAndBuild | src/execution/executor.py:182-199 | an empty table becomes `None`; the tracking lists are the tables' non-excluded columns, in the output and in the configuration |
| Executor.RunGroups | src/execution/groupby.py:262-295 | `process_all_groups` as the executor calls it: the external data merged first (`Merge.MergeExternal`), its failure being the result; then, on the merged table, the enrichment of the whole table without grouping, or `AllGroupsSpec` on pandas' groups; enrichment mode yields no attributes, and every reported filter is an analysed feature that does not aggregate |
| Executor.GroupsOutcome | src/execution/groupby.py:289-295 | enrichment mode never produces attributes |
| Executor.RunAnalysed | src/execution/executor.py:153-199 | without `exec_seq` a `KeyError`, a failed analysis its error (configuration untouched), otherwise the groups run on the plan the analysis built and the output carries their tables; the analysis dictionaries are written; an output's tracking lists are its tables' non-excluded columns |
| Executor.RunWithAnalysis | src/execution/executor.py:161-199 | the analysis results are copied into the configuration, kept through the rest of the run, and the output carries the tables the groups compute |
| Executor.WriteAnalysis | src/execution/executor.py:161-164 | `feature_funcs`, `feature_args` and `feature_groupby_flg` are written and no other key changes |
| Executor.WriteFields | src/execution/executor.py:162-164 | each of the three keys holds its value and every other key stays |
| Executor.FieldDict | src/features/analyzer.py:104-147 | the dictionary has an entry for exactly the analysed features of the sequence, each the feature's function name, argument list or aggregation flag, keys in sequence order |
| Executor.AnalysisKept | src/execution/executor.py:168-170 | resetting and filling the tracking lists leaves the analysis results in place |
| Executor.AnalysisKeysDistinct | src/execution/executor.py:162-170 | the analysis keys differ from each other and from `exec_fltrs`, `exec_attrs`, `group_by` and `row_id` |
| Executor.RunPlanned | src/execution/executor.py:168-199 | the tracking lists are reset, the groups run; the result fails exactly as they do and otherwise carries their tables and the tracking of them; only the tracking keys change |
| Executor.ResetTracking | src/execution/executor.py:169-170 | both tracking lists become empty and no other key changes |
| Merge.JoinList | src/execution/groupby.py:233-235 | a single join column becomes a one-element list; a list is kept |
| Merge.Renamed | src/execution/groupby.py:248-249 | renaming changes only names: cells and rows stay, and a column gets the `<entry>_` prefix exactly when it is one of the columns to merge |
| Merge.MergeColumnsCases | src/execution/groupby.py:237-245 | `columns` missing or `None` selects every source column that is not a join key, in order; a list is taken as given; any other value raises `TypeError`, and only then |
| Merge.ReadEntryCases | src/execution/groupby.py:224-245 | the reads fail in the code's order: no `source` is `KeyError`, a `source` that is not a string is the `AttributeError` of `get_dataset` (src/core/context.py:99), a dataset the context does not have is `ValueError` naming it, no `join_on` is `KeyError`; a successful read holds the dataset `get_dataset` found, the join list and the columns to merge |
| Merge.EntryPieceCases | src/execution/groupby.py:247-249 | a failed read is the entry's failure; after a read, the selected piece exists exactly when every join column and every column to merge is a column of the source, and it is a well-formed table; when none of them is, pandas' `KeyError` "None of [Index([...], dtype='object')] are in the [columns]" lists them all, otherwise its `KeyError` lists the absent ones once each, in order |
| Merge.PiecesWellFormed | src/execution/groupby.py:224-249 | every entry's piece that exists is a well-formed table |
| Merge.MergedWellFormed | src/execution/groupby.py:253 | left-merging well-formed pieces one after the other keeps the table well formed |
| Merge.MergeExternalWellFormed | src/execution/groupby.py:190-260 | a successful merge hands the engine a well-formed table |
| Merge.MergeErrSticks | src/execution/groupby.py:224-230 | once an entry has failed, the entries after it do not change the outcome |
| Merge.MergedStep | src/execution/groupby.py:224-253 | one more entry gives its failure, or the table so far left-merged with its piece on its join columns |
| Merge.MergeEntries | src/execution/groupby.py:224-260 | the loop that reassigns `data_in` merges the entries in order, the first failing entry ending it |
| Merge.MergeExternalData | src/execution/groupby.py:190-260 | without truthy `external_data` the input as it is; without a context a `ValueError` with the source's message; otherwise every entry merged in order |
| Merge.SelectRenamedColumns | src/execution/groupby.py:248-249 | selecting the join columns plus the columns to merge, then renaming, lists the join columns followed by the renamed columns |
| Merge.PieceColumns | src/execution/groupby.py:247-249 | when the wanted columns are in the source, the piece exists and lists the join columns, then `<entry>_<column>` for each column to merge |
| Merge.JoinAppends | src/execution/groupby.py:253 | a left merge whose right side holds the keys plus new columns appends exactly those columns after the left table's |
| Merge.MergeEntryColumns | src/execution/groupby.py:224-257 | with names that do not clash, one entry adds exactly its columns to merge, each renamed `<entry>_<column>`, after every column merged so far |
| Context.Lookup | src/core/context.py:84-114 | a name that is not `<model>_input` of a recorded model is looked up as is |
| Context.LookupAfterStore | src/core/context.py:57-114 | after `set_dataset`, `get_dataset` of that name returns the stored table, unless the name is a recorded model's input alias |
| Context.LookupInputLineage | src/core/context.py:98-105 | `<model>_input` returns the dataset the model recorded as its input, whatever is stored under the alias itself |
| Context.FilterColumnsToKeep | src/core/context.py:166-176 | the kept filter columns are `row_id` (first, when present) and the present new filters, each once |
| Context.NonExec | src/core/context.py:195-199 | exactly the table's columns that are not new attributes |
| Context.AttrColumnsToKeep | src/core/context.py:191-204 | every column of the attributes table is kept; the others come first in table order, then the new attributes |
| Context.AddPresentTail | src/core/context.py:202-204 | what the second loop appends are new attributes |
| Context.FiltersToStore | src/core/context.py:156-183 | filters are stored under `<model>_filters` only when given with new filters and columns to keep, with all their rows |
| Context.AttrsToStore | src/core/context.py:186-210 | attributes are stored under `<model>_attrs` exactly when given, with all their rows |
| Context.PutOpt | src/core/context.py:180-183 | storing an optional dataset keeps the registry well formed |
| Context.GabedaContext.constructor | src/core/context.py:37-55 | a context starts with the user configuration and no datasets, models or history |
| Context.GabedaContext.SetDataset | src/core/context.py:57-81 | `None` changes nothing; a table is stored under its name with one history entry; models are untouched |
| Context.GabedaContext.GetDataset | src/core/context.py:84-114 | `get_dataset` is the lookup with the `<model>_input` alias |
| Context.GabedaContext.ListDatasets | src/core/context.py:116-123 | the listed names are exactly the stored datasets, each once |
| Context.GabedaContext.ListModels | src/core/context.py:271-278 | the listed names are exactly the recorded models, each once |
| Context.GabedaContext.GetModelOutput | src/core/context.py:223-233 | the record of a model exactly when one was recorded |
| Context.GabedaContext.GetModelFilters | src/core/context.py:235-245 | `get_dataset` of `<model>_filters`; that name is never an input alias, so the result is the table stored under it, if any |
| Context.GabedaContext.GetModelAttrs | src/core/context.py:247-257 | `get_dataset` of `<model>_attrs`; that name is never an input alias, so the result is the table stored under it, if any |
| Context.GabedaContext.GetModelInput | src/core/context.py:259-269 | a model's input is the dataset it recorded as its input |
| Context.GabedaContext.SetModelOutput | src/core/context.py:127-221 | the run is recorded with the names it generated; only the new features are stored, filters then attributes; the history gains their entries and then one for the run |
| Context.GabedaContext.StoreFilters | src/core/context.py:156-183 | the filters half stores what `FiltersToStore` says and reports its name |
| Context.GabedaContext.StoreAttrs | src/core/context.py:186-210 | the attributes half stores what `AttrsToStore` says and reports its name |
| Context.KeepFilterColumns | src/core/context.py:168-176 | the loop builds the kept filter columns |
| Context.KeepAttrColumns | src/core/context.py:192-204 | the two loops build the kept attribute columns |
| Context.GeneratedWereStored | src/core/context.py:179-210 | every name in `datasets_generated` is `<model>_filters` or `<model>_attrs` and was stored |
| Synthetic.Targets | src/preprocessing/synthetic.py:128-130 | without target columns, exactly the allowed columns the data lacks |
| Synthetic.Candidates | src/preprocessing/synthetic.py:140-143 | exactly the indexed features that produce the target, in map order |
| Synthetic.Unpack2 | src/preprocessing/synthetic.py:150 | unpacking the resolver's three values into two names raises, always |
| Synthetic.Unpack3 | src/preprocessing/synthetic.py:150 | the intended reading takes the input columns and the execution sequence |
| Synthetic.FirstComputable | src/preprocessing/synthetic.py:145-170 | the first candidate that is computable, if any; none exactly when no candidate is computable |
| Synthetic.AcceptsIff | src/preprocessing/synthetic.py:150-170 | on the resolver's result for one candidate, the check (all inputs are data columns and the candidate is scheduled) holds exactly when the candidate is computable |
| Synthetic.TryCandidate | src/preprocessing/synthetic.py:148-170 | one candidate is resolved alone in enrichment mode: as written it raises; as intended the check accepts it exactly when it is computable (a registered feature the data lacks whose every dependency is a data column or a registered feature) |
| Synthetic.PickFeature | src/preprocessing/synthetic.py:145-173 | the inner loop picks the first computable candidate in candidate order, and nothing when none is; reading two names picks nothing |
| Synthetic.SelectFeatures | src/preprocessing/synthetic.py:135-175 | the loop over the targets produces exactly the selection `Chosen` defines; reading two names selects nothing |
| Synthetic.SelectTarget | src/preprocessing/synthetic.py:138-173 | one pass extends the selection by the current target's first computable candidate, with the target beside it, or leaves it unchanged when it has none |
| Synthetic.Chosen | src/preprocessing/synthetic.py:138-175 | one feature per filled target, side by side; the columns are targets in target order; each feature is its column's first computable candidate, indexed and producing that column |
| Synthetic.ChosenColumns | src/preprocessing/synthetic.py:138-175 | a column is filled exactly when it is a target with a computable candidate: an unfilled target had every candidate rejected |
| Synthetic.ChosenSnoc | src/preprocessing/synthetic.py:138-173 | one more target extends the selection by its first computable candidate, if any |
| Synthetic.DetectApplicableFeaturesAsWritten | src/preprocessing/synthetic.py:100-175 | as written nothing is ever applicable and no column is inferable |
| Synthetic.DetectApplicableFeatures | src/preprocessing/synthetic.py:100-175 | the result is the selection `Chosen` over the target columns: at most one feature per target, in target order; each chosen feature is the first computable candidate that produces its target and is in the feature index |
| Synthetic.UnpackingDecides | src/preprocessing/synthetic.py:150-170 | for a target whose first candidate is computable, reading three values chooses that candidate for that target |
| Synthetic.FeatureToColumnListed | src/preprocessing/synthetic.py:52-65 | every listed key of `FEATURE_TO_COLUMN_MAP` has its column |
| Synthetic.RenameMap | src/preprocessing/synthetic.py:260-265 | exactly the applicable features present in the output whose target name differs, mapped to that target |
| Synthetic.RenameColumns | src/preprocessing/synthetic.py:268-269 | renaming changes names only, each column to its new name when it has one |
| Synthetic.FinishEnrich | src/preprocessing/synthetic.py:252-289 | no usable output gives the input back; otherwise, when every column's new name (its target for an applicable feature, else its own) is allowed, the output with its columns so renamed and its cells unchanged, else the input |
| Synthetic.Enrich | src/preprocessing/synthetic.py:177-289 | with no chosen feature the input comes back; otherwise the result is the output finished with the chosen features; either way the input itself or a table whose every column is allowed |
| Synthetic.RenameOnlyWhenDifferent | src/preprocessing/synthetic.py:261-265 | a column is renamed only when it is an applicable feature whose target differs, and then to that target |
| Synthetic.GetLuckyScore | src/preprocessing/synthetic.py:326-355 | the applicable features and inferable columns are the selection over the allowed columns the data lacks; the score counts those columns, never exceeds the number missing, and the percentage is the score's share of it |
| Synthetic.LuckPercentage | src/preprocessing/synthetic.py:347 | the percentage times the number possible is 100 times the score, 100 when nothing is missing, and it lies between 0 and 100 |
| LuckyCases.InferenceRulesShaped | test/data_generators/generate_lucky_test_cases.py:22-44 | every rule in `INFERENCE_RULES` has a first entry, so `rules[0]` never fails |
| LuckyCases.AnyPath | test/data_generators/generate_lucky_test_cases.py:81-84 | the loop over the paths succeeds exactly when some path has all its columns available |
| LuckyCases.CanInferColumn | test/data_generators/generate_lucky_test_cases.py:71-87 | a column without a rule is never inferable |
| LuckyCases.CanInferColumnMeaning | test/data_generators/generate_lucky_test_cases.py:71-87 | both directions: no rule gives false; a multi-path rule holds exactly when some path is all available; a flat rule exactly when all its columns are |
| LuckyCases.CanInferMonotone | test/data_generators/generate_lucky_test_cases.py:71-87 | more available columns never make an inferable column uninferable |
| LuckyCases.Round | test/data_generators/generate_lucky_test_cases.py:105-112 | a round holds only rule targets that are neither current nor already inferred and that the current columns let us infer |
| LuckyCases.Union | test/data_generators/generate_lucky_test_cases.py:117 | every round is contained in the accumulated set |
| LuckyCases.Rounds | test/data_generators/generate_lucky_test_cases.py:104-118 | at most one round per iteration |
| LuckyCases.RoundsGrow | test/data_generators/generate_lucky_test_cases.py:104-118 | each iteration keeps the rounds found before it as a prefix |
| LuckyCases.RoundsStop | test/data_generators/generate_lucky_test_cases.py:114-115 | once a round finds nothing, the loop is over and later iterations add nothing |
| LuckyCases.RoundsSound | test/data_generators/generate_lucky_test_cases.py:104-118 | every column of a round is a rule target, not available, not found earlier, and inferable from the available columns plus earlier rounds |
| LuckyCases.RoundsDisjoint | test/data_generators/generate_lucky_test_cases.py:108-112 | no column is found in two rounds |
| LuckyCases.RoundsClosed | test/data_generators/generate_lucky_test_cases.py:104-120 | when the loop stops early the result is closed: no further rule target is inferable from the available and inferred columns |
| LuckyCases.RoundsStalled | test/data_generators/generate_lucky_test_cases.py:114-115 | once an iteration adds no round, the rounds never change again |
| LuckyCases.NewlyInferable | test/data_generators/generate_lucky_test_cases.py:105-112 | the inner loop over the rule targets computes exactly one round |
| LuckyCases.GetInferableColumns | test/data_generators/generate_lucky_test_cases.py:90-120 | the result is the union of the rounds of at most `max_iterations` iterations; the caller's available set is untouched |
| LuckyCases.InferredAreNew | test/data_generators/generate_lucky_test_cases.py:90-120 | every inferred column is a rule target that was not already available |
| LuckyCases.UnionIndex | test/data_generators/generate_lucky_test_cases.py:117 | every accumulated column came from some round |
| TestCases.IsColumnInferable | test/data_generators/generate_test_cases.py:55-66 | a column without a rule is never inferable; one whose rule lists nothing always is |
| TestCases.InferableMonotone | test/data_generators/generate_test_cases.py:55-66 | only which columns are present matters, and more present columns never make a column uninferable |
| TestCases.Required | test/data_generators/generate_test_cases.py:73 | exactly the columns whose metadata says `optional == 0` |
| TestCases.OptionalCols | test/data_generators/generate_test_cases.py:74 | exactly the columns whose metadata says `optional == 1` |
| TestCases.InferableCols | test/data_generators/generate_test_cases.py:75 | exactly the columns whose metadata says `inferable == 1` |
| TestCases.PrefixedElems | test/data_generators/generate_test_cases.py:81 | putting the first element in front of selections from the rest still selects from the list |
| TestCases.CombinationsElems | test/data_generators/generate_test_cases.py:81 | every selection of `itertools.combinations` takes its elements from the list |
| TestCases.SubsetsUpToElems | test/data_generators/generate_test_cases.py:80-81 | every subset the loops over sizes produce takes its elements from the list |
| TestCases.SubsetsStartEmpty | test/data_generators/generate_test_cases.py:80-81 | the first subset tried is the empty one |
| TestCases.SubsetsPrefix | test/data_generators/generate_test_cases.py:80-81 | the subsets of smaller sizes come first, as a prefix |
| TestCases.CheckRemoval | test/data_generators/generate_test_cases.py:97-101 | the loop with its early break is valid exactly when every removed column is inferable from the remaining columns |
| TestCases.ForBaseNext | test/data_generators/generate_test_cases.py:92-104 | one more removal is one more step of the inner loops |
| TestCases.TryRemoval | test/data_generators/generate_test_cases.py:94-104 | one removal: the sorted candidate is appended when the removal is valid and the candidate new, else nothing changes |
| TestCases.AddForBase | test/data_generators/generate_test_cases.py:89-104 | the loops over the removals for one base do every removal in order |
| TestCases.ForSubsetsNext | test/data_generators/generate_test_cases.py:80-104 | one more optional subset is its base's removals done after the earlier subsets |
| TestCases.GenerateValidCombinations | test/data_generators/generate_test_cases.py:69-106 | the nested loops produce the combinations `Generated` defines, for either duplicate check |
| TestCases.SortSameMembers | test/data_generators/generate_test_cases.py:104 | sorting a candidate keeps exactly its columns |
| TestCases.CandidateGood | test/data_generators/generate_test_cases.py:85-104 | a valid candidate, sorted, is sorted, uses only required and optional columns, keeps every required column that is not inferable, and can infer every required column it lacks |
| TestCases.StepGood | test/data_generators/generate_test_cases.py:94-104 | one step keeps every stored combination good |
| TestCases.ForBaseGood | test/data_generators/generate_test_cases.py:92-104 | the removals for one base keep every stored combination good |
| TestCases.ForSubsetsGood | test/data_generators/generate_test_cases.py:80-104 | the loops over the optional subsets keep every stored combination good |
| TestCases.GeneratedGood | test/data_generators/generate_test_cases.py:69-106 | every generated combination is good, as written and corrected |
| TestCases.ForBaseKeeps | test/data_generators/generate_test_cases.py:92-104 | the removals for one base only add combinations: whatever was stored stays stored |
| TestCases.StepStores | test/data_generators/generate_test_cases.py:94-104 | after a valid removal its sorted candidate is stored, under either duplicate check |
| TestCases.ForBaseStores | test/data_generators/generate_test_cases.py:92-104 | every valid removal tried against a base leaves its sorted candidate stored |
| TestCases.ForSubsetsStores | test/data_generators/generate_test_cases.py:80-104 | every valid removal of every optional subset leaves its sorted candidate among the combinations |
| TestCases.GeneratedComplete | test/data_generators/generate_test_cases.py:69-106 | nothing valid is missed: for each optional subset and each valid removal of inferable base columns, the sorted remaining columns are generated, as written and corrected |
| TestCases.ForBaseNoDup | test/data_generators/generate_test_cases.py:103-104 | with the sorted candidate checked, the removals for one base never store a combination twice |
| TestCases.NoDupSnoc | test/data_generators/generate_test_cases.py:103-104 | appending a combination not yet stored keeps the list free of repeats |
| TestCases.ForSubsetsNoDup | test/data_generators/generate_test_cases.py:80-104 | with the sorted candidate checked, the loops over the subsets never store a combination twice |
| TestCases.GeneratedNoDup | test/data_generators/generate_test_cases.py:69-106 | the corrected generator lists each combination once |
| TestCases.StepAdds | test/data_generators/generate_test_cases.py:103-104 | as written, a valid removal whose unsorted candidate is not among the stored combinations appends the sorted candidate |
| TestCases.KeepAllNew | test/data_generators/generate_test_cases.py:92-104 | removing nothing from a base longer than every stored combination stores the sorted base |
| TestCases.SecondBaseRemove | test/data_generators/generate_test_cases.py:103-104 | removing an always-inferable optional column brings back required columns already stored sorted, and as written they are stored again |
| TestCases.SecondBase | test/data_generators/generate_test_cases.py:92-104 | the removals for the base with the optional column store the three columns, then the required columns a second time |
| TestCases.UnsortedCheckDuplicates | test/data_generators/generate_test_cases.py:103-104 | as written, with required columns listed out of sorted order and one always-inferable optional column, the first and third generated combinations are the same |
| TestCases.UnsortedCheckDuplicatesExample | test/data_generators/generate_test_cases.py:23-31 | with the generator's own rules (`in_discount_total` always inferable), required `in_quantity`, `in_dt` gives a repeated combination |
| Markdown.Kinds | notebooks/insights/notebook_to_pdf.py:155-156 | one kind per line of the cell |
| Markdown.KindsAt | notebooks/insights/notebook_to_pdf.py:156-209 | a line's kind is what the if/elif chain makes of the line once stripped |
| Markdown.FenceKind | notebooks/insights/notebook_to_pdf.py:182 | both directions: a stripped line opens a code block exactly when it starts with three backticks and no earlier branch takes it |
| Markdown.KindFence | notebooks/insights/notebook_to_pdf.py:182-186 | the opening test and the closing test of a code block agree on every line |
| Markdown.FenceEnd | notebooks/insights/notebook_to_pdf.py:185-188 | the inner loop stops at the first closing fence after the opening one, or at the end of the cell |
| Markdown.FenceEndIs | notebooks/insights/notebook_to_pdf.py:185-188 | the stop is wherever the first fence is |
| Markdown.ParseNext | notebooks/insights/notebook_to_pdf.py:158-211 | a blank line yields nothing and any other non-fence line yields exactly its element, then parsing goes on at the next line |
| Markdown.ParseFence | notebooks/insights/notebook_to_pdf.py:182-191 | a code block yields the code element of its lines, when there are any, and parsing resumes after the closing fence |
| Markdown.CollectCode | notebooks/insights/notebook_to_pdf.py:184-188 | the collected code lines are exactly the raw lines up to the first closing fence |
| Markdown.ClassifyLine | notebooks/insights/notebook_to_pdf.py:156-209 | one line is stripped and classified as the chain of branches says |
| Markdown.ParseStep | notebooks/insights/notebook_to_pdf.py:156-211 | one pass of the outer loop advances the index and emits the first part of what the rest of the cell yields |
| Markdown.ParseMarkdown | notebooks/insights/notebook_to_pdf.py:144-213 | the loop yields exactly the elements the line-by-line reading of the cell defines |
| Markdown.ParseCount | notebooks/insights/notebook_to_pdf.py:155-211 | from any line on, never more elements than lines left |
| Markdown.ParseAtMostOnePerLine | notebooks/insights/notebook_to_pdf.py:144-213 | a cell never yields more elements than it has lines |
| Markdown.ParseBlank | notebooks/insights/notebook_to_pdf.py:158-160 | blank lines yield nothing |
| Markdown.BlankCell | notebooks/insights/notebook_to_pdf.py:144-213 | a cell of blank or whitespace-only lines yields no element |
| Markdown.FormatRemovesMarks | notebooks/insights/notebook_to_pdf.py:198-209 | body text keeps no `*` and no backtick: each became a tag |
| Markdown.ItalicRemoves | notebooks/insights/notebook_to_pdf.py:204 | after the italic step no `*` is left |
| Markdown.FontOpenClean | notebooks/insights/notebook_to_pdf.py:206 | the inline-code tag brings in neither a backtick nor a `*` |
| Markdown.InlineCodeRemoves | notebooks/insights/notebook_to_pdf.py:206-207 | after the inline-code step no backtick is left, and no `*` comes in |
| Markdown.BoldHead | notebooks/insights/notebook_to_pdf.py:202 | after `**` is replaced no two neighbouring `*` remain, and the text leads with `*` only when the input led with a lone `*` |
| Markdown.ReplacePairAbsent | notebooks/insights/notebook_to_pdf.py:202 | the second `**` replace finds nothing once the first has run |
| Markdown.FormatCollapses | notebooks/insights/notebook_to_pdf.py:202-207 | the closing-tag replaces never fire: every `**`, `*` and backtick becomes an opening tag |
| Markdown.FormatPlain | notebooks/insights/notebook_to_pdf.py:198-209 | body text without `*` or backtick is passed through unchanged |
| Markdown.Heading1 | notebooks/insights/notebook_to_pdf.py:163-164 | `# ` is dropped and the rest is a title paragraph |
| Markdown.Heading2 | notebooks/insights/notebook_to_pdf.py:165-166 | `## ` is dropped and the rest is a second-level heading |
| Markdown.Heading3 | notebooks/insights/notebook_to_pdf.py:167-168 | `### ` is dropped and the rest is a third-level heading |
| Markdown.Heading4 | notebooks/insights/notebook_to_pdf.py:169-170 | `#### ` is dropped and the rest shares the third level's style |
| Markdown.BulletItems | notebooks/insights/notebook_to_pdf.py:173-175 | `- ` and `* ` items become the bullet mark followed by the item's text |
| Markdown.NumberedItems | notebooks/insights/notebook_to_pdf.py:178-179 | a digit, `.` or `)`, and a space: the line is kept verbatim as a bullet |
| Markdown.HorizontalRules | notebooks/insights/notebook_to_pdf.py:194-195 | each of the three rules yields a spacer |
| Markdown.ClassifyWellFormed | notebooks/insights/notebook_to_pdf.py:162-209 | every line element is a paragraph in one of the custom styles or a spacer |
| Markdown.ParseWellFormed | notebooks/insights/notebook_to_pdf.py:155-211 | the parser emits only elements its lines classify to, and code elements |
| Markdown.ParseShapes | notebooks/insights/notebook_to_pdf.py:144-213 | every emitted element has one of the shapes the converter renders |
| Markdown.UnclosedFence | notebooks/insights/notebook_to_pdf.py:182-191 | a fence never closed turns the rest of the cell into one code block |
| Markdown.CodeRoundTrip | notebooks/insights/notebook_to_pdf.py:184-191 | a non-empty block yields one code element whose text splits back into exactly its raw, unstripped lines; an empty block yields nothing |

## Left out

- **Persistence and I/O.** Filesystem and JSON/CSV persistence are I/O and are not modelled:
  - the registry's `save_to_filesystem`, `load_from_filesystem`, `get_feature_index`, `load_common_features`, the master-config and `save_model`/`load_model` methods;
  - everything in `src/core/persistence.py` except `_get_columns_to_save`;
  - the context's `save_state`, `load_state`, `print_summary` and `get_execution_summary`.
- **The feature index.** The index read from the filesystem is a parameter. The resolver reads it as `deps`, the argument list of every resolvable feature. Synthetic selection reads it as `index`.
- **Compiling `udf` code.** `exec` in `compile_features` and in `_analyze_dict` (src/features/analyzer.py:185-205) is dynamic compilation. A compiled feature is the value `Compiled(name, code)`, so the `ValueError` raised when `exec` defines no function of that name is not modelled.
- **`__globals__` injection.** It is modelled as a map from names to values. Only its key-set contract is modelled: missing keys are added and existing ones kept.
- **Feature bodies.** `np.vectorize` and the bodies themselves are the opaque `Eval` parameter. `calculate_filter` applies it row by row, with scalars broadcast. `calculate_attribute` applies it once. Numeric results and dtype coercion are not modelled.
- **pandas grouping.** `DataFrame.groupby()` is a parameter: the groups, each a key and its rows. `ProcessAllGroups` gets them already split and requires that they fit `group_by`.
- **pandas' left merge.** `_merge_external_data` (src/execution/groupby.py:190-260) is modelled in `Merge`, and `Executor.RunGroups` runs it before the groups. The pandas `merge` itself is a parameter, `join`. The model relies on two of its properties: it keeps tables well formed (`JoinOk`), and, when no name clashes, it lists the left columns and then the right table's non-key columns (`JoinLayout`). Which rows match, and the `_x`/`_y` suffixes pandas adds on a clash, are not modelled.
- Merge.MergeableEntry: the merge is modelled for entries whose `join_on`, when present, is a column name or a list of them. `execute_model` rejects every other `join_on` before merging (`Executor.EntryFailure`, `Executor.PassedIsMergeable`), so only `_merge_external_data` called on its own, outside the executor, with such a value is left out.
- ExternalData.EntryShape: `external_data` must be a dictionary, and, outside `validate_external_sources`, so must each entry. `ExternalData.PrepareExternalData`, `Executor.EntryFailureMeaning`, `Executor.ExecuteModel` and the other executor guards require it. Indexing a value that is not a dictionary raises a `TypeError` whose wording depends on the Python version, and that error is not modelled. Validation models a non-dictionary entry: it raises `AttributeError` on `.get`.
- ExternalData.ColumnsNamed: a `columns` list holding something other than names is not modelled where the list is used. `Executor.ExecuteModel`, `Executor.Admitted` and `Executor.PassedIsMergeable` require named columns (`ColumnsShape`), because the merge selects them. Validation and the executor's entry checks only read `columns` and do not require it.
- ExternalData.ListableEntry: `ExternalData.ExternalColumnNames` requires named `columns`. With `columns` equal to `'ALL'`, it also requires that a truthy `source` be a string. For a non-string source, `get_dataset` would raise `AttributeError`, and listing is not modelled as failing.
- PyValues.LabelRepr: a function used as a join label prints as `<function name>`; the memory address Python adds is not modelled.
- Merge.EntryPiece: pandas prints a long `Index` over several lines, and abbreviates a very long one, in its "None of" message; the model writes the `Index` on one line. Python's quoting of a `KeyError` message is not modelled either.
- **`dropna(axis=1, how='all')`.** This is `Frames.DropAllMissingColumns`. Missing cells are one `Value` constructor, so NaN and `None` are not told apart.
- **Logging and clocks.** Logging is left out everywhere. Timestamps are too: the context's history entries, its run identifier, and execution times in `ModelOutput`.
- **pandas type conversion and date parsing.** `pd.to_datetime` and `pd.to_numeric` in `TypeConverter` are left out. So are date-format checks and the float data-quality percentages in `validators.py`: `Validators.ValidateAll` takes their outcomes as inputs.
- **Row labels.** Rows are numbered `0..n-1`: `df.index` is taken to be the default range index, as it is for freshly read data.
- **Strings.** `str.lower` changes only ASCII letters. `str.isdigit` accepts only the ASCII digits. `str.strip` removes Python's whitespace characters. Unicode case folding and other digit classes are not modelled. A list of names is rendered as Python's `repr` renders it when no name holds a quote or backslash; the switch to double quotes and the escaping Python applies otherwise are not modelled.
- **Set iteration order.** `ALLOWED_COLUMNS` is a Python set, whose iteration order is not defined. The order in which `detect_applicable_features` visits the targets is a parameter, `allowedOrder`.
- **`execute_model` inside `enrich`.** Its filters output is a parameter, `execute`, of `Synthetic.Enrich`. `None` stands for a run that raised or produced nothing.
- **Resolver termination.** `_resolve_feature` keeps no visited set: on a dependency cycle it recurses until Python's `RecursionError`. The model requires an acyclic argument graph, stated as a ghost `rank` that decreases along every edge the walk can take (`Resolver.Acyclic`). So cyclic configurations are not modelled, including those whose cycle lies among features the outputs never reach, on which the source would not loop. The resolver and synthetic selection carry this precondition.
- **`merge_dicts(mutate=True)`.** Only copy mode is modelled. The in-place mode returns the same merged contents but also updates the caller's `base`, an aliasing effect that dictionary values cannot show.
- **`filter_columns(as_list=False)`.** It returns `df[result_cols]`, the table restricted to the listed columns. Only the column list (`as_list=True`) is modelled.
- **The rest of `notebook_to_pdf.py`.** This is reportlab, PIL, base64 and file output. Only `parse_markdown` is modelled.
- **The rest of the repository.** Excel export, orchestration, `schema.py`, plotting and analytics scripts, network checks, random or clock-driven test fixtures, and `__init__.py` re-exports are outside this model.
- Synthetic.LuckPercentage: the percentage is an exact real; the rounding of Python's float division is not modelled.
- Calculator.CalculateFilter: the result is stated as one value per row. numpy's conversion of the results into an array dtype is not modelled.
- ValidationUtils.ValidateValueRange: values and bounds are integers. Python accepts any values that `<` and `>` compare, such as floats, dates or strings; those comparisons, and the error a mixed-type comparison raises, are not modelled. `ValidationUtils.RangeErrors` states its iff only for this total order.
- Resolver.DepsOf: when `load_from_filesystem` stores an indexed feature under a scope in which `get_feature` then does not look (the store's current model differs from the resolver's model, or there is none), `get_feature` returns `None` and the source raises `AttributeError`; the model gives that feature no arguments instead. Loads of other features are not applied to the snapshot, so a scoped key that collides with another feature's key is not modelled.
- Executor.FieldDict: a function object in `feature_funcs` is the value `PFunc` holding only its `__name__`, so two functions of the same name are not told apart; the engine receives the analysis itself, as the plan's metadata, rather than reading these entries back.
- Results.OperationResult.constructor: only `success` is a parameter. The dataclass also accepts initial `data`, `errors`, `warnings` and `metadata`; every call site in the modelled code passes `success` alone, so a result always starts with no errors and no warnings.
- **Non-dict schema entries.** `Transformers.MapColumns` and `Validators.ValidateRowLevelRequiredFields` require every `column_schema` entry to be a dict (`SchemaShape`). On another value the source fails differently: `col_spec.get(...)` raises `AttributeError` (src/preprocessing/transformers.py:47), and `'source_column' in spec` is a substring test on a string (src/preprocessing/validators.py:223). Those cases are not modelled.
- Calculator.InjectGlobals: the globals are a map from names to bindings. The identity of the injected objects is not modelled, and its contract is the one `InjectFrom` states for any list of names.
- Config.ConfigManager.GetRuntimeConfig: the source returns the stored dictionary itself, not a copy, so a caller that mutates it changes the manager's entry. Dictionaries are values here, so that aliasing is not modelled; the returned contents are the stored ones.

## Findings

| source | as written | input that shows it | evidently intended | confidence | as-written member | corrected member |
|---|---|---|---|---|---|---|
| src/preprocessing/synthetic.py:150-155 | `input_cols, exec_seq = resolver.resolve_dependencies(...)` unpacks two names from a call that returns three values (src/features/resolver.py:101). Every call raises `ValueError`, which the `except` at lines 171-173 swallows, so no candidate is ever chosen. The same two-name unpack at line 216 makes `enrich` return its input unchanged. | any target whose first candidate resolves to available inputs and is scheduled, e.g. `in_price_unit` from `in_price_total` and `in_quantity` | unpack the three results and test the input columns and the execution sequence | not executed | Synthetic.DetectApplicableFeaturesAsWritten | Synthetic.DetectApplicableFeatures |
| test/data_generators/generate_test_cases.py:103-104 | the unsorted candidate is tested against stored combinations that are all sorted, so a candidate whose columns are stored, sorted, is stored again | required columns `in_quantity`, `in_dt` (not in sorted order) and one optional, always-inferable column `in_discount_total` | store a combination only when its sorted form is not stored yet | not executed | TestCases.UnsortedCheckDuplicatesExample | TestCases.GeneratedNoDup |
