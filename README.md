# xgboost4net binding core, modelled in Dafny

xgboost4net is a thin C# binding over the native XGBoost library. Its core
is the managed side of that binding:

- the error channel, which turns a non-zero native status code into an
  `XGBoostException` carrying the text of the last-error query;
- the matrix wrapper `DMatrix`, in two versions: `Src/XGBoost/DMatrix.cs`,
  whose label and weight setters check the row count, and the older
  `XGBoost/DMatrix.cs`, which does not;
- the model wrapper `Booster`: construction over a cache of matrices, the
  default seed, parameter writes, update, boost, evaluate, predict, save,
  load and release;
- the static `XGBoost.Train` orchestration, which builds the watch arrays
  and the cache and then runs the update/evaluate rounds;
- the clamping hyperparameter holder `TreeSettings`.

The native library is not available to the model. It is an abstract state
machine, the class `NativeApi.Library`:

- it holds the live matrices and boosters, each keyed by its handle, and
  the next handle to hand out;
- it holds the last-error text, the buffer behind the last returned
  pointer, and the last evaluation text;
- a ghost log records every native call with its arguments;
- a call that only reads or frees a handle (the row and column counts,
  reading an info field, the frees) succeeds exactly when that handle is
  live;
- every other call may fail for reasons the binding cannot see, and a failed
  call changes only the last-error text.

Each wrapper operation is specified by the calls it appends to the log and
by the new native state. When a native failure aborts a sequence of
calls, the predicate `ErrorChannel.Aborted` states the result: the log grew
by a non-empty prefix of the planned calls, then by exactly one last-error
query.

Files:

- `native.dfy`: `NativeApi`, the native call surface and integer casts.
- `errors.dfy`: `ErrorChannel`, exceptions and `CheckError`.
- `dmatrix.dfy`: `MatrixWrapper`, `Src/XGBoost/DMatrix.cs`.
- `legacy_dmatrix.dfy`: `LegacyMatrixWrapper`, `XGBoost/DMatrix.cs`.
- `booster.dfy`: `BoosterWrapper`, `Src/XGBoost/Booster.cs`.
- `training.dfy`: `XGBoostApi`, `Src/XGBoost/XGBoost.cs`.
- `tree_settings.dfy`: `TreeParams`, `Src/XGBoost/TreeSettings.cs`.

Notes on the code as written, which the model follows:

- The dense matrix constructors (`Src/XGBoost/DMatrix.cs:58-74`,
  `XGBoost/DMatrix.cs:53-69`) do not compare `data.Length` with
  `nrow * ncol`. They forward any buffer to the native call, and only a
  native failure is reported.
- `Train` writes `evalMatrices[0] = train` (`Src/XGBoost/XGBoost.cs:24`)
  into an array of length `watchers.Count`. With an empty watch list that
  write throws `IndexOutOfRangeException` before the booster is created.
  So the `if (n > 0)` guard at line 43 never sees `n == 0`.
- The loop at `Src/XGBoost/XGBoost.cs:26-30` then writes slot 0 again, with
  the first watcher. The training matrix is evaluated only when it is also
  one of the watchers.
- With a metrics array, `Train` calls the `EvalSet` overload with an `out`
  array (`Src/XGBoost/XGBoost.cs:49`). That overload throws
  `NotImplementedException` (`Src/XGBoost/Booster.cs:118-120`). So the call
  raises right after the first update. The write into `metrics` is
  commented out (`//TODO: Write metrics`, lines 51-52), so the array's
  contents are never touched.
- `Booster` reads matrix handles through `GetHandle()`, which only the
  older `DMatrix` declares (`XGBoost/DMatrix.cs:141-143`).
  `Src/XGBoost/DMatrix.cs:117-121` has a `Handle` property instead. Both
  wrappers here expose one accessor, `GetHandle`.

## Model

| member | source | states |
|---|---|---|
| NativeApi.ToUInt64 | Src/XGBoost/DMatrix.cs:59 | `(ulong)x` lands in [0, 2^64), agrees with `x` modulo 2^64 and keeps every non-negative value unchanged |
| NativeApi.ToInt32 | Src/XGBoost/DMatrix.cs:97 | `(int)n` lands in the 32-bit signed range and agrees with `n` modulo 2^32 |
| NativeApi.CountRoundTrip | Src/XGBoost.Tests/DMatrixTestCase.cs:26-29 | every `int` count, negative ones included, sent as `ulong` and read back as `int` is unchanged |
| NativeApi.MarshalCopy | Src/XGBoost/Booster.cs:133 | `Marshal.Copy` fills the first `length` slots with the buffer's first `length` values and leaves the rest alone |
| NativeApi.Library.XGBGetLastErrorCall | Src/XGBoost/XGBoostNative.cs:22 | logs the query and returns the stored last-error text |
| NativeApi.Library.XGDMatrixCreateFromFileCall | Src/XGBoost/XGBoostNative.cs:32-35 | on success a fresh handle (the next counter value) is live; on failure nothing but the last error changes |
| NativeApi.Library.XGDMatrixCreateFromMatCall | Src/XGBoost/XGBoostNative.cs:47-52 | on success a fresh handle holds a matrix of `nrow` x `ncol` with no info fields; on failure the state is unchanged |
| NativeApi.Library.XGDMatrixNumRowCall | Src/XGBoost/XGBoostNative.cs:103 | succeeds exactly for a live handle and then reports its row count |
| NativeApi.Library.XGDMatrixNumColCall | Src/XGBoost/XGBoostNative.cs:112 | succeeds exactly for a live handle and then reports its column count |
| NativeApi.Library.XGDMatrixFreeCall | Src/XGBoost/XGBoostNative.cs:119 | removes the handle; the status is 0 exactly when it was live |
| NativeApi.Library.XGDMatrixGetFloatInfoCall | Src/XGBoost/XGBoostNative.cs:130-134 | succeeds exactly for a live handle; the returned buffer is the stored field and the length is its size |
| NativeApi.Library.XGDMatrixSetFloatInfoCall | Src/XGBoost/XGBoostNative.cs:145-149 | on success the field holds the first `length` values, and only that field of that matrix changes |
| NativeApi.Library.XGDMatrixSliceDMatrixCall | Src/XGBoost/XGBoostNative.cs:160-164 | on success a new handle holds a matrix with one row per index, and the source stays live |
| NativeApi.Library.XGBoosterCreateCall | Src/XGBoost/XGBoostNative.cs:174-177 | on success a fresh handle holds a model over the first `length` cache handles, with no parameters and no events |
| NativeApi.Library.XGBoosterFreeCall | Src/XGBoost/XGBoostNative.cs:185 | removes the booster; the status is 0 exactly when it was live |
| NativeApi.Library.XGBoosterSetParamCall | Src/XGBoost/XGBoostNative.cs:195-198 | on success appends (name, value) to the booster's parameter writes |
| NativeApi.Library.XGBoosterUpdateOneIterCall | Src/XGBoost/XGBoostNative.cs:208-211 | on success the booster and the training matrix were live and an `Updated(iter, dtrain)` event is recorded |
| NativeApi.Library.XGBoosterBoostOneIterCall | Src/XGBoost/XGBoostNative.cs:225-230 | on success the booster and the training matrix were live and a `Boosted` event with the first `len` gradient and hessian values is recorded |
| NativeApi.Library.XGBoosterEvalOneIterCall | Src/XGBoost/XGBoostNative.cs:243-249 | on success the booster and the first `len` matrices were live; returns the evaluation text and records an `Evaluated` event over those matrices and names |
| NativeApi.Library.XGBoosterPredictCall | Src/XGBoost/XGBoostNative.cs:271-277 | never changes the state; on success the length is the size of the returned buffer |
| NativeApi.Library.XGBoosterSaveModelCall | Src/XGBoost/XGBoostNative.cs:281 | never changes the state; success implies a live booster |
| NativeApi.Library.XGBoosterLoadModelCall | Src/XGBoost/XGBoostNative.cs:290-292 | on success records a `Loaded(fname)` event on the live booster |
| ErrorChannel.Check | Src/XGBoost/XGBoostError.cs:18-22 | passes exactly when the status is 0, and any non-zero status (not only -1) fails with the last-error text verbatim |
| ErrorChannel.ErrorQuery | Src/XGBoost/XGBoostError.cs:19-20 | no extra call when nothing failed, and exactly one last-error query when something did |
| ErrorChannel.CheckError | Src/XGBoost/XGBoostError.cs:18-22 | the outcome is `Check` of the status and current last error; a zero status makes no further native call, a non-zero one makes exactly the last-error query |
| ErrorChannel.AbortedAtFirst | Src/XGBoost/XGBoostError.cs:18-22 | failing the first planned call aborts the whole plan |
| ErrorChannel.AbortedExtend | Src/XGBoost/XGBoostError.cs:18-22 | an abort of a plan is an abort of every longer plan it begins, so an uncaught failure skips all later calls |
| ErrorChannel.AbortedShift | Src/XGBoost/XGBoostError.cs:18-22 | calls completed before a failing sub-plan join the plan that was aborted |
| MatrixWrapper.Handles | Src/XGBoost/Booster.cs:24 | the handle array has one entry per matrix, position by position |
| MatrixWrapper.DMatrix.constructor | Src/XGBoost/DMatrix.cs:80-82 | the protected constructor adopts the given handle |
| MatrixWrapper.DMatrix.FromFile | Src/XGBoost/DMatrix.cs:43-49 | a null path raises `ArgumentNullException("filePath")` before any native call; otherwise one quiet (silent = 1) load; on success a fresh live handle, on failure an `XGBoostException` and no new handle |
| MatrixWrapper.DMatrix.FromDense | Src/XGBoost/DMatrix.cs:58-61 | one dense create with missing value 0 and the counts cast to `ulong`; on success exactly one new matrix of that shape |
| MatrixWrapper.DMatrix.FromDenseWithMissing | Src/XGBoost/DMatrix.cs:71-74 | the same with the caller's missing value; no length check on `data` |
| MatrixWrapper.DMatrix.GetHandle | Src/XGBoost/DMatrix.cs:117-121 | the `Handle` property returns the native handle the wrapper owns |
| MatrixWrapper.DMatrix.RowsCount | Src/XGBoost/DMatrix.cs:92-98 | succeeds exactly for a live handle and returns `(int)` of its row count; otherwise raises with the last-error text |
| MatrixWrapper.DMatrix.ColumnsCount | Src/XGBoost/DMatrix.cs:105-111 | succeeds exactly for a live handle and returns `(int)` of its column count; otherwise raises |
| MatrixWrapper.DMatrix.GetLabels | Src/XGBoost/DMatrix.cs:128-131 | a fresh array equal to the stored `"label"` vector, or an error for a dead handle |
| MatrixWrapper.DMatrix.SetLabels | Src/XGBoost/DMatrix.cs:132-137 | queries the row count first; a length mismatch raises the labels message with no write; otherwise one write of the whole vector, which alone changes the matrix's `"label"` field |
| MatrixWrapper.DMatrix.GetWeights | Src/XGBoost/DMatrix.cs:145-148 | a fresh array equal to the stored `"weight"` vector, or an error for a dead handle |
| MatrixWrapper.DMatrix.SetWeights | Src/XGBoost/DMatrix.cs:149-154 | as for labels, with the weights message and the `"weight"` field |
| MatrixWrapper.DMatrix.GuardedSet | Src/XGBoost/DMatrix.cs:132-137 | the shared row-count guard, then the write |
| MatrixWrapper.DMatrix.SetFloatInfo | Src/XGBoost/DMatrix.cs:161-164 | one write with length = the vector's length; on success only that field of that matrix changes |
| MatrixWrapper.DMatrix.GetFloatInfo | Src/XGBoost/DMatrix.cs:166-174 | succeeds exactly for a live handle; the fresh array has the reported length and the stored contents |
| MatrixWrapper.DMatrix.Slice | Src/XGBoost/DMatrix.cs:184-189 | on success a new wrapper around a new handle, distinct from the source, with one row per index |
| MatrixWrapper.DMatrix.Dispose | Src/XGBoost/DMatrix.cs:195-212 | frees a held handle exactly once and zeroes it; a second call makes no native call |
| MatrixWrapper.WithField | Src/XGBoost/DMatrix.cs:161-164 | writing a field changes that field to the new vector and no other field or count |
| MatrixWrapper.CreateFromDenseMatrix | Src/XGBoost.Tests/DMatrixTestCase.cs:17-30 | a matrix built as `nrow` x `ncol` reports exactly those counts, and neither query can fail after a successful build |
| MatrixWrapper.SetThenGetLabels | Src/XGBoost/DMatrix.cs:128-137 | labels written successfully read back unchanged |
| MatrixWrapper.SliceOutlivesSource | Src/XGBoost/DMatrix.cs:184-189 | disposing the source leaves the slice live with one row per requested index |
| LegacyMatrixWrapper.DMatrix.constructor | XGBoost/DMatrix.cs:75-77 | adopts the given handle |
| LegacyMatrixWrapper.DMatrix.FromFile | XGBoost/DMatrix.cs:38-44 | a null path raises `ArgumentNullException("filePath")` before any native call; otherwise one quiet load whose success yields a fresh live handle and touches no other matrix and no booster |
| LegacyMatrixWrapper.DMatrix.FromDense | XGBoost/DMatrix.cs:53-56 | one dense create with missing value 0; on success the only change to the native state is one new matrix of that shape under the next handle |
| LegacyMatrixWrapper.DMatrix.FromDenseWithMissing | XGBoost/DMatrix.cs:66-69 | the same with the caller's missing value |
| LegacyMatrixWrapper.DMatrix.SetLabels | XGBoost/DMatrix.cs:84-87 | one write of the whole vector with no row-count query or check; on success only the `"label"` field changes |
| LegacyMatrixWrapper.DMatrix.GetFloatInfo | XGBoost/DMatrix.cs:89-97 | succeeds exactly for a live handle; the fresh array equals the stored vector |
| LegacyMatrixWrapper.DMatrix.GetLabels | XGBoost/DMatrix.cs:104-106 | a fresh array of exactly the stored `"label"` vector |
| LegacyMatrixWrapper.DMatrix.Slice | XGBoost/DMatrix.cs:108-113 | on success the source was live and a new wrapper around a new handle with `rowIndex.Length` rows is the only change; no other matrix or booster changes |
| LegacyMatrixWrapper.DMatrix.GetRowNumber | XGBoost/DMatrix.cs:120-124 | never raises and makes no last-error query; for a live handle returns `(int)` of its row count |
| LegacyMatrixWrapper.DMatrix.GetColNumber | XGBoost/DMatrix.cs:131-135 | never raises and makes no last-error query; for a live handle returns `(int)` of its column count |
| LegacyMatrixWrapper.DMatrix.GetHandle | XGBoost/DMatrix.cs:141-143 | `GetHandle()` returns the native handle the wrapper owns |
| LegacyMatrixWrapper.DMatrix.Dispose | XGBoost/DMatrix.cs:149-166 | frees a held handle once, after which `GetHandle` reads zero; with no handle, no native call |
| LegacyMatrixWrapper.DisposeTwice | XGBoost/DMatrix.cs:149-166 | disposing twice makes exactly one free call and leaves the handle at zero |
| BoosterWrapper.SetParamCalls | Src/XGBoost/Booster.cs:64-70 | one set-param call per write |
| BoosterWrapper.SetParamCallsAt | Src/XGBoost/Booster.cs:64-70 | set-param call `i` carries the key and value of write `i` |
| BoosterWrapper.SetParamCallsAppend | Src/XGBoost/Booster.cs:64-70 | the calls for two write lists in a row are the calls of each, in order |
| BoosterWrapper.SetParamCallsPrefix | Src/XGBoost/Booster.cs:64-70 | the calls for a prefix of the writes are the same prefix of the calls, which is where a failing write stops |
| BoosterWrapper.EffectiveLastWrite | Src/XGBoost/Booster.cs:54-57 | a write that no later write of the same key follows determines the key's value |
| BoosterWrapper.EffectiveUnwritten | Src/XGBoost/Booster.cs:54-57 | a key never written has no value |
| BoosterWrapper.CallerParameterWins | Src/XGBoost/Booster.cs:27-28 | every caller entry, `seed` included, overrides the default seed written before it |
| BoosterWrapper.DefaultSeedKept | Src/XGBoost/Booster.cs:27-28 | without a caller `seed` the booster's seed is "0" |
| BoosterWrapper.UnlistedKeyUnset | Src/XGBoost/Booster.cs:27-28 | a key that is neither `seed` nor among the caller's entries holds no value after construction |
| BoosterWrapper.OptionMask | Src/XGBoost/Booster.cs:124-125 | the mask is 2 exactly when leaves are asked for, 1 exactly for margin without leaves, and 0 otherwise |
| BoosterWrapper.WithParams | Src/XGBoost/Booster.cs:54-57 | parameter writes never touch the matrices or the handle counter |
| BoosterWrapper.WithParamsNone | Src/XGBoost/Booster.cs:64-70 | no writes, no change (the null or empty dictionary) |
| BoosterWrapper.WithParamsTwice | Src/XGBoost/Booster.cs:64-70 | writes in two batches equal the concatenated writes |
| BoosterWrapper.CreatedThenConfigured | Src/XGBoost/Booster.cs:25-28 | a new booster configured with some writes holds exactly those writes |
| BoosterWrapper.WithEvents | Src/XGBoost/Booster.cs:78-81 | training steps never touch the matrices or the handle counter |
| BoosterWrapper.WithEventsNone | Src/XGBoost/Booster.cs:78-81 | no steps, no change |
| BoosterWrapper.WithEventsTwice | Src/XGBoost/Booster.cs:78-81 | steps in two batches equal the concatenated steps |
| BoosterWrapper.Booster.constructor | Src/XGBoost/Booster.cs:25 | the wrapper holds the handle the create call returned |
| BoosterWrapper.Booster.Create | Src/XGBoost/Booster.cs:23-29 | success makes one create over the cache's handles in order, then the seed write, then one write per caller entry, and yields a new booster holding exactly those writes; a failure at any step raises the last error and skips every later call |
| BoosterWrapper.Booster.CreateOver | Src/XGBoost/Booster.cs:25-28 | the same contract, once the handles are selected |
| BoosterWrapper.Booster.CreateHandle | Src/XGBoost/Booster.cs:25-26 | one create call; on success the handle is fresh and holds an empty model over the cache |
| BoosterWrapper.Booster.AdoptCreated | Src/XGBoost/Booster.cs:27-28 | after a successful create, the seed and caller writes complete the construction plan or abort it, measured from before the create call |
| BoosterWrapper.CreateThenAdopt | Src/XGBoost/Booster.cs:25-28 | a completed create followed by a complete or aborted adoption is a complete or aborted construction |
| BoosterWrapper.Booster.Adopt | Src/XGBoost/Booster.cs:27-28 | wraps the handle and writes the seed and the caller's parameters, stopping at the first failure |
| BoosterWrapper.Booster.Configure | Src/XGBoost/Booster.cs:27-28 | the seed write, then the caller's writes; the first failure aborts the rest |
| BoosterWrapper.Booster.LoadModel | Src/XGBoost/Booster.cs:38-46 | a null path raises `ArgumentNullException("path")` before any native call; otherwise an empty-cache booster with only the default seed, then one load call into that handle; a failure anywhere aborts the remaining calls |
| BoosterWrapper.Booster.SetParameter | Src/XGBoost/Booster.cs:54-57 | one set-param call; success appends exactly that (key, value) write, failure raises and changes nothing |
| BoosterWrapper.Booster.SetParameters | Src/XGBoost/Booster.cs:64-70 | a null dictionary makes no call; otherwise one write per entry in enumeration order, the first failure stopping the rest; on success the booster holds all the writes |
| BoosterWrapper.Booster.Update | Src/XGBoost/Booster.cs:78-81 | one update call with the iteration and the training matrix's handle; success records exactly that step |
| BoosterWrapper.Booster.Boost | Src/XGBoost/Booster.cs:90-96 | unequal gradient and hessian lengths raise `ArgumentException` before any native call; otherwise one boost call with that length, recording exactly that step on success |
| BoosterWrapper.Booster.EvalSet | Src/XGBoost/Booster.cs:106-115 | unequal matrix and name counts raise `ArgumentException` before any native call; otherwise one evaluation over the handles in order, returning the native text on success |
| BoosterWrapper.Booster.EvalSetWithMetrics | Src/XGBoost/Booster.cs:118-120 | always raises `NotImplementedException` |
| BoosterWrapper.Booster.Predict | Src/XGBoost/Booster.cs:123-135 | one predict call with the option mask and tree limit; on success a fresh array equal to the native result |
| BoosterWrapper.Booster.PredictLeaf | Src/XGBoost/Booster.cs:138-140 | always raises `NotImplementedException` |
| BoosterWrapper.Booster.PredictDefault | Src/XGBoost/Booster.cs:143-145 | always raises `NotImplementedException` |
| BoosterWrapper.Booster.PredictWithMargin | Src/XGBoost/Booster.cs:148-150 | always raises `NotImplementedException` |
| BoosterWrapper.Booster.PredictWithLimit | Src/XGBoost/Booster.cs:153-155 | always raises `NotImplementedException` |
| BoosterWrapper.Booster.SaveModel | Src/XGBoost/Booster.cs:161-164 | one save call; never changes the native state |
| BoosterWrapper.Booster.GetModelDump | Src/XGBoost/Booster.cs:167-169 | always raises `NotImplementedException` |
| BoosterWrapper.Booster.GetFeatureScore | Src/XGBoost/Booster.cs:172-174 | always raises `NotImplementedException` |
| BoosterWrapper.Booster.Dispose | Src/XGBoost/Booster.cs:180-197 | frees a held handle exactly once and zeroes it; a second call makes no native call |
| XGBoostApi.Names | Src/XGBoost/XGBoost.cs:26-30 | one name per watcher; name `i` is the key of watcher `i` |
| XGBoostApi.Matrices | Src/XGBoost/XGBoost.cs:26-30 | one matrix per watcher; matrix `i` is the value of watcher `i`, so it pairs with name `i` |
| XGBoostApi.RoundEventsShape | Src/XGBoost/XGBoost.cs:40-46 | `R` rounds record `2R` events on the booster: the update of iteration `i` on the training matrix, then the evaluation of iteration `i` over the watched matrices |
| XGBoostApi.RoundsShape | Src/XGBoost/XGBoost.cs:40-46 | `R` rounds make `2R` calls, alternating update and evaluation, with iteration `i` at positions `2i` and `2i+1` |
| XGBoostApi.RoundsPrefix | Src/XGBoost/XGBoost.cs:40-59 | the calls of fewer rounds are a prefix of the calls of more rounds |
| XGBoostApi.RoundsCut | Src/XGBoost/XGBoost.cs:40-46 | cutting the rounds after round `i`'s update or evaluation gives the first `i` rounds plus that call |
| XGBoostApi.WatcherArrays | Src/XGBoost/XGBoost.cs:21-30 | the name and matrix arrays are the watchers' names and matrices in enumeration order; the training matrix written into slot 0 is overwritten |
| XGBoostApi.AllMatrices | Src/XGBoost/XGBoost.cs:32-36 | the cache is the training matrix followed by the evaluation matrices |
| XGBoostApi.OneRound | Src/XGBoost/XGBoost.cs:41-55 | one update, then one evaluation; with a metrics array the evaluation raises `NotImplementedException` after the update |
| XGBoostApi.AbortedInRound | Src/XGBoost/XGBoost.cs:40-59 | a failure inside round `i` aborts the planned training calls |
| XGBoostApi.RunRounds | Src/XGBoost/XGBoost.cs:40-59 | without metrics, exactly `max(round, 0)` rounds of update then evaluation with iteration numbers 0, 1, ...; the first native failure propagates and stops the loop |
| XGBoostApi.Train | Src/XGBoost/XGBoost.cs:15-61 | no watcher raises `IndexOutOfRangeException` before any native call; otherwise a booster over [train] + watchers with the seed and caller writes, then the rounds; with a metrics array and at least one round, exactly one update and then `NotImplementedException`; any native failure aborts the planned calls |
| XGBoostApi.TrainOn | Src/XGBoost/XGBoost.cs:32-60 | the same, once the arrays are built |
| XGBoostApi.RunCreated | Src/XGBoost/XGBoost.cs:40-59 | the rounds on a booster just created complete the whole training plan, abort it, or stop with `NotImplementedException` after the first update when metrics are asked for |
| XGBoostApi.HandlesCons | Src/XGBoost/XGBoost.cs:32-38 | the cache handles are the training handle followed by the evaluation handles |
| XGBoostApi.CreatedThenRan | Src/XGBoost/XGBoost.cs:38-59 | a new booster that then runs some steps holds exactly those steps |
| XGBoostApi.LoadModel | Src/XGBoost/XGBoost.cs:11-13 | the same contract as `Booster.LoadModel` |
| TreeParams.LearningRateStored | Src/XGBoost/TreeSettings.cs:56-60 | the stored value is in [0, 1]; it equals the input exactly when the input is in [0, 1], and is 0.6 otherwise |
| TreeParams.MinSplitLossStored | Src/XGBoost/TreeSettings.cs:77 | the stored value is at least 0; it equals the input exactly when the input is at least 0, and is 0 otherwise |
| TreeParams.MaxDepthStored | Src/XGBoost/TreeSettings.cs:93 | the stored value is at least 1; it equals the input exactly when the input is at least 1, and is 6 otherwise |
| TreeParams.MinChildWeightStored | Src/XGBoost/TreeSettings.cs:111 | the stored value is at least 0; it equals the input exactly when the input is at least 0, and is 1 otherwise |
| TreeParams.MaxDeltaStepStored | Src/XGBoost/TreeSettings.cs:128 | the stored value is at least 0; it equals the input exactly when the input is at least 0, and is 0 otherwise |
| TreeParams.SubsampleStored | Src/XGBoost/TreeSettings.cs:144-148 | the stored value is in (0, 1]; it equals the input exactly when the input is in (0, 1], and is 1 otherwise |
| TreeParams.TreeSettings.constructor | Src/XGBoost/TreeSettings.cs:25-36 | max_depth 6, min_child_weight 1, max_delta_step 0, learning_rate 0.6, min_split_loss 0, subsample 1, and nothing else, all in range |
| TreeParams.TreeSettings.LearningRate | Src/XGBoost/TreeSettings.cs:52-54 | the value read is in [0, 1] |
| TreeParams.TreeSettings.MinSplitLoss | Src/XGBoost/TreeSettings.cs:73-75 | the value read is at least 0 |
| TreeParams.TreeSettings.MaxDepth | Src/XGBoost/TreeSettings.cs:89-91 | the value read is at least 1 |
| TreeParams.TreeSettings.MinChildWeight | Src/XGBoost/TreeSettings.cs:107-109 | the value read is at least 0 |
| TreeParams.TreeSettings.MaxDeltaStep | Src/XGBoost/TreeSettings.cs:124-126 | the value read is at least 0 |
| TreeParams.TreeSettings.Subsample | Src/XGBoost/TreeSettings.cs:140-142 | the value read is in (0, 1] |
| TreeParams.TreeSettings.SetLearningRate | Src/XGBoost/TreeSettings.cs:55-61 | stores the clamped value under its own key only, keeps every range, and reads back the input exactly when it is in range |
| TreeParams.TreeSettings.SetMinSplitLoss | Src/XGBoost/TreeSettings.cs:76-78 | stores the clamped value under its own key only, keeps every range, and reads back the input exactly when it is in range |
| TreeParams.TreeSettings.SetMaxDepth | Src/XGBoost/TreeSettings.cs:92-94 | stores the clamped value under its own key only, keeps every range, and reads back the input exactly when it is in range |
| TreeParams.TreeSettings.SetMinChildWeight | Src/XGBoost/TreeSettings.cs:110-112 | stores the clamped value under its own key only, keeps every range, and reads back the input exactly when it is in range |
| TreeParams.TreeSettings.SetMaxDeltaStep | Src/XGBoost/TreeSettings.cs:127-129 | stores the clamped value under its own key only, keeps every range, and reads back the input exactly when it is in range |
| TreeParams.TreeSettings.SetSubsample | Src/XGBoost/TreeSettings.cs:143-149 | stores the clamped value under its own key only, keeps every range, and reads back the input exactly when it is in range |

## Left out

- The native library's numerics are not modelled: what training, evaluation and prediction compute, and the contents of matrices loaded from files. The native side is an abstract state machine whose calls may fail at any time.
- Floating point: `float` is modelled as `real`. `0.6f` is taken as exactly 0.6. The IEEE details are not captured, such as NaN failing every comparison, which makes every floating-point `TreeSettings` setter store its default for NaN.
- Marshalling: `IntPtr` becomes a natural-number handle and `Marshal.Copy` becomes a copy from a sequence. The `(int)` cast of a native-reported buffer length in `GetFloatInfo` and `Predict` is not modelled: the length is taken as a non-negative count.
- Console output: `Train` prints the evaluation text each round, which is I/O and is left out. The metrics array is modelled only as present or null, because the code never writes it.
- Null arguments other than the file path and model path are left out. A null watch list, label array, parameter value or matrix raises `NullReferenceException` in the code. A null cache array raises `ArgumentNullException` from the `Select` call of `Booster`.
- Finalizers (`~DMatrix`, `~Booster`) are left out: they run `Dispose(false)`, which does the same as `Dispose()`, at a time the garbage collector chooses.
- Dictionary enumeration order is taken to be the order of the given sequence, for both the parameters and the watchers. A parameter value is modelled as the string its `ToString()` gives.
- The following are not part of this model: the CSR/CSC constructors and the `SparseType` enum, `XGBoosterDumpModel`, `XGBoost/XGBClassifier.cs`, `Src/XGBoost/XGBoostLoader.cs`, `Src/XGBoost/Program.cs` and `Src/XGBoost/LabeledPoint.cs`.
- The auto-properties of `TreeSettings` (`Estimators` through `Booster`, lines 153-190) are left out. They are plain storage with no logic, and no other code reads them.
- NativeApi.Library.XGBoosterSaveModelCall: the file written is not modelled, so a later `LoadModel` of that path is not connected to the saved booster.
- Use after free and the zero handle: in the native library a freed or zero handle is undefined behaviour. The model instead treats any handle that is not live as a clean non-zero status, with the state unchanged; the legacy count queries, which ignore the status, then return an unspecified value.
- Concurrent use of one library or one handle from several threads is not modelled.
