# Parallel fit/predict orchestration of ML-Ensemble, modelled in Dafny

This project models the bookkeeping in `mlens/parallel/fit_predict.py`. That
module fans fit, predict and score jobs for an estimator ensemble out to a
worker pool, collects the results and assembles them:

- `_parallel_estimation` is the shared dispatch primitive. It submits one job
  per pair of a data tuple and an estimator of that tuple's preprocessing
  case. The case key is the tuple's last element. Jobs go out in
  data-tuple-major, estimator-minor order. Each job gets the single argument
  `optional_args + (tup, est)`.
- `_pre_check_estimators` keeps the caller's candidate column names that
  appear as the first component of some result, in the caller's order.
- `base_predict` chooses one of three prediction functions from two flags,
  dispatches it, pre-checks the names and builds the prediction matrix,
  optionally labelled as a table.
- `fit_estimators` dispatches the fit-only function with the labels as a
  constant argument. It then groups the successful fits by case in a
  dictionary that it builds up in place.
- `cross_validate` enumerates the grid of folds × estimators × parameter
  sets and scores each combination.

The worker pool returns results in submission order. The model therefore
treats it as a sequential map of the work function over the ordered job list
(`Dispatch.RunAll`). The pool size and verbosity do not affect results and
are not parameters. The work functions, the matrix assembly and the table
wrapper come from code that is not part of this model. They appear as
function-valued parameters and type parameters, so every statement proved
here holds for every estimator, result payload and prediction function.

Python's own errors are part of the model, as a `Result` with `IndexError`,
`KeyError` or `ValueError` (`outcome.dfy`):

- `tup[-1]` on an empty data tuple raises `IndexError`.
- A case key missing from `estimator_cases` raises `KeyError`, and so does an
  estimator name missing from `param_sets`.
- The unpacking of `zip(*out)` raises `ValueError` when it yields neither
  three nor two tuples.

A prediction result is modelled as the sequence of its components, so
`zip(*out)` is exact. It yields as many tuples as the shortest result has
components, and none for an empty `out`. As a result, mixed 2- and 3-tuples
are accepted, and an empty result list is rejected. The `fitted_estimators`
dictionary keeps its key insertion order (`FitRegistry.Registry.order`),
which is the iteration order Python guarantees from version 3.7; the same
holds for `estimators.items()` in `cross_validate`. Under earlier versions,
which the module's `from __future__` import still admits, dictionary order
is arbitrary and the order statements hold only for that insertion order.

Files: `outcome.dfy` (Option, Error, Result), `dispatch.dfy`,
`pre_check.dfy`, `predict.dfy`, `fit_registry.dfy`, `cross_validation.dfy`.

Some consequences of the code that a reader might not expect:

- The comprehension at lines 116-121 yields `len(dout) * sum(len(param_sets[n]))`
  jobs; the number of estimators is not a separate factor
  (`CrossValidation.ScoreJobs`).
- A case key absent from `estimator_cases` raises KeyError at line 65; no job
  is silently omitted (`Dispatch.FirstError`).
- `cross_validate` only looks up `param_sets[est_name]` inside the fold loop.
  With no folds, missing parameter lists raise nothing
  (`CrossValidation.MissingParamsWithFolds`).

## Model

| member | source | states |
|---|---|---|
| `Dispatch.EnumerateJobs` | mlens/parallel/fit_predict.py:62-65 | the job generator succeeds exactly when every data tuple is non-empty and its last element is a case key; it then yields `JobCount` jobs (the sum of the case list lengths); its only errors are IndexError and KeyError |
| `Dispatch.JobsFromData` | mlens/parallel/fit_predict.py:63-65 | every job carries the constant prefix, one of the data tuples, and an estimator of that tuple's case |
| `Dispatch.ParallelEstimation` | mlens/parallel/fit_predict.py:60-65 | dispatch succeeds exactly when every tuple can be dispatched, and returns one result per job, `sum(len(estimator_cases[tup[-1]]))` in all |
| `Dispatch.JobAt` | mlens/parallel/fit_predict.py:63-65 | the job for estimator j of tuple t sits at position (jobs of tuples before t) + j and is `Job(prefix, data[t], estimators[j])`: tuple-major, estimator-minor, each in input order |
| `Dispatch.DispatchOrder` | mlens/parallel/fit_predict.py:60-65 | the result at that position is the work function applied to `add_input + (tup, est)`, with an empty prefix when `optional_args` is None |
| `Dispatch.FirstError` | mlens/parallel/fit_predict.py:64-65 | the job enumeration fails with the error of the first bad tuple: IndexError for an empty tuple, KeyError for an absent case key |
| `Dispatch.DispatchFirstError` | mlens/parallel/fit_predict.py:62-65 | the same error propagates out of dispatch |
| `Dispatch.EmptyCaseNoJob` | mlens/parallel/fit_predict.py:63-65 | a tuple whose case maps to an empty estimator list is carried by no job |
| `Dispatch.EmptyCasesNoJobs` | mlens/parallel/fit_predict.py:65 | if every tuple's case maps to an empty estimator list, the job list is empty |
| `PreCheck.ZipWidth` | mlens/parallel/fit_predict.py:24 | the number of tuples `zip(*out)` yields is the minimum arity of the results (attained by some result), and 0 for an empty `out` |
| `PreCheck.KeepPresent` | mlens/parallel/fit_predict.py:28 | the filtered list is no longer than the columns and contains a name exactly when it is a column and among the result names |
| `PreCheck.PreCheckEstimators` | mlens/parallel/fit_predict.py:21-28 | succeeds exactly when the zip width is 3 or 2 (otherwise ValueError, including for empty `out`); its result is no longer than the columns and holds a name exactly when it is a column and the first component of some result |
| `PreCheck.KeptIndices` | mlens/parallel/fit_predict.py:28 | reference definition of the kept positions: strictly increasing, in range, and holding a position exactly when that column is among the names |
| `PreCheck.KeptLength` | mlens/parallel/fit_predict.py:28 | the list comprehension keeps as many columns as there are kept positions |
| `PreCheck.KeptAt` | mlens/parallel/fit_predict.py:28 | the k-th column the list comprehension keeps is the column at the k-th kept position |
| `PreCheck.PreCheckOrder` | mlens/parallel/fit_predict.py:23-28 | on success the returned names are the caller's columns at exactly the positions whose name is a first component of `out`, in the caller's order (an order-preserving subsequence) |
| `PreCheck.UniformArity` | mlens/parallel/fit_predict.py:23-26 | for non-empty results of one arity, the pre-check succeeds exactly for arity 3 (first unpacking) or 2 (fallback) |
| `PreCheck.MixedArity` | mlens/parallel/fit_predict.py:23-26 | a mixture of 2- and 3-tuples is accepted through the fallback, because zip truncates to the shortest result |
| `PreCheck.CallerOrderExample` | mlens/parallel/fit_predict.py:28 | with columns rf, svm, knn and results for svm then rf, the names are rf, svm |
| `Predict.SelectFunction` | mlens/parallel/fit_predict.py:72-81 | `_fit_predict_base` exactly when folded and fit, `_predict_base` exactly when folded and not fit, `_predict` exactly when not folded |
| `Predict.BasePredict` | mlens/parallel/fit_predict.py:68-92 | succeeds exactly when dispatch and the pre-check succeed; dispatch errors propagate unchanged, otherwise the only error is ValueError; the names are the pre-check's, no more than the columns and all among them; the matrix is the assembly of the dispatch results with those names; a table exactly when `as_df`, labelled with the names |
| `Predict.FitIgnoredWhenNotFolded` | mlens/parallel/fit_predict.py:72-81 | without fold-local predictions the `fit` flag does not change the outcome |
| `Predict.NoJobsRaisesValueError` | mlens/parallel/fit_predict.py:83-86 | when no job is dispatched, `base_predict` raises ValueError from the pre-check |
| `Predict.FittedInColumnOrder` | mlens/parallel/fit_predict.py:83-92 | the returned names are the caller's columns at exactly the positions named by some prediction result, in the caller's order |
| `FitRegistry.GroupFitted` | mlens/parallel/fit_predict.py:100-110 | the loop builds exactly the reference registry `Grouped(out)`; no case maps to an empty list; the pairs stored add up to the number of successful results |
| `FitRegistry.FitEstimators` | mlens/parallel/fit_predict.py:95-110 | succeeds exactly when dispatch (with the prefix `(y,)`) succeeds, propagates its error otherwise, and returns the grouping of the dispatch results |
| `FitRegistry.GroupedSnoc` | mlens/parallel/fit_predict.py:101-108 | one loop step: a result without a name changes nothing; a named one is appended to its case's list, and a new case is first inserted at the end of the key order with a one-element list |
| `FitRegistry.RegistryKeys` | mlens/parallel/fit_predict.py:103-106 | a case is a key exactly when some result of that case has a name; a case whose fits all failed is absent |
| `FitRegistry.RegistryNonEmpty` | mlens/parallel/fit_predict.py:105-108 | every key maps to a non-empty list |
| `FitRegistry.RegistryOrder` | mlens/parallel/fit_predict.py:105-106 | the key insertion order lists exactly the keys, each once |
| `FitRegistry.RegistryContents` | mlens/parallel/fit_predict.py:101-108 | a pair `(est_name, est)` is stored under a case exactly when some named result of that case produced it |
| `FitRegistry.RegistryCount` | mlens/parallel/fit_predict.py:101-108 | the pairs stored under all keys add up to the number of results with a name |
| `FitRegistry.TwoCasesOneFailure` | mlens/parallel/fit_predict.py:100-110 | the grouping stage of the scenario: the results X/m1, Y/m1 and a failed Y/m2, in that order, group to X: [m1], Y: [m1], in that key order |
| `FitRegistry.TwoCasesOneFailureFromInputs` | mlens/parallel/fit_predict.py:95-110 | the scenario from the inputs: tuples of cases X and Y, with estimators m1 for X and m1, m2 for Y, and a fit of m2 that fails: dispatch succeeds and the registry is X: [m1], Y: [m1], X first because its tuple comes first |
| `CrossValidation.FoldJobs` | mlens/parallel/fit_predict.py:120-121 | the jobs of one fold exist exactly when every estimator has parameter sets (otherwise KeyError); there are `sum(len(param_sets[n]))` of them |
| `CrossValidation.FoldJobsInGrid` | mlens/parallel/fit_predict.py:120-121 | each job of a fold names one of the estimators, carries the parameter set at its index, the fold, `scoring` and `error_score` unchanged |
| `CrossValidation.ScoreJobs` | mlens/parallel/fit_predict.py:116-121 | the grid succeeds exactly when there are no folds or every estimator has parameter sets; it has `len(dout) * sum(len(param_sets[n]))` jobs, and none when there are no folds |
| `CrossValidation.ScoreJobsInGrid` | mlens/parallel/fit_predict.py:116-121 | every job of the grid has one of the folds and the properties of a fold's jobs |
| `CrossValidation.CrossValidate` | mlens/parallel/fit_predict.py:113-122 | `cross_validate` returns one result per grid job (none when there are no folds), and fails only with KeyError, exactly when a fold exists and an estimator lacks parameter sets |
| `CrossValidation.FoldJobAt` | mlens/parallel/fit_predict.py:120-121 | within a fold, parameter set i of estimator e is at position (parameter sets of earlier estimators) + i, with index i |
| `CrossValidation.FoldBlockAt` | mlens/parallel/fit_predict.py:119-121 | the jobs of fold f occupy the f-th block of `sum(len(param_sets[n]))` positions |
| `CrossValidation.GridOrder` | mlens/parallel/fit_predict.py:116-121 | the result at position f·count + (earlier estimators' sets) + i is the score of estimator e with its i-th parameter set on fold f, with index i and the given `error_score` |
| `CrossValidation.DefaultErrorScoreExample` | mlens/parallel/fit_predict.py:113-121 | with one fold, one estimator and two parameter sets under the default `error_score`, the results are the scores of the two jobs in parameter order, indexed 0 and 1, each passing -99 |
| `CrossValidation.MissingParamsWithFolds` | mlens/parallel/fit_predict.py:119-121 | an estimator without parameter sets makes `cross_validate` raise KeyError when there is a fold, and return an empty list when there is none |

## Left out

- The worker pool (`Parallel`, `delayed`, lines 62 and 116) is a sequential map in submission order. Concurrency, `n_jobs` and `verbose` are not modelled, because they do not affect results.
- The table wrapper (lines 89-90) is modelled only as the tag `Predict.Prediction.Frame` carrying the matrix and the column names. The table library is foreign code.
- `_fit_score`, `_fit_predict_base`, `_predict_base`, `_predict`, `_fit_estimator` and `_construct_matrix` (lines 14-16) are not part of this model. They are total function parameters. How they fill the matrix, turn failures into a missing name or into `error_score`, or raise exceptions of their own is not modelled.
- The result of the fit-only function is typed as a 3-field `FitResult`. The unpacking error that line 101 would raise for another arity therefore cannot occur in the model.
- Estimator fitting, prediction, scoring and floating-point matrix contents are not modelled. `error_score` is an `int` (default `CrossValidation.DefaultErrorScore`, -99).
- The estimator dictionary of `cross_validate` is given as its sequence of items in iteration order. The uniqueness of its keys is not used.
- Errors from unhashable keys (TypeError) are not modelled. Iterables other than sequences are not modelled either.
