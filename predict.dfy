/** `base_predict`: choose one of the three prediction functions, dispatch it
    over every (data tuple, estimator) pair, keep the caller's column names
    that produced a result, and assemble the prediction matrix.

    The prediction functions and the matrix assembly live in a module that is
    not part of this model; they are parameters here. A prediction function's
    result is the sequence of its components, the first being the estimator
    name. */
module Predict {
  import opened Outcome
  import opened Dispatch
  import opened PreCheck

  /** `_fit_predict_base`, `_predict_base` and `_predict`. */
  datatype PredictFunction = FitPredictBase | PredictBase | PredictFull

  /** The matrix as returned, or wrapped in a table labelled with the names. */
  datatype Prediction<M, T> = Matrix(m: M) | Frame(m: M, columns: seq<T>)

  /** The pair `(M, fitted_estimators)`. */
  datatype Predicted<M, T> = Predicted(matrix: Prediction<M, T>, fitted: seq<T>)

  /** Fold-local predictions with fitting use the fit-and-predict function,
      fold-local predictions without fitting the predict-on-folds function, and
      full-holdout predictions the plain predict function whatever `fit` is. */
  function SelectFunction(foldedPreds: bool, fit: bool): (f: PredictFunction)
    ensures f == FitPredictBase <==> foldedPreds && fit
    ensures f == PredictBase <==> foldedPreds && !fit
    ensures f == PredictFull <==> !foldedPreds
  {
    if foldedPreds then
      if fit then FitPredictBase else PredictBase
    else
      PredictFull
  }

  /** `base_predict(data, estimator_cases, n, folded_preds, fit, columns, as_df)`. */
  function BasePredict<A, V, E, T(==,!new), M>(
    impl: PredictFunction -> Job<A, V, E> -> seq<T>,
    constructMatrix: (seq<seq<T>>, int, seq<T>, bool) -> M,
    data: seq<seq<V>>, cases: map<V, seq<E>>, n: int,
    foldedPreds: bool, fit: bool, columns: seq<T>, asDf: bool): (r: Result<Predicted<M, T>>)
    ensures var out := ParallelEstimation(impl(SelectFunction(foldedPreds, fit)), data, cases, None);
            && (r.Ok? <==> out.Ok? && PreCheckEstimators(out.value, columns).Ok?)
            && (out.Err? ==> r == Err(out.error))
            && (out.Ok? && r.Err? ==> r.error == ValueError)
            && (r.Ok? ==> Ok(r.value.fitted) == PreCheckEstimators(out.value, columns))
            && (r.Ok? ==> r.value.matrix.m == constructMatrix(out.value, n, r.value.fitted, foldedPreds))
    ensures r.Ok? ==> |r.value.fitted| <= |columns| && forall k :: 0 <= k < |r.value.fitted| ==> r.value.fitted[k] in columns
    ensures r.Ok? ==> (r.value.matrix.Frame? <==> asDf)
    ensures r.Ok? && asDf ==> r.value.matrix.columns == r.value.fitted
  {
    var chosen := SelectFunction(foldedPreds, fit);
    var out :- ParallelEstimation(impl(chosen), data, cases, None);
    var fitted :- PreCheckEstimators(out, columns);
    var m := constructMatrix(out, n, fitted, foldedPreds);
    Ok(Predicted(if asDf then Frame(m, fitted) else Matrix(m), fitted))
  }

  /** Without fold-local predictions the `fit` flag has no effect. */
  lemma FitIgnoredWhenNotFolded<A, V, E, T(!new), M>(
    impl: PredictFunction -> Job<A, V, E> -> seq<T>,
    constructMatrix: (seq<seq<T>>, int, seq<T>, bool) -> M,
    data: seq<seq<V>>, cases: map<V, seq<E>>, n: int, columns: seq<T>, asDf: bool)
    ensures BasePredict(impl, constructMatrix, data, cases, n, false, true, columns, asDf)
         == BasePredict(impl, constructMatrix, data, cases, n, false, false, columns, asDf)
  {
    assert SelectFunction(false, true) == SelectFunction(false, false);
  }

  /** When no job is dispatched (every case has an empty estimator list), the
      result list is empty, `zip(*out)` yields nothing, and both unpackings of
      the pre-check fail: `base_predict` raises a ValueError. */
  lemma {:induction false} NoJobsRaisesValueError<A, V, E, T(!new), M>(
    impl: PredictFunction -> Job<A, V, E> -> seq<T>,
    constructMatrix: (seq<seq<T>>, int, seq<T>, bool) -> M,
    data: seq<seq<V>>, cases: map<V, seq<E>>, n: int,
    foldedPreds: bool, fit: bool, columns: seq<T>, asDf: bool)
    requires AllDispatchable(data, cases)
    requires JobCount(data, cases) == 0
    ensures BasePredict(impl, constructMatrix, data, cases, n, foldedPreds, fit, columns, asDf) == Err(ValueError)
  {
    var out := ParallelEstimation(impl(SelectFunction(foldedPreds, fit)), data, cases, None);
    assert out.value == [];
  }

  /** The names returned are the caller's columns, in the caller's order, at
      exactly the positions whose name is the first component of some
      prediction result. */
  lemma FittedInColumnOrder<A, V, E, T(!new), M>(
    impl: PredictFunction -> Job<A, V, E> -> seq<T>,
    constructMatrix: (seq<seq<T>>, int, seq<T>, bool) -> M,
    data: seq<seq<V>>, cases: map<V, seq<E>>, n: int,
    foldedPreds: bool, fit: bool, columns: seq<T>, asDf: bool)
    requires BasePredict(impl, constructMatrix, data, cases, n, foldedPreds, fit, columns, asDf).Ok?
    ensures var out := ParallelEstimation(impl(SelectFunction(foldedPreds, fit)), data, cases, None).value;
            && (forall i :: 0 <= i < |out| ==> |out[i]| > 0)
            && var idx := KeptIndices(columns, FirstComponents(out), 0);
               var fitted := BasePredict(impl, constructMatrix, data, cases, n, foldedPreds, fit, columns, asDf).value.fitted;
               && |fitted| == |idx|
               && (forall k :: 0 <= k < |fitted| ==> fitted[k] == columns[idx[k]])
               && (forall i :: 0 <= i < |columns| ==> (i in idx <==> columns[i] in FirstComponents(out)))
  {
    var out := ParallelEstimation(impl(SelectFunction(foldedPreds, fit)), data, cases, None).value;
    PreCheckOrder(out, columns);
  }
}
