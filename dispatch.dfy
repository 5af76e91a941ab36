/** The shared dispatch primitive `_parallel_estimation`: one job per pair of a
    data tuple and an estimator of that tuple's case, in data-tuple-major,
    estimator-minor order, run by a worker pool that returns the results in
    submission order. The pool is modelled as a sequential map of the work
    function over the ordered job list. */
module Dispatch {
  import opened Outcome

  /** The single positional argument of one job, `add_input + (tup, est)`:
      the constant prefix, then the data tuple, then the estimator entry. */
  datatype Job<A, V, E> = Job(extra: seq<A>, data: seq<V>, est: E)

  /** The constant prefix: the optional arguments, or nothing when absent. */
  function AddInput<A>(optionalArgs: Option<seq<A>>): seq<A>
  {
    match optionalArgs
    case None => []
    case Some(args) => args
  }

  /** A data tuple can be dispatched when it has a last element (its case key)
      and that key is in the case-to-estimators dictionary. */
  predicate Dispatchable<V, E>(tup: seq<V>, cases: map<V, seq<E>>)
  {
    |tup| > 0 && tup[|tup| - 1] in cases
  }

  predicate AllDispatchable<V, E>(data: seq<seq<V>>, cases: map<V, seq<E>>)
  {
    forall t :: 0 <= t < |data| ==> Dispatchable(data[t], cases)
  }

  /** The estimators of a tuple's case, `estimator_cases[tup[-1]]`. */
  function CaseEstimators<V, E>(tup: seq<V>, cases: map<V, seq<E>>): seq<E>
    requires Dispatchable(tup, cases)
  {
    cases[tup[|tup| - 1]]
  }

  /** Reference count of jobs: the sum over the data tuples of the length of
      their case's estimator list. */
  function JobCount<V, E>(data: seq<seq<V>>, cases: map<V, seq<E>>): nat
    requires AllDispatchable(data, cases)
  {
    if data == [] then 0
    else |CaseEstimators(data[0], cases)| + JobCount(data[1..], cases)
  }

  /** The jobs of one data tuple, or the error evaluating `estimator_cases[tup[-1]]` raises. */
  function TupleJobs<A, V, E>(extra: seq<A>, tup: seq<V>, cases: map<V, seq<E>>): Result<seq<Job<A, V, E>>>
  {
    if |tup| == 0 then Err(IndexError)
    else if tup[|tup| - 1] !in cases then Err(KeyError)
    else
      var ests := cases[tup[|tup| - 1]];
      Ok(seq(|ests|, j requires 0 <= j < |ests| => Job(extra, tup, ests[j])))
  }

  /** The generator of submitted jobs, consumed to the end or to the first
      lookup that fails. */
  function EnumerateJobs<A, V, E>(extra: seq<A>, data: seq<seq<V>>, cases: map<V, seq<E>>): (r: Result<seq<Job<A, V, E>>>)
    ensures r.Ok? <==> AllDispatchable(data, cases)
    ensures r.Ok? ==> |r.value| == JobCount(data, cases)
    ensures r.Err? ==> r.error == IndexError || r.error == KeyError
  {
    if data == [] then Ok([])
    else
      var head :- TupleJobs(extra, data[0], cases);
      var tail :- EnumerateJobs(extra, data[1..], cases);
      Ok(head + tail)
  }

  /** Every job carries the constant prefix and one of the data tuples, paired
      with an estimator of that tuple's case. */
  ghost predicate FromData<A, V, E>(jobs: seq<Job<A, V, E>>, extra: seq<A>, data: seq<seq<V>>, cases: map<V, seq<E>>)
  {
    forall i :: 0 <= i < |jobs| ==>
      && jobs[i].extra == extra && jobs[i].data in data
      && Dispatchable(jobs[i].data, cases) && jobs[i].est in CaseEstimators(jobs[i].data, cases)
  }

  /** The enumerated jobs are built from the prefix, the data tuples and their
      cases' estimators only. */
  lemma {:induction false} JobsFromData<A, V, E>(extra: seq<A>, data: seq<seq<V>>, cases: map<V, seq<E>>)
    requires AllDispatchable(data, cases)
    ensures FromData(EnumerateJobs(extra, data, cases).value, extra, data, cases)
  {
    if data != [] {
      var jobs := EnumerateJobs(extra, data, cases).value;
      var head := TupleJobs(extra, data[0], cases).value;
      var tail := EnumerateJobs(extra, data[1..], cases).value;
      assert jobs == head + tail;
      JobsFromData(extra, data[1..], cases);
      forall i | 0 <= i < |jobs|
        ensures jobs[i].extra == extra && jobs[i].data in data
        ensures Dispatchable(jobs[i].data, cases) && jobs[i].est in CaseEstimators(jobs[i].data, cases)
      {
        if i < |head| {
          assert jobs[i] == head[i] == Job(extra, data[0], CaseEstimators(data[0], cases)[i]);
        } else {
          var k := i - |head|;
          assert jobs[i] == tail[k];
          assert tail[k].extra == extra && tail[k].data in data[1..];
        }
      }
    }
  }

  /** Runs every job in submission order; `n_jobs` and `verbose` do not affect
      the result and are not parameters. */
  function RunAll<J, R>(work: J -> R, jobs: seq<J>): seq<R>
  {
    seq(|jobs|, i requires 0 <= i < |jobs| => work(jobs[i]))
  }

  /** `_parallel_estimation(function, data, estimator_cases, optional_args)`. */
  function ParallelEstimation<A, V, E, R>(work: Job<A, V, E> -> R, data: seq<seq<V>>, cases: map<V, seq<E>>,
                                          optionalArgs: Option<seq<A>>): (r: Result<seq<R>>)
    ensures r.Ok? <==> AllDispatchable(data, cases)
    ensures r.Ok? ==> |r.value| == JobCount(data, cases)
    ensures r.Err? ==> r.error == IndexError || r.error == KeyError
  {
    var jobs :- EnumerateJobs(AddInput(optionalArgs), data, cases);
    Ok(RunAll(work, jobs))
  }

  /** The job for the j-th estimator of the t-th data tuple sits right after
      the jobs of all earlier tuples. */
  lemma {:induction false} JobAt<A, V, E>(extra: seq<A>, data: seq<seq<V>>, cases: map<V, seq<E>>, t: nat, j: nat)
    requires AllDispatchable(data, cases)
    requires t < |data| && j < |CaseEstimators(data[t], cases)|
    ensures AllDispatchable(data[..t], cases)
    ensures EnumerateJobs(extra, data, cases).Ok?
    ensures JobCount(data[..t], cases) + j < JobCount(data, cases)
    ensures EnumerateJobs(extra, data, cases).value[JobCount(data[..t], cases) + j]
         == Job(extra, data[t], CaseEstimators(data[t], cases)[j])
  {
    var jobs := EnumerateJobs(extra, data, cases).value;
    var head := TupleJobs(extra, data[0], cases).value;
    var tail := EnumerateJobs(extra, data[1..], cases).value;
    assert jobs == head + tail;
    if t == 0 {
      assert data[..0] == [];
      assert jobs[j] == head[j];
    } else {
      JobAt(extra, data[1..], cases, t - 1, j);
      assert data[..t][0] == data[0] && data[..t][1..] == data[1..][..t - 1];
      var k := JobCount(data[1..][..t - 1], cases) + j;
      assert jobs[|head| + k] == tail[k];
    }
  }

  /** The error that dispatch raises is that of the first tuple that cannot be
      dispatched: an IndexError for an empty tuple, otherwise a KeyError. */
  lemma {:induction false} FirstError<A, V, E>(extra: seq<A>, data: seq<seq<V>>, cases: map<V, seq<E>>, t: nat)
    requires t < |data| && !Dispatchable(data[t], cases)
    requires forall s :: 0 <= s < t ==> Dispatchable(data[s], cases)
    ensures EnumerateJobs(extra, data, cases) == Err(if |data[t]| == 0 then IndexError else KeyError)
  {
    if t > 0 {
      FirstError(extra, data[1..], cases, t - 1);
    }
  }

  /** Dispatch results, position by position: the result at the job's position
      is the work function applied to `add_input + (tup, est)`, where the
      prefix is empty when no optional arguments are given. */
  lemma DispatchOrder<A, V, E, R>(work: Job<A, V, E> -> R, data: seq<seq<V>>, cases: map<V, seq<E>>,
                                  optionalArgs: Option<seq<A>>, t: nat, j: nat)
    requires AllDispatchable(data, cases)
    requires t < |data| && j < |CaseEstimators(data[t], cases)|
    ensures AllDispatchable(data[..t], cases)
    ensures ParallelEstimation(work, data, cases, optionalArgs).Ok?
    ensures JobCount(data[..t], cases) + j < |ParallelEstimation(work, data, cases, optionalArgs).value|
    ensures ParallelEstimation(work, data, cases, optionalArgs).value[JobCount(data[..t], cases) + j]
         == work(Job(if optionalArgs.None? then [] else optionalArgs.value, data[t], CaseEstimators(data[t], cases)[j]))
  {
    JobAt(AddInput(optionalArgs), data, cases, t, j);
  }

  /** Dispatch raises exactly the error of the first tuple that cannot be dispatched. */
  lemma DispatchFirstError<A, V, E, R>(work: Job<A, V, E> -> R, data: seq<seq<V>>, cases: map<V, seq<E>>,
                                       optionalArgs: Option<seq<A>>, t: nat)
    requires t < |data| && !Dispatchable(data[t], cases)
    requires forall s :: 0 <= s < t ==> Dispatchable(data[s], cases)
    ensures ParallelEstimation(work, data, cases, optionalArgs) == Err(if |data[t]| == 0 then IndexError else KeyError)
  {
    FirstError(AddInput(optionalArgs), data, cases, t);
  }

  /** A tuple whose case maps to an empty estimator list is carried by no job. */
  lemma EmptyCaseNoJob<A, V, E>(extra: seq<A>, data: seq<seq<V>>, cases: map<V, seq<E>>, t: nat)
    requires AllDispatchable(data, cases)
    requires t < |data| && CaseEstimators(data[t], cases) == []
    ensures forall i :: 0 <= i < |EnumerateJobs(extra, data, cases).value| ==>
              EnumerateJobs(extra, data, cases).value[i].data != data[t]
  {
    JobsFromData(extra, data, cases);
  }

  /** When every tuple's case maps to an empty estimator list, no job is
      dispatched at all. */
  lemma {:induction false} EmptyCasesNoJobs<A, V, E>(extra: seq<A>, data: seq<seq<V>>, cases: map<V, seq<E>>)
    requires AllDispatchable(data, cases)
    requires forall t :: 0 <= t < |data| ==> CaseEstimators(data[t], cases) == []
    ensures EnumerateJobs(extra, data, cases) == Ok([])
  {
    if data != [] {
      EmptyCasesNoJobs(extra, data[1..], cases);
    }
  }
}
