/** `cross_validate`: a grid search on premade folds. One scoring job per
    fold, per estimator (in the estimator dictionary's order, given here as its
    sequence of items), per parameter set of that estimator, run by a worker
    pool that returns the results in submission order. */
module CrossValidation {
  import opened Outcome

  /** The default `error_score`. */
  const DefaultErrorScore: int := -99

  /** The arguments of one `_fit_score` call:
      `(est, est_name, params, scoring, tup, i, error_score)`. */
  datatype ScoreJob<E, N, P, S, D> = ScoreJob(est: E, estName: N, params: P, scoring: S,
                                              fold: D, index: nat, errorScore: int)

  /** Every estimator name is a key of `param_sets`. */
  predicate HasParams<N, E, P>(estimators: seq<(N, E)>, paramSets: map<N, seq<P>>)
  {
    forall e :: 0 <= e < |estimators| ==> estimators[e].0 in paramSets
  }

  /** A job of the grid: its estimator is one of `estimators`, its index is a
      position in that estimator's parameter list and its parameters are the
      ones at that position, and `scoring` and `error_score` are passed
      unchanged. */
  ghost predicate GridJob<E, N, P, S, D>(job: ScoreJob<E, N, P, S, D>, estimators: seq<(N, E)>, paramSets: map<N, seq<P>>,
                                   scoring: S, errorScore: int)
  {
    && (job.estName, job.est) in estimators
    && job.estName in paramSets
    && job.index < |paramSets[job.estName]|
    && job.params == paramSets[job.estName][job.index]
    && job.scoring == scoring
    && job.errorScore == errorScore
  }

  /** Reference count of the jobs of one fold: the sum over the estimators of
      the number of their parameter sets. */
  function ParamCount<N, E, P>(estimators: seq<(N, E)>, paramSets: map<N, seq<P>>): nat
    requires HasParams(estimators, paramSets)
  {
    if estimators == [] then 0
    else |paramSets[estimators[0].0]| + ParamCount(estimators[1..], paramSets)
  }

  /** `for i, params in enumerate(param_sets[est_name])` on one fold. */
  function EstimatorJobs<E, N, P, S, D>(name: N, est: E, params: seq<P>, scoring: S, fold: D,
                                        errorScore: int): seq<ScoreJob<E, N, P, S, D>>
  {
    seq(|params|, i requires 0 <= i < |params| => ScoreJob(est, name, params[i], scoring, fold, i, errorScore))
  }

  /** The jobs of one fold, estimator by estimator; a name missing from
      `param_sets` raises a KeyError. */
  function FoldJobs<E, N, P, S, D>(estimators: seq<(N, E)>, paramSets: map<N, seq<P>>, scoring: S, fold: D,
                                   errorScore: int): (r: Result<seq<ScoreJob<E, N, P, S, D>>>)
    ensures r.Ok? <==> HasParams(estimators, paramSets)
    ensures r.Ok? ==> |r.value| == ParamCount(estimators, paramSets)
    ensures r.Err? ==> r.error == KeyError
  {
    if estimators == [] then Ok([])
    else
      var (name, est) := estimators[0];
      if name !in paramSets then Err(KeyError)
      else
        var rest :- FoldJobs(estimators[1..], paramSets, scoring, fold, errorScore);
        Ok(EstimatorJobs(name, est, paramSets[name], scoring, fold, errorScore) + rest)
  }

  /** The generator of submitted jobs, consumed to the end or to the first
      failing lookup. With no folds no lookup is made. */
  function ScoreJobs<E, N, P, S, D>(estimators: seq<(N, E)>, paramSets: map<N, seq<P>>, dout: seq<D>, scoring: S,
                                    errorScore: int): (r: Result<seq<ScoreJob<E, N, P, S, D>>>)
    ensures r.Ok? <==> |dout| == 0 || HasParams(estimators, paramSets)
    ensures r.Err? ==> r.error == KeyError
    ensures |dout| == 0 ==> r == Ok([])
    ensures r.Ok? && |dout| > 0 ==> |r.value| == |dout| * ParamCount(estimators, paramSets)
  {
    if dout == [] then Ok([])
    else
      var head := FoldJobs(estimators, paramSets, scoring, dout[0], errorScore);
      if head.Err? then Err(head.error)
      else
        var tail := ScoreJobs(estimators, paramSets, dout[1..], scoring, errorScore).value;
        assert |dout| * ParamCount(estimators, paramSets)
            == ParamCount(estimators, paramSets) + (|dout| - 1) * ParamCount(estimators, paramSets);
        Ok(head.value + tail)
  }

  /** Every job is a grid job whose fold is one of `folds`. */
  ghost predicate InGrid<E, N, P, S, D>(jobs: seq<ScoreJob<E, N, P, S, D>>, estimators: seq<(N, E)>,
                                        paramSets: map<N, seq<P>>, folds: seq<D>, scoring: S, errorScore: int)
  {
    forall k :: 0 <= k < |jobs| ==> jobs[k].fold in folds && GridJob(jobs[k], estimators, paramSets, scoring, errorScore)
  }

  /** The jobs of one fold each name one of the estimators, carry the
      parameter set at their index, the fold, `scoring` and `error_score`. */
  lemma {:induction false} FoldJobsInGrid<E, N, P, S, D>(estimators: seq<(N, E)>, paramSets: map<N, seq<P>>,
                                                         scoring: S, fold: D, errorScore: int)
    requires HasParams(estimators, paramSets)
    ensures InGrid(FoldJobs(estimators, paramSets, scoring, fold, errorScore).value, estimators, paramSets, [fold],
                   scoring, errorScore)
  {
    if estimators != [] {
      var (name, est) := estimators[0];
      var own := EstimatorJobs(name, est, paramSets[name], scoring, fold, errorScore);
      var rest := FoldJobs(estimators[1..], paramSets, scoring, fold, errorScore).value;
      var jobs := FoldJobs(estimators, paramSets, scoring, fold, errorScore).value;
      assert jobs == own + rest;
      FoldJobsInGrid(estimators[1..], paramSets, scoring, fold, errorScore);
      forall k | 0 <= k < |jobs|
        ensures jobs[k].fold in [fold] && GridJob(jobs[k], estimators, paramSets, scoring, errorScore)
      {
        if k < |own| {
          assert jobs[k] == own[k];
        } else {
          var k' := k - |own|;
          assert jobs[k] == rest[k'];
          assert GridJob(rest[k'], estimators[1..], paramSets, scoring, errorScore);
          assert (rest[k'].estName, rest[k'].est) in estimators[1..];
        }
      }
    }
  }

  /** Every job of the grid comes from one of the folds and is a grid job. */
  lemma {:induction false} ScoreJobsInGrid<E, N, P, S, D>(estimators: seq<(N, E)>, paramSets: map<N, seq<P>>,
                                                          dout: seq<D>, scoring: S, errorScore: int)
    requires |dout| == 0 || HasParams(estimators, paramSets)
    ensures InGrid(ScoreJobs(estimators, paramSets, dout, scoring, errorScore).value, estimators, paramSets, dout,
                   scoring, errorScore)
  {
    if dout != [] {
      var head := FoldJobs(estimators, paramSets, scoring, dout[0], errorScore).value;
      var tail := ScoreJobs(estimators, paramSets, dout[1..], scoring, errorScore).value;
      var jobs := ScoreJobs(estimators, paramSets, dout, scoring, errorScore).value;
      assert jobs == head + tail;
      FoldJobsInGrid(estimators, paramSets, scoring, dout[0], errorScore);
      ScoreJobsInGrid(estimators, paramSets, dout[1..], scoring, errorScore);
      forall k | 0 <= k < |jobs|
        ensures jobs[k].fold in dout && GridJob(jobs[k], estimators, paramSets, scoring, errorScore)
      {
        if k < |head| {
          assert jobs[k] == head[k];
          assert head[k].fold in [dout[0]];
        } else {
          var k' := k - |head|;
          assert jobs[k] == tail[k'];
          assert tail[k'].fold in dout[1..];
        }
      }
    }
  }

  /** `cross_validate(estimators, param_sets, dout, scoring, error_score)`. */
  function CrossValidate<E, N, P, S, D, R>(fitScore: ScoreJob<E, N, P, S, D> -> R,
                                          estimators: seq<(N, E)>, paramSets: map<N, seq<P>>, dout: seq<D>,
                                          scoring: S, errorScore: int): (r: Result<seq<R>>)
    ensures r.Ok? <==> |dout| == 0 || HasParams(estimators, paramSets)
    ensures r.Err? ==> r.error == KeyError
    ensures |dout| == 0 ==> r == Ok([])
    ensures r.Ok? && |dout| > 0 ==> |r.value| == |dout| * ParamCount(estimators, paramSets)
  {
    var jobs :- ScoreJobs(estimators, paramSets, dout, scoring, errorScore);
    var results := seq(|jobs|, k requires 0 <= k < |jobs| => fitScore(jobs[k]));
    assert |dout| == 0 ==> results == [];
    Ok(results)
  }

  /** Within one fold, the i-th parameter set of the e-th estimator comes
      right after the parameter sets of all earlier estimators. */
  lemma {:induction false} FoldJobAt<E, N, P, S, D>(estimators: seq<(N, E)>, paramSets: map<N, seq<P>>, scoring: S,
                                                    fold: D, errorScore: int, e: nat, i: nat)
    requires HasParams(estimators, paramSets)
    requires e < |estimators| && i < |paramSets[estimators[e].0]|
    ensures HasParams(estimators[..e], paramSets)
    ensures ParamCount(estimators[..e], paramSets) + i < ParamCount(estimators, paramSets)
    ensures FoldJobs(estimators, paramSets, scoring, fold, errorScore).value[ParamCount(estimators[..e], paramSets) + i]
         == ScoreJob(estimators[e].1, estimators[e].0, paramSets[estimators[e].0][i], scoring, fold, i, errorScore)
  {
    var (name, est) := estimators[0];
    var rest := FoldJobs(estimators[1..], paramSets, scoring, fold, errorScore).value;
    assert FoldJobs(estimators, paramSets, scoring, fold, errorScore).value
        == EstimatorJobs(name, est, paramSets[name], scoring, fold, errorScore) + rest;
    if e == 0 {
      assert estimators[..0] == [];
    } else {
      FoldJobAt(estimators[1..], paramSets, scoring, fold, errorScore, e - 1, i);
      assert estimators[..e][0] == estimators[0] && estimators[..e][1..] == estimators[1..][..e - 1];
    }
  }

  /** Proof aid: the start of block `f` for blocks of `n` positions, counted
      up block by block so that the induction below stays linear. */
  ghost function BlockStart(f: nat, n: nat): (k: nat)
    ensures k == f * n
  {
    if f == 0 then 0 else n + BlockStart(f - 1, n)
  }

  /** The induction behind `FoldBlockAt`, with the block start counted up. */
  lemma {:induction false} BlockAt<E, N, P, S, D>(estimators: seq<(N, E)>, paramSets: map<N, seq<P>>, dout: seq<D>,
                                                  scoring: S, errorScore: int, f: nat, j: nat)
    requires HasParams(estimators, paramSets)
    requires f < |dout| && j < ParamCount(estimators, paramSets)
    ensures var jobs := ScoreJobs(estimators, paramSets, dout, scoring, errorScore).value;
            && BlockStart(f, ParamCount(estimators, paramSets)) + j < |jobs|
            && jobs[BlockStart(f, ParamCount(estimators, paramSets)) + j]
               == FoldJobs(estimators, paramSets, scoring, dout[f], errorScore).value[j]
  {
    var n := ParamCount(estimators, paramSets);
    var head := FoldJobs(estimators, paramSets, scoring, dout[0], errorScore).value;
    var tail := ScoreJobs(estimators, paramSets, dout[1..], scoring, errorScore).value;
    assert ScoreJobs(estimators, paramSets, dout, scoring, errorScore).value == head + tail;
    assert |head| == n;
    if f > 0 {
      BlockAt(estimators, paramSets, dout[1..], scoring, errorScore, f - 1, j);
      assert dout[1..][f - 1] == dout[f];
    }
  }

  /** The jobs of fold f occupy the f-th block of `ParamCount` positions. */
  lemma FoldBlockAt<E, N, P, S, D>(estimators: seq<(N, E)>, paramSets: map<N, seq<P>>, dout: seq<D>,
                                   scoring: S, errorScore: int, f: nat, j: nat)
    requires HasParams(estimators, paramSets)
    requires f < |dout| && j < ParamCount(estimators, paramSets)
    ensures var jobs := ScoreJobs(estimators, paramSets, dout, scoring, errorScore).value;
            && f * ParamCount(estimators, paramSets) + j < |jobs|
            && jobs[f * ParamCount(estimators, paramSets) + j]
               == FoldJobs(estimators, paramSets, scoring, dout[f], errorScore).value[j]
  {
    BlockAt(estimators, paramSets, dout, scoring, errorScore, f, j);
    assert BlockStart(f, ParamCount(estimators, paramSets)) == f * ParamCount(estimators, paramSets);
  }

  /** The grid in full: the result at position
      `f * ParamCount + ParamCount(estimators[..e]) + i` is the score of the
      i-th parameter set of the e-th estimator on the f-th fold, with `i`
      passed as the index and `error_score` passed unchanged. */
  lemma GridOrder<E, N, P, S, D, R>(fitScore: ScoreJob<E, N, P, S, D> -> R,
                                    estimators: seq<(N, E)>, paramSets: map<N, seq<P>>, dout: seq<D>,
                                    scoring: S, errorScore: int, f: nat, e: nat, i: nat)
    requires HasParams(estimators, paramSets)
    requires f < |dout| && e < |estimators| && i < |paramSets[estimators[e].0]|
    ensures HasParams(estimators[..e], paramSets)
    ensures var k := f * ParamCount(estimators, paramSets) + ParamCount(estimators[..e], paramSets) + i;
            var r := CrossValidate(fitScore, estimators, paramSets, dout, scoring, errorScore);
            && r.Ok? && k < |r.value|
            && r.value[k] == fitScore(ScoreJob(estimators[e].1, estimators[e].0, paramSets[estimators[e].0][i],
                                               scoring, dout[f], i, errorScore))
  {
    FoldJobAt(estimators, paramSets, scoring, dout[f], errorScore, e, i);
    FoldBlockAt(estimators, paramSets, dout, scoring, errorScore, f, ParamCount(estimators[..e], paramSets) + i);
  }

  /** A missing parameter list is only looked up when there is a fold: the
      error is a KeyError exactly then. */
  lemma MissingParamsWithFolds<E, N, P, S, D, R>(fitScore: ScoreJob<E, N, P, S, D> -> R,
                                                 estimators: seq<(N, E)>, paramSets: map<N, seq<P>>, dout: seq<D>,
                                                 scoring: S, errorScore: int, e: nat)
    requires e < |estimators| && estimators[e].0 !in paramSets
    ensures CrossValidate(fitScore, estimators, paramSets, dout, scoring, errorScore)
         == if |dout| == 0 then Ok([]) else Err(KeyError)
  {
    assert !HasParams(estimators, paramSets);
    if |dout| == 0 {
      var r := CrossValidate(fitScore, estimators, paramSets, dout, scoring, errorScore);
      assert r.Ok? && |r.value| == 0;
    }
  }

  /** One fold and one estimator with two parameter sets, scored with the
      default `error_score`: two results, in parameter order, from jobs
      indexed 0 and 1 that each pass -99. */
  lemma DefaultErrorScoreExample<R>(fitScore: ScoreJob<int, string, int, int, int> -> R)
    ensures CrossValidate(fitScore, [("rf", 7)], map["rf" := [10, 20]], [5], 0, DefaultErrorScore)
         == Ok([fitScore(ScoreJob(7, "rf", 10, 0, 5, 0, -99)), fitScore(ScoreJob(7, "rf", 20, 0, 5, 1, -99))])
  {
    var estimators, paramSets, dout := [("rf", 7)], map["rf" := [10, 20]], [5];
    assert estimators[1..] == [] && dout[1..] == [];
    var own := EstimatorJobs("rf", 7, [10, 20], 0, 5, DefaultErrorScore);
    assert own == [ScoreJob(7, "rf", 10, 0, 5, 0, -99), ScoreJob(7, "rf", 20, 0, 5, 1, -99)];
    var head := FoldJobs(estimators, paramSets, 0, dout[0], DefaultErrorScore);
    assert head == Ok(own + []);
    var none := ScoreJobs(estimators, paramSets, dout[1..], 0, DefaultErrorScore);
    assert none == Ok([]);
    assert ScoreJobs(estimators, paramSets, dout, 0, DefaultErrorScore).value == head.value + none.value == own;
    var r := CrossValidate(fitScore, estimators, paramSets, dout, 0, DefaultErrorScore);
    assert r.Ok? && |r.value| == 2;
    assert r.value[0] == fitScore(own[0]) && r.value[1] == fitScore(own[1]);
    assert r.value == [fitScore(own[0]), fitScore(own[1])];
  }
}
