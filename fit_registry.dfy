/** `fit_estimators`: dispatch the fit-only function with the labels as the
    constant prefix of every job, then group the successful fits by case in a
    dictionary that is built up in place.

    The dictionary is modelled with its key insertion order (the order in
    which a Python dictionary iterates) and the per-case lists. */
module FitRegistry {
  import opened Outcome
  import opened Dispatch

  /** One result of the fit-only function, `(case, est_name, est)`; a failed
      fit carries no name. */
  datatype FitResult<K, N, M> = FitResult(caseKey: K, name: Option<N>, est: M)

  /** The `fitted_estimators` dictionary: its keys in insertion order, and
      the list of `(est_name, est)` pairs under each key. */
  datatype Registry<K, N, M> = Registry(order: seq<K>, lists: map<K, seq<(N, M)>>)

  /** The cases of the successful results, in result order, with repetitions. */
  function FittedCases<K, N, M>(out: seq<FitResult<K, N, M>>): seq<K>
  {
    if out == [] then []
    else (if out[0].name.Some? then [out[0].caseKey] else []) + FittedCases(out[1..])
  }

  /** The `(est_name, est)` pairs of the successful results of case `k`, in
      result order. */
  function CasePairs<K(==), N, M>(out: seq<FitResult<K, N, M>>, k: K): seq<(N, M)>
  {
    if out == [] then []
    else (if out[0].name.Some? && out[0].caseKey == k then [(out[0].name.value, out[0].est)] else [])
         + CasePairs(out[1..], k)
  }

  /** The distinct elements of `s`, in order of first occurrence. */
  function Distinct<K(==)>(s: seq<K>): seq<K>
  {
    if s == [] then []
    else
      var d := Distinct(s[..|s| - 1]);
      if s[|s| - 1] in d then d else d + [s[|s| - 1]]
  }

  /** Reference definition of the registry built from `out`: one key per case
      with a successful fit, inserted when its first successful fit is seen,
      holding that case's successful pairs in result order. */
  function Grouped<K(==), N, M>(out: seq<FitResult<K, N, M>>): Registry<K, N, M>
  {
    Registry(Distinct(FittedCases(out)), map k | k in FittedCases(out) :: CasePairs(out, k))
  }

  /** The number of pairs stored under the keys in `order`. */
  function TotalPairs<K, P>(order: seq<K>, lists: map<K, seq<P>>): nat
    requires forall i :: 0 <= i < |order| ==> order[i] in lists
  {
    if order == [] then 0
    else TotalPairs(order[..|order| - 1], lists) + |lists[order[|order| - 1]]|
  }

  /** The grouping loop of `fit_estimators`. */
  method GroupFitted<K(==), N, M>(out: seq<FitResult<K, N, M>>) returns (fitted: Registry<K, N, M>)
    ensures fitted == Grouped(out)
    ensures forall k :: k in fitted.lists ==> |fitted.lists[k]| > 0
    ensures forall i :: 0 <= i < |fitted.order| ==> fitted.order[i] in fitted.lists
    ensures TotalPairs(fitted.order, fitted.lists) == |FittedCases(out)|
  {
    fitted := Registry([], map[]);
    for i := 0 to |out|
      invariant fitted == Grouped(out[..i])
    {
      ghost var before := fitted;
      var FitResult(caseKey, name, est) := out[i];
      if name.Some? {
        if caseKey !in fitted.lists {
          fitted := Registry(fitted.order + [caseKey], fitted.lists[caseKey := []]);
        }
        fitted := fitted.(lists := fitted.lists[caseKey := fitted.lists[caseKey] + [(name.value, est)]]);
      }
      InsertMatchesLoopBody(before, out[i], fitted);
      GroupedSnoc(out[..i], out[i]);
      assert out[..i + 1] == out[..i] + [out[i]];
    }
    assert out[..|out|] == out;
    RegistryNonEmpty(out);
    RegistryCount(out);
  }

  /** `fit_estimators(data, y, estimator_cases)`: every job's argument is
      `(y, tup, est)`; a dispatch error propagates. */
  method FitEstimators<A, V, E, K(==), N, M>(fitEstimator: Job<A, V, E> -> FitResult<K, N, M>,
                                            data: seq<seq<V>>, y: A, cases: map<V, seq<E>>)
    returns (r: Result<Registry<K, N, M>>)
    ensures var out := ParallelEstimation(fitEstimator, data, cases, Some([y]));
            && (r.Ok? <==> AllDispatchable(data, cases))
            && (out.Err? ==> r == Err(out.error))
            && (r.Ok? ==> r.value == Grouped(out.value))
  {
    var out := ParallelEstimation(fitEstimator, data, cases, Some([y]));
    if out.Err? {
      return Err(out.error);
    }
    var fitted := GroupFitted(out.value);
    return Ok(fitted);
  }

  /** The end-to-end scenario: case "Y" has two estimators of which "m2"
      fails; its failure is dropped and case "X" is unaffected. */
  lemma TwoCasesOneFailure()
    ensures Grouped([FitResult("X", Some("m1"), 1), FitResult("Y", Some("m1"), 1), FitResult("Y", None, 0)])
         == Registry(["X", "Y"], map["X" := [("m1", 1)], "Y" := [("m1", 1)]])
  {
    var x, y, z := FitResult("X", Some("m1"), 1), FitResult("Y", Some("m1"), 1), FitResult("Y", None, 0);
    var none: seq<FitResult<string, string, int>> := [];
    assert Grouped(none) == Registry([], map[]);
    GroupedSnoc(none, x);
    assert none + [x] == [x];
    GroupedSnoc([x], y);
    GroupedSnoc([x, y], z);
    assert [x] + [y] == [x, y] && [x, y] + [z] == [x, y, z];
    assert "X" != "Y" by { assert "X"[0] != "Y"[0]; }
    assert Grouped([x]) == Registry(["X"], map["X" := [("m1", 1)]]);
    assert Grouped([x, y]) == Registry(["X", "Y"], map["X" := [("m1", 1)], "Y" := [("m1", 1)]]);
  }

  /** The scenario from the inputs: tuples of cases "X" and "Y", where "X"
      has the estimator "m1" and "Y" has "m1" and "m2", and the fit of "m2"
      fails. Dispatch submits the three jobs in tuple-major order, so the
      registry lists "X" before "Y", and the failure is dropped. */
  lemma TwoCasesOneFailureFromInputs<A>(fit: Job<A, string, string> -> FitResult<string, string, int>, y: A)
    requires fit(Job([y], ["X"], "m1")) == FitResult("X", Some("m1"), 1)
    requires fit(Job([y], ["Y"], "m1")) == FitResult("Y", Some("m1"), 1)
    requires fit(Job([y], ["Y"], "m2")) == FitResult("Y", None, 0)
    ensures ParallelEstimation(fit, [["X"], ["Y"]], map["X" := ["m1"], "Y" := ["m1", "m2"]], Some([y])).Ok?
    ensures Grouped(ParallelEstimation(fit, [["X"], ["Y"]], map["X" := ["m1"], "Y" := ["m1", "m2"]], Some([y])).value)
         == Registry(["X", "Y"], map["X" := [("m1", 1)], "Y" := [("m1", 1)]])
  {
    var data, cases := [["X"], ["Y"]], map["X" := ["m1"], "Y" := ["m1", "m2"]];
    assert "X" != "Y" by { assert "X"[0] != "Y"[0]; }
    assert data[1..] == [["Y"]] && data[1..][1..] == [];
    var jx := TupleJobs([y], ["X"], cases).value;
    var jy := TupleJobs([y], ["Y"], cases).value;
    assert jx == [Job([y], ["X"], "m1")];
    assert jy == [Job([y], ["Y"], "m1"), Job([y], ["Y"], "m2")];
    assert EnumerateJobs([y], data[1..][1..], cases) == Ok([]);
    assert EnumerateJobs([y], data[1..], cases) == Ok(jy + []);
    assert EnumerateJobs([y], data, cases) == Ok(jx + (jy + []));
    var jobs := jx + jy;
    assert jobs == [Job([y], ["X"], "m1"), Job([y], ["Y"], "m1"), Job([y], ["Y"], "m2")];
    var out := ParallelEstimation(fit, data, cases, Some([y])).value;
    assert out == RunAll(fit, jobs);
    assert out == [FitResult("X", Some("m1"), 1), FitResult("Y", Some("m1"), 1), FitResult("Y", None, 0)];
    TwoCasesOneFailure();
  }

  lemma {:induction false} FittedCasesSnoc<K, N, M>(s: seq<FitResult<K, N, M>>, x: FitResult<K, N, M>)
    ensures FittedCases(s + [x]) == FittedCases(s) + (if x.name.Some? then [x.caseKey] else [])
  {
    if s == [] {
      assert [x][1..] == [];
    } else {
      FittedCasesSnoc(s[1..], x);
      assert (s + [x])[0] == s[0];
      assert (s + [x])[1..] == s[1..] + [x];
    }
  }

  lemma {:induction false} CasePairsSnoc<K, N, M>(s: seq<FitResult<K, N, M>>, x: FitResult<K, N, M>, k: K)
    ensures CasePairs(s + [x], k) == CasePairs(s, k) + (if x.name.Some? && x.caseKey == k then [(x.name.value, x.est)] else [])
  {
    if s == [] {
      assert [x][1..] == [];
    } else {
      CasePairsSnoc(s[1..], x, k);
      assert (s + [x])[0] == s[0];
      assert (s + [x])[1..] == s[1..] + [x];
    }
  }

  lemma {:induction false} DistinctMembers<K>(s: seq<K>)
    ensures forall k :: k in Distinct(s) <==> k in s
    ensures forall a, b :: 0 <= a < b < |Distinct(s)| ==> Distinct(s)[a] != Distinct(s)[b]
  {
    if s != [] {
      DistinctMembers(s[..|s| - 1]);
      assert s == s[..|s| - 1] + [s[|s| - 1]];
    }
  }

  lemma GroupedListsSnoc<K, N, M>(s: seq<FitResult<K, N, M>>, x: FitResult<K, N, M>)
    requires x.name.Some?
    ensures Grouped(s + [x]).lists == Grouped(s).lists[x.caseKey := CasePairs(s, x.caseKey) + [(x.name.value, x.est)]]
  {
    var k, v := x.caseKey, CasePairs(s, x.caseKey) + [(x.name.value, x.est)];
    var cs, cs' := FittedCases(s), FittedCases(s + [x]);
    FittedCasesSnoc(s, x);
    assert cs' == cs + [k];
    var m, m' := Grouped(s).lists, Grouped(s + [x]).lists;
    assert forall c :: c in m' <==> c in m || c == k;
    CasePairsSnoc(s, x, k);
    forall c | c in m && c != k ensures m'[c] == m[c] {
      CasePairsSnoc(s, x, c);
    }
    MapUpdate(m, m', k, v);
  }

  lemma MapUpdate<K, V>(m: map<K, V>, m': map<K, V>, k: K, v: V)
    requires forall c :: c in m' <==> c in m || c == k
    requires k in m' && m'[k] == v
    requires forall c :: c in m && c != k ==> m'[c] == m[c]
    ensures m' == m[k := v]
  {
  }

  lemma GroupedListsSnocFailed<K, N, M>(s: seq<FitResult<K, N, M>>, x: FitResult<K, N, M>)
    requires x.name.None?
    ensures Grouped(s + [x]).lists == Grouped(s).lists
  {
    FittedCasesSnoc(s, x);
    var m, m' := Grouped(s).lists, Grouped(s + [x]).lists;
    assert forall c :: c in m' <==> c in m;
    forall c | c in m ensures m'[c] == m[c] {
      CasePairsSnoc(s, x, c);
    }
    SameMap(m, m');
  }

  lemma SameMap<K, V>(m: map<K, V>, m': map<K, V>)
    requires forall c :: c in m' <==> c in m
    requires forall c :: c in m ==> m'[c] == m[c]
    ensures m' == m
  {
  }

  /** The effect of one loop iteration on the dictionary. */
  function Insert<K(==), N, M>(g: Registry<K, N, M>, x: FitResult<K, N, M>): Registry<K, N, M>
  {
    if x.name.None? then g
    else if x.caseKey in g.lists then
      Registry(g.order, g.lists[x.caseKey := g.lists[x.caseKey] + [(x.name.value, x.est)]])
    else
      Registry(g.order + [x.caseKey], g.lists[x.caseKey := [(x.name.value, x.est)]])
  }

  /** The loop body, which creates an empty list for a new case and then
      appends to it, has the effect of `Insert`. */
  lemma InsertMatchesLoopBody<K, N, M>(g: Registry<K, N, M>, x: FitResult<K, N, M>, g': Registry<K, N, M>)
    requires x.name.None? ==> g' == g
    requires x.name.Some? ==>
               var k := x.caseKey;
               var g0 := if k in g.lists then g else Registry(g.order + [k], g.lists[k := []]);
               g' == g0.(lists := g0.lists[k := g0.lists[k] + [(x.name.value, x.est)]])
    ensures g' == Insert(g, x)
  {
    if x.name.Some? && x.caseKey !in g.lists {
      var k, p := x.caseKey, (x.name.value, x.est);
      assert [] + [p] == [p];
      assert g.lists[k := []][k := [p]] == g.lists[k := [p]];
    }
  }

  /** One iteration of the loop: a failed fit changes nothing; a successful
      one appends its pair under its case, inserting the case first when it is
      new. */
  lemma GroupedSnoc<K, N, M>(s: seq<FitResult<K, N, M>>, x: FitResult<K, N, M>)
    ensures Grouped(s + [x]) == Insert(Grouped(s), x)
  {
    FittedCasesSnoc(s, x);
    var cs, cs' := FittedCases(s), FittedCases(s + [x]);
    if x.name.Some? {
      GroupedListsSnoc(s, x);
      assert cs'[..|cs'| - 1] == cs;
      DistinctMembers(cs);
      var p := (x.name.value, x.est);
      assert x.caseKey in Grouped(s).lists <==> x.caseKey in cs;
      if x.caseKey !in cs {
        CasePairsAbsent(s, x.caseKey);
        assert x.caseKey !in Distinct(cs);
        assert Distinct(cs') == Distinct(cs) + [x.caseKey];
        assert CasePairs(s, x.caseKey) + [p] == [p];
      } else {
        assert x.caseKey in Distinct(cs);
        assert Distinct(cs') == Distinct(cs);
        assert Grouped(s).lists[x.caseKey] == CasePairs(s, x.caseKey);
        assert Grouped(s + [x]).order == Grouped(s).order;
        assert Grouped(s + [x]).lists == Grouped(s).lists[x.caseKey := Grouped(s).lists[x.caseKey] + [p]];
      }
    } else {
      GroupedListsSnocFailed(s, x);
      assert cs' == cs;
    }
  }

  lemma {:induction false} CasePairsAbsent<K, N, M>(out: seq<FitResult<K, N, M>>, k: K)
    requires k !in FittedCases(out)
    ensures CasePairs(out, k) == []
  {
    if out != [] {
      CasePairsAbsent(out[1..], k);
    }
  }

  /** A successful fit of case `k` is in `FittedCases` exactly when some
      result of case `k` has a name. */
  lemma {:induction false} FittedCasesMembers<K, N, M>(out: seq<FitResult<K, N, M>>, k: K)
    ensures k in FittedCases(out) <==> exists i :: 0 <= i < |out| && out[i].caseKey == k && out[i].name.Some?
  {
    if out != [] {
      FittedCasesMembers(out[1..], k);
      if exists i :: 1 <= i < |out| && out[i].caseKey == k && out[i].name.Some? {
        var i :| 1 <= i < |out| && out[i].caseKey == k && out[i].name.Some?;
        assert out[1..][i - 1] == out[i];
      }
      if exists i :: 0 <= i < |out| - 1 && out[1..][i].caseKey == k && out[1..][i].name.Some? {
        var i :| 0 <= i < |out| - 1 && out[1..][i].caseKey == k && out[1..][i].name.Some?;
        assert out[i + 1] == out[1..][i];
      }
    }
  }

  /** A pair is stored under case `k` exactly when some successful result of
      case `k` produced it. */
  lemma {:induction false} CasePairsMembers<K, N, M>(out: seq<FitResult<K, N, M>>, k: K, p: (N, M))
    ensures p in CasePairs(out, k) <==>
              exists i :: 0 <= i < |out| && out[i].caseKey == k && out[i].name == Some(p.0) && out[i].est == p.1
  {
    if out != [] {
      CasePairsMembers(out[1..], k, p);
      if exists i :: 1 <= i < |out| && out[i].caseKey == k && out[i].name == Some(p.0) && out[i].est == p.1 {
        var i :| 1 <= i < |out| && out[i].caseKey == k && out[i].name == Some(p.0) && out[i].est == p.1;
        assert out[1..][i - 1] == out[i];
      }
      if exists i :: 0 <= i < |out| - 1 && out[1..][i].caseKey == k && out[1..][i].name == Some(p.0) && out[1..][i].est == p.1 {
        var i :| 0 <= i < |out| - 1 && out[1..][i].caseKey == k && out[1..][i].name == Some(p.0) && out[1..][i].est == p.1;
        assert out[i + 1] == out[1..][i];
      }
    }
  }

  lemma {:induction false} CasePairsNonEmpty<K, N, M>(out: seq<FitResult<K, N, M>>, k: K)
    requires k in FittedCases(out)
    ensures |CasePairs(out, k)| > 0
  {
    if !(out[0].name.Some? && out[0].caseKey == k) {
      CasePairsNonEmpty(out[1..], k);
    }
  }

  /** The registry holds a case exactly when some estimator of that case fit
      successfully; a case whose every fit failed is absent. */
  lemma RegistryKeys<K, N, M>(out: seq<FitResult<K, N, M>>, k: K)
    ensures k in Grouped(out).lists <==> exists i :: 0 <= i < |out| && out[i].caseKey == k && out[i].name.Some?
  {
    FittedCasesMembers(out, k);
  }

  /** No case is mapped to an empty list. */
  lemma RegistryNonEmpty<K, N, M>(out: seq<FitResult<K, N, M>>)
    ensures forall k :: k in Grouped(out).lists ==> |Grouped(out).lists[k]| > 0
  {
    forall k | k in Grouped(out).lists ensures |Grouped(out).lists[k]| > 0 {
      CasePairsNonEmpty(out, k);
    }
  }

  /** The insertion order lists every key exactly once. */
  lemma RegistryOrder<K, N, M>(out: seq<FitResult<K, N, M>>)
    ensures forall k :: k in Grouped(out).order <==> k in Grouped(out).lists
    ensures forall a, b :: 0 <= a < b < |Grouped(out).order| ==> Grouped(out).order[a] != Grouped(out).order[b]
  {
    DistinctMembers(FittedCases(out));
  }

  /** A pair is stored under a case exactly when a successful result of that
      case produced it: nothing is lost and nothing is invented. */
  lemma RegistryContents<K, N, M>(out: seq<FitResult<K, N, M>>, k: K, p: (N, M))
    requires k in Grouped(out).lists
    ensures p in Grouped(out).lists[k] <==>
              exists i :: 0 <= i < |out| && out[i].caseKey == k && out[i].name == Some(p.0) && out[i].est == p.1
  {
    CasePairsMembers(out, k, p);
  }

  lemma {:induction false} TotalPairsUpdate<K, P>(order: seq<K>, lists: map<K, seq<P>>, k: K, v: seq<P>)
    requires forall i :: 0 <= i < |order| ==> order[i] in lists
    requires forall a, b :: 0 <= a < b < |order| ==> order[a] != order[b]
    ensures TotalPairs(order, lists[k := v]) ==
              if k in order then TotalPairs(order, lists) - |lists[k]| + |v| else TotalPairs(order, lists)
    ensures k in order ==> TotalPairs(order, lists) >= |lists[k]|
  {
    if order != [] {
      var front := order[..|order| - 1];
      TotalPairsUpdate(front, lists, k, v);
      assert order == front + [order[|order| - 1]];
      assert k == order[|order| - 1] ==> k !in front;
    }
  }

  /** One iteration adds one pair for a successful fit and none for a
      failed one. */
  lemma TotalPairsInsert<K, N, M>(g: Registry<K, N, M>, x: FitResult<K, N, M>)
    requires forall k :: k in g.order <==> k in g.lists
    requires forall a, b :: 0 <= a < b < |g.order| ==> g.order[a] != g.order[b]
    ensures forall i :: 0 <= i < |Insert(g, x).order| ==> Insert(g, x).order[i] in Insert(g, x).lists
    ensures TotalPairs(Insert(g, x).order, Insert(g, x).lists) == TotalPairs(g.order, g.lists) + (if x.name.Some? then 1 else 0)
  {
    if x.name.Some? {
      var k, p := x.caseKey, (x.name.value, x.est);
      if k in g.lists {
        TotalPairsUpdate(g.order, g.lists, k, g.lists[k] + [p]);
      } else {
        TotalPairsUpdate(g.order, g.lists, k, [p]);
        var o := g.order + [k];
        assert o[..|o| - 1] == g.order;
      }
    }
  }

  /** Counts are conserved: the pairs stored add up to the number of
      successful results. */
  lemma {:induction false} RegistryCount<K, N, M>(out: seq<FitResult<K, N, M>>)
    ensures forall i :: 0 <= i < |Grouped(out).order| ==> Grouped(out).order[i] in Grouped(out).lists
    ensures TotalPairs(Grouped(out).order, Grouped(out).lists) == |FittedCases(out)|
    decreases |out|
  {
    RegistryOrder(out);
    if out != [] {
      var s, x := out[..|out| - 1], out[|out| - 1];
      assert out == s + [x];
      RegistryCount(s);
      RegistryOrder(s);
      GroupedSnoc(s, x);
      FittedCasesSnoc(s, x);
      TotalPairsInsert(Grouped(s), x);
    }
  }
}
