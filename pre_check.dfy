/** `_pre_check_estimators`: the ordered names of the estimators that produced
    a result, taken from the caller's column list.

    A result tuple is modelled as the sequence of its components, so that the
    arity handling of `zip(*out)` followed by a three-way unpacking with a
    two-way fallback is stated exactly: `zip` yields as many tuples as the
    shortest result has components (none for an empty `out`), the first
    unpacking succeeds when there are exactly three, the fallback when there
    are exactly two, and otherwise a ValueError propagates. */
module PreCheck {
  import opened Outcome

  /** How many tuples `zip(*out)` yields: the smallest arity among the results,
      and zero when there are no results. */
  function ZipWidth<T>(out: seq<seq<T>>): (w: nat)
    ensures |out| == 0 ==> w == 0
    ensures |out| > 0 ==> exists i :: 0 <= i < |out| && w == |out[i]|
    ensures forall i :: 0 <= i < |out| ==> w <= |out[i]|
  {
    if |out| == 0 then 0
    else if |out| == 1 then |out[0]|
    else
      var rest := ZipWidth(out[1..]);
      assert forall i :: 1 <= i < |out| ==> out[i] == out[1..][i - 1];
      if |out[0]| < rest then |out[0]| else rest
  }

  /** The first tuple `zip(*out)` yields: the first component of every result. */
  function FirstComponents<T>(out: seq<seq<T>>): seq<T>
    requires forall i :: 0 <= i < |out| ==> |out[i]| > 0
  {
    seq(|out|, i requires 0 <= i < |out| => out[i][0])
  }

  /** `[ce for ce in columns if ce in names]`. */
  function KeepPresent<T(==,!new)>(columns: seq<T>, names: seq<T>): (r: seq<T>)
    ensures |r| <= |columns|
    ensures forall c :: c in r <==> c in columns && c in names
  {
    if columns == [] then []
    else (if columns[0] in names then [columns[0]] else []) + KeepPresent(columns[1..], names)
  }

  function PreCheckEstimators<T(==,!new)>(out: seq<seq<T>>, columns: seq<T>): (r: Result<seq<T>>)
    ensures r.Ok? <==> ZipWidth(out) == 2 || ZipWidth(out) == 3
    ensures r.Err? ==> r.error == ValueError
    ensures r.Ok? ==> |out| > 0 && |r.value| <= |columns|
    ensures r.Ok? ==> forall c :: c in r.value <==> c in columns && exists i :: 0 <= i < |out| && out[i] != [] && out[i][0] == c
  {
    var width := ZipWidth(out);
    if width == 3 || width == 2 then
      var names := FirstComponents(out);
      assert forall c :: c in names <==> exists i :: 0 <= i < |out| && out[i] != [] && out[i][0] == c by {
        forall c | c in names ensures exists i :: 0 <= i < |out| && out[i] != [] && out[i][0] == c {
          var i :| 0 <= i < |names| && names[i] == c;
          assert out[i][0] == c;
        }
        forall i | 0 <= i < |out| ensures out[i][0] in names {
          assert names[i] == out[i][0];
        }
      }
      Ok(KeepPresent(columns, names))
    else
      Err(ValueError)
  }

  /** Reference definition of the kept positions: the indices from `from` on
      whose column is among `names`, in increasing order. */
  function KeptIndices<T(==,!new)>(columns: seq<T>, names: seq<T>, from: nat): (idx: seq<nat>)
    requires from <= |columns|
    ensures forall k :: 0 <= k < |idx| ==> from <= idx[k] < |columns|
    ensures forall k, l :: 0 <= k < l < |idx| ==> idx[k] < idx[l]
    ensures forall i :: from <= i < |columns| ==> (i in idx <==> columns[i] in names)
    decreases |columns| - from
  {
    if from == |columns| then []
    else (if columns[from] in names then [from] else []) + KeptIndices(columns, names, from + 1)
  }

  /** The filter keeps as many columns as there are kept positions. */
  lemma {:induction false} KeptLength<T(!new)>(columns: seq<T>, names: seq<T>, from: nat)
    requires from <= |columns|
    ensures |KeepPresent(columns[from..], names)| == |KeptIndices(columns, names, from)|
    decreases |columns| - from
  {
    if from < |columns| {
      KeptLength(columns, names, from + 1);
      assert columns[from..][1..] == columns[from + 1..];
    }
  }

  /** The filter's k-th column is the column at the k-th kept position. */
  lemma {:induction false} KeptAt<T(!new)>(columns: seq<T>, names: seq<T>, from: nat, k: nat)
    requires from <= |columns| && k < |KeptIndices(columns, names, from)|
    ensures |KeepPresent(columns[from..], names)| == |KeptIndices(columns, names, from)|
    ensures KeepPresent(columns[from..], names)[k] == columns[KeptIndices(columns, names, from)[k]]
    decreases |columns| - from
  {
    KeptLength(columns, names, from);
    assert columns[from..][1..] == columns[from + 1..];
    var hit := columns[from] in names;
    if !hit || k > 0 {
      var k' := if hit then k - 1 else k;
      KeptAt(columns, names, from + 1, k');
      assert KeepPresent(columns[from..], names)[k] == KeepPresent(columns[from + 1..], names)[k'];
      assert KeptIndices(columns, names, from)[k] == KeptIndices(columns, names, from + 1)[k'];
    }
  }

  /** The column names returned are the caller's columns at exactly the
      positions whose name is among the first components of the results, in
      the caller's order: an order-preserving subsequence. */
  lemma PreCheckOrder<T(!new)>(out: seq<seq<T>>, columns: seq<T>)
    requires PreCheckEstimators(out, columns).Ok?
    ensures forall i :: 0 <= i < |out| ==> |out[i]| > 0
    ensures var idx := KeptIndices(columns, FirstComponents(out), 0);
            var r := PreCheckEstimators(out, columns).value;
            && |r| == |idx|
            && (forall k :: 0 <= k < |r| ==> r[k] == columns[idx[k]])
            && (forall i :: 0 <= i < |columns| ==> (i in idx <==> columns[i] in FirstComponents(out)))
  {
    var names := FirstComponents(out);
    assert columns[0..] == columns;
    KeptLength(columns, names, 0);
    forall k | 0 <= k < |KeptIndices(columns, names, 0)|
      ensures KeepPresent(columns, names)[k] == columns[KeptIndices(columns, names, 0)[k]]
    {
      KeptAt(columns, names, 0, k);
    }
  }

  /** When every result has the same arity, the pre-check succeeds exactly for
      three-tuples and, through the fallback, for two-tuples. */
  lemma UniformArity<T(!new)>(out: seq<seq<T>>, columns: seq<T>, arity: nat)
    requires |out| > 0
    requires forall i :: 0 <= i < |out| ==> |out[i]| == arity
    ensures PreCheckEstimators(out, columns).Ok? <==> arity == 2 || arity == 3
  {
    var i :| 0 <= i < |out| && ZipWidth(out) == |out[i]|;
  }

  /** Results of arities two and three may be mixed: `zip` truncates to the
      shorter ones, and the fallback unpacking applies. */
  lemma MixedArity<T(!new)>(out: seq<seq<T>>, columns: seq<T>)
    requires forall i :: 0 <= i < |out| ==> |out[i]| == 2 || |out[i]| == 3
    requires exists i :: 0 <= i < |out| && |out[i]| == 2
    ensures PreCheckEstimators(out, columns).Ok?
  {
    var i :| 0 <= i < |out| && ZipWidth(out) == |out[i]|;
    var j :| 0 <= j < |out| && |out[j]| == 2;
  }

  /** With candidate columns rf, svm, knn and results only for svm and then
      rf, the names come back in the caller's order: rf, svm. */
  lemma CallerOrderExample()
    ensures PreCheckEstimators([["svm", "case", "preds"], ["rf", "case", "preds"]], ["rf", "svm", "knn"])
         == Ok(["rf", "svm"])
  {
    var out := [["svm", "case", "preds"], ["rf", "case", "preds"]];
    assert ZipWidth(out) == 3 by {
      assert out[1..] == [["rf", "case", "preds"]];
    }
    assert FirstComponents(out) == ["svm", "rf"];
    var cols := ["rf", "svm", "knn"];
    assert cols[1..] == ["svm", "knn"] && cols[1..][1..] == ["knn"] && cols[1..][1..][1..] == [];
    assert "knn" != "svm" && "knn" != "rf" by {
      assert "knn"[0] != "svm"[0] && "knn"[0] != "rf"[0];
    }
    assert KeepPresent(["knn"], ["svm", "rf"]) == [];
    assert KeepPresent(["svm", "knn"], ["svm", "rf"]) == ["svm"];
    assert KeepPresent(cols, ["svm", "rf"]) == ["rf", "svm"];
  }
}
