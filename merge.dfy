/**
 * The merge of per-album track streams. The outer SelectMany subscribes to
 * every album's inner stream and forwards elements as they arrive, and
 * ToListAsync appends them to one list. Which album's next element arrives
 * first is up to the network and the scheduler, so the collected list is some
 * interleaving of the parts that keeps each part's own order.
 */
module Merge {
  import opened Sequences

  /**
   * The elements of `r` whose source, according to `src`, is part `i`, in the
   * order they have in `r`.
   */
  function Pick<T>(r: seq<T>, src: seq<nat>, i: nat): seq<T>
    requires |src| == |r|
    decreases |r|
  {
    if r == [] then []
    else Pick(r[..|r| - 1], src[..|src| - 1], i) + (if src[|src| - 1] == i then [r[|r| - 1]] else [])
  }

  /** The parts that `src` splits `r` into. */
  function Picks<T>(r: seq<T>, src: seq<nat>, n: nat): seq<seq<T>>
    requires |src| == |r|
  {
    seq(n, i requires 0 <= i < n => Pick(r, src, i))
  }

  /** `src` names, for every element of `r`, the part it came from, and reading off each part gives it back whole. */
  ghost predicate IsSchedule<T>(r: seq<T>, src: seq<nat>, parts: seq<seq<T>>) {
    && |src| == |r|
    && (forall k | 0 <= k < |src| :: src[k] < |parts|)
    && (forall i | 0 <= i < |parts| :: Pick(r, src, i) == parts[i])
  }

  /** `r` is an interleaving of `parts`: every part appears in `r`, in its own order, and nothing else does. */
  ghost predicate IsInterleaving<T>(r: seq<T>, parts: seq<seq<T>>) {
    exists src: seq<nat> :: IsSchedule(r, src, parts)
  }

  lemma PickAppend<T>(r: seq<T>, src: seq<nat>, x: T, j: nat, i: nat)
    requires |src| == |r|
    ensures Pick(r + [x], src + [j], i) == Pick(r, src, i) + (if j == i then [x] else [])
  {
  }

  lemma {:induction false} PickAppendAll<T>(r: seq<T>, src: seq<nat>, q: seq<T>, m: nat, i: nat)
    requires |src| == |r|
    ensures Pick(r + q, src + seq(|q|, _ => m), i) == Pick(r, src, i) + (if i == m then q else [])
    decreases |q|
  {
    if q == [] {
      assert r + q == r;
      assert src + seq(|q|, _ => m) == src;
    } else {
      var init, x := q[..|q| - 1], q[|q| - 1];
      PickAppendAll(r, src, init, m, i);
      assert r + q == (r + init) + [x];
      assert src + seq(|q|, _ => m) == (src + seq(|init|, _ => m)) + [m];
      PickAppend(r + init, src + seq(|init|, _ => m), x, m, i);
      assert q == init + [x];
    }
  }

  lemma {:induction false} PickAbsent<T>(r: seq<T>, src: seq<nat>, i: nat)
    requires |src| == |r|
    requires forall k | 0 <= k < |src| :: src[k] != i
    ensures Pick(r, src, i) == []
    decreases |r|
  {
    if r != [] {
      PickAbsent(r[..|r| - 1], src[..|src| - 1], i);
    }
  }

  /** Splitting `r` by its sources and flattening the parts gives back the elements of `r`. */
  lemma {:induction false} PicksMultiset<T>(r: seq<T>, src: seq<nat>, n: nat)
    requires |src| == |r|
    requires forall k | 0 <= k < |src| :: src[k] < n
    ensures multiset(Flatten(Picks(r, src, n))) == multiset(r)
    decreases |r|
  {
    if r == [] {
      FlattenOfEmpties(Picks(r, src, n));
    } else {
      var init, x := r[..|r| - 1], r[|r| - 1];
      var srcInit, j := src[..|src| - 1], src[|src| - 1];
      PicksMultiset(init, srcInit, n);
      assert r == init + [x];
      assert src == srcInit + [j];
      var ps := Picks(init, srcInit, n);
      forall i | 0 <= i < n
        ensures Picks(r, src, n)[i] == ps[j := ps[j] + [x]][i]
      {
        PickAppend(init, srcInit, x, j, i);
      }
      assert Picks(r, src, n) == ps[j := ps[j] + [x]];
      FlattenAppendAt(ps, j, x);
    }
  }

  /** An interleaving holds exactly the elements of the album-ordered concatenation, with their multiplicities. */
  lemma InterleavingMultiset<T>(r: seq<T>, parts: seq<seq<T>>)
    requires IsInterleaving(r, parts)
    ensures multiset(r) == multiset(Flatten(parts))
    ensures |r| == |Flatten(parts)|
  {
    var src :| IsSchedule(r, src, parts);
    PicksMultiset(r, src, |parts|);
    assert Picks(r, src, |parts|) == parts;
    assert |multiset(r)| == |r|;
  }

  /** The parts one after the other is one admissible interleaving: the order in which the albums were discovered. */
  lemma {:induction false} FlattenIsInterleaving<T>(parts: seq<seq<T>>)
    ensures IsInterleaving(Flatten(parts), parts)
    decreases |parts|
  {
    if parts == [] {
      assert IsSchedule([], [], parts);
    } else {
      var m := |parts| - 1;
      var init, last := parts[..m], parts[m];
      FlattenIsInterleaving(init);
      var src :| IsSchedule(Flatten(init), src, init);
      var src' := src + seq(|last|, _ => m);
      assert Flatten(parts) == Flatten(init) + last;
      forall i | 0 <= i < |parts|
        ensures Pick(Flatten(parts), src', i) == parts[i]
      {
        PickAppendAll(Flatten(init), src, last, m, i);
        if i < m {
          assert init[i] == parts[i];
        } else {
          PickAbsent(Flatten(init), src, m);
        }
      }
      assert IsSchedule(Flatten(parts), src', parts);
    }
  }

  /** The merge loop's invariant: what is collected so far, followed by what each part still has to deliver, gives back the part. */
  ghost predicate MergeInvariant<T>(r: seq<T>, src: seq<nat>, pending: seq<seq<T>>, parts: seq<seq<T>>) {
    && |pending| == |parts| && |src| == |r|
    && (forall k | 0 <= k < |src| :: src[k] < |parts|)
    && (forall i | 0 <= i < |parts| :: Pick(r, src, i) + pending[i] == parts[i])
  }

  /** Delivering the next element of part `j` keeps the invariant. */
  lemma MergeStep<T>(r: seq<T>, src: seq<nat>, pending: seq<seq<T>>, parts: seq<seq<T>>, j: nat)
    requires MergeInvariant(r, src, pending, parts)
    requires j < |pending| && pending[j] != []
    ensures MergeInvariant(r + [pending[j][0]], src + [j], pending[j := pending[j][1..]], parts)
    ensures |Flatten(pending[j := pending[j][1..]])| < |Flatten(pending)|
  {
    var x, rest := pending[j][0], pending[j][1..];
    forall i | 0 <= i < |parts|
      ensures Pick(r + [x], src + [j], i) + pending[j := rest][i] == parts[i]
    {
      PickAppend(r, src, x, j, i);
      if i == j {
        assert [x] + rest == pending[j];
      }
    }
    FlattenLengthUpdate(pending, j, rest);
  }

  /** Once no part has anything left to deliver, the collected list is an interleaving of the parts. */
  lemma MergeDone<T>(r: seq<T>, src: seq<nat>, pending: seq<seq<T>>, parts: seq<seq<T>>)
    requires MergeInvariant(r, src, pending, parts)
    requires forall i | 0 <= i < |pending| :: pending[i] == []
    ensures IsInterleaving(r, parts)
  {
    forall i | 0 <= i < |parts|
      ensures Pick(r, src, i) == parts[i]
    {
      assert Pick(r, src, i) + pending[i] == parts[i];
    }
    assert IsSchedule(r, src, parts);
  }

  /**
   * SelectMany followed by ToListAsync: repeatedly take the next element of
   * some part that still has one, whichever arrives first, and append it.
   */
  method MergeAsArrived<T>(parts: seq<seq<T>>) returns (r: seq<T>)
    ensures IsInterleaving(r, parts)
  {
    r := [];
    ghost var src: seq<nat> := [];
    var pending := parts;
    while exists i | 0 <= i < |pending| :: pending[i] != []
      invariant MergeInvariant(r, src, pending, parts)
      decreases |Flatten(pending)|
    {
      var j :| 0 <= j < |pending| && pending[j] != [];
      MergeStep(r, src, pending, parts, j);
      r, src, pending := r + [pending[j][0]], src + [j], pending[j := pending[j][1..]];
    }
    MergeDone(r, src, pending, parts);
  }
}
