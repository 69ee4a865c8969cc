/** Sequence notions the pipeline's properties are stated with. */
module Sequences {

  /** `xs` is obtained from `ys` by deleting zero or more elements. */
  predicate IsSubsequence<T(==)>(xs: seq<T>, ys: seq<T>)
    decreases |ys|
  {
    if xs == [] then true
    else if ys == [] then false
    else (xs[0] == ys[0] && IsSubsequence(xs[1..], ys[1..])) || IsSubsequence(xs, ys[1..])
  }

  /** A subsequence of the tail of `ys` is a subsequence of `ys`. */
  lemma SubsequenceOfTail<T>(xs: seq<T>, ys: seq<T>)
    requires ys != [] && IsSubsequence(xs, ys[1..])
    ensures IsSubsequence(xs, ys)
  {
  }

  /** The parts one after the other, in the order of `parts`. */
  function Flatten<T>(parts: seq<seq<T>>): seq<T>
    decreases |parts|
  {
    if parts == [] then [] else Flatten(parts[..|parts| - 1]) + parts[|parts| - 1]
  }

  /** An element is in the flattening exactly when it is in one of the parts. */
  lemma {:induction false} InFlatten<T>(x: T, parts: seq<seq<T>>)
    ensures x in Flatten(parts) <==> exists i :: 0 <= i < |parts| && x in parts[i]
    decreases |parts|
  {
    if parts != [] {
      var init := parts[..|parts| - 1];
      InFlatten(x, init);
      if x in Flatten(parts) && x !in parts[|parts| - 1] {
        var i :| 0 <= i < |init| && x in init[i];
        assert parts[i] == init[i];
      }
      if exists i :: 0 <= i < |parts| && x in parts[i] {
        var i :| 0 <= i < |parts| && x in parts[i];
        if i < |parts| - 1 {
          assert init[i] == parts[i];
        }
      }
    }
  }

  /** Flattening parts that are all empty gives the empty sequence. */
  lemma {:induction false} FlattenOfEmpties<T>(parts: seq<seq<T>>)
    requires forall i | 0 <= i < |parts| :: parts[i] == []
    ensures Flatten(parts) == []
    decreases |parts|
  {
    if parts != [] {
      FlattenOfEmpties(parts[..|parts| - 1]);
    }
  }

  /** Appending `x` to one part adds one `x` to the flattening. */
  lemma {:induction false} FlattenAppendAt<T>(parts: seq<seq<T>>, j: nat, x: T)
    requires j < |parts|
    ensures multiset(Flatten(parts[j := parts[j] + [x]])) == multiset(Flatten(parts)) + multiset{x}
    decreases |parts|
  {
    var n := |parts|;
    var init, last := parts[..n - 1], parts[n - 1];
    var updated := parts[j := parts[j] + [x]];
    assert Flatten(parts) == Flatten(init) + last;
    if j == n - 1 {
      assert updated[..n - 1] == init;
      assert Flatten(updated) == (Flatten(init) + last) + [x];
    } else {
      FlattenAppendAt(init, j, x);
      assert updated[..n - 1] == init[j := init[j] + [x]];
      assert Flatten(updated) == Flatten(init[j := init[j] + [x]]) + last;
    }
  }

  /** Replacing one part by `q` changes the length of the flattening by the difference in length. */
  lemma {:induction false} FlattenLengthUpdate<T>(parts: seq<seq<T>>, j: nat, q: seq<T>)
    requires j < |parts|
    ensures |Flatten(parts[j := q])| + |parts[j]| == |Flatten(parts)| + |q|
    decreases |parts|
  {
    var n := |parts|;
    var init := parts[..n - 1];
    var updated := parts[j := q];
    if j == n - 1 {
      assert updated[..n - 1] == init;
    } else {
      FlattenLengthUpdate(init, j, q);
      assert updated[..n - 1] == init[j := q];
    }
  }
}
