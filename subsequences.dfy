/**
 * Order-preserving selection, as pandas boolean masks and Python list
 * comprehensions with an `if` produce it: some entries are left out and
 * the rest keep their relative order.
 */
module Subsequences {

  /** `idx` lists strictly increasing positions of `s`, and `r` is `s` read at them. */
  ghost predicate PicksInOrder<T>(r: seq<T>, s: seq<T>, idx: seq<nat>)
  {
    && |idx| == |r|
    && (forall k :: 0 <= k < |idx| ==> idx[k] < |s| && r[k] == s[idx[k]])
    && (forall k, l :: 0 <= k < l < |idx| ==> idx[k] < idx[l])
  }

  /** `r` is `s` with some entries left out and the others in their original order. */
  ghost predicate Subsequence<T>(r: seq<T>, s: seq<T>)
  {
    exists idx: seq<nat> :: PicksInOrder(r, s, idx)
  }

  lemma SubsequenceOfEmpty<T>()
    ensures Subsequence<T>([], [])
  {
    assert PicksInOrder<T>([], [], []);
  }

  /** Appending an entry to the input keeps a selection; appending it to both selects it too. */
  lemma SubsequenceExtend<T>(r: seq<T>, s: seq<T>, x: T)
    requires Subsequence(r, s)
    ensures Subsequence(r, s + [x])
    ensures Subsequence(r + [x], s + [x])
  {
    var idx: seq<nat> :| PicksInOrder(r, s, idx);
    assert PicksInOrder(r, s + [x], idx);
    var extended: seq<nat> := idx + [|s|];
    assert PicksInOrder(r + [x], s + [x], extended);
  }
}
