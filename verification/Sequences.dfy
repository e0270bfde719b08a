/** Subsequences: what is left of a sequence, in its order, after some elements
    have been taken out. */
module Sequences {

  /** `at` says which positions of `b` make up `a`. */
  ghost predicate Embeds<T>(a: seq<T>, b: seq<T>, at: seq<nat>) {
    && |at| == |a|
    && (forall i :: 0 <= i < |at| ==> at[i] < |b| && b[at[i]] == a[i])
    && (forall i, j :: 0 <= i < j < |at| ==> at[i] < at[j])
  }

  ghost predicate Subsequence<T>(a: seq<T>, b: seq<T>) {
    exists at: seq<nat> :: Embeds(a, b, at)
  }

  lemma SubsequenceGrow<T>(a: seq<T>, b: seq<T>, x: T)
    requires Subsequence(a, b)
    ensures Subsequence(a + [x], b + [x])
  {
    var at: seq<nat> :| Embeds(a, b, at);
    assert Embeds(a + [x], b + [x], at + [|b|]);
  }

  lemma SubsequenceDrop<T>(a: seq<T>, b: seq<T>, i: nat)
    requires Subsequence(a, b) && i < |a|
    ensures Subsequence(a[..i] + a[i + 1..], b)
  {
    var at: seq<nat> :| Embeds(a, b, at);
    assert Embeds(a[..i] + a[i + 1..], b, at[..i] + at[i + 1..]);
  }

  lemma SubsequenceCut<T>(a: seq<T>, b: seq<T>, i: nat, j: nat)
    requires Subsequence(a, b) && i <= j <= |a|
    ensures Subsequence(a[..i] + a[j..], b)
  {
    var at: seq<nat> :| Embeds(a, b, at);
    assert Embeds(a[..i] + a[j..], b, at[..i] + at[j..]);
  }
}
