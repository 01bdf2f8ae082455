/** Whether facts stand in the order a projection appends them: one pass over a shared iterator. */
module Subsequence {
  /** Positions in `order`, each after the last, where `present` is found. */
  ghost predicate Embeds(present: seq<string>, order: seq<string>, at: seq<nat>) {
    && |at| == |present|
    && (forall i :: 0 <= i < |at| ==> at[i] < |order| && order[at[i]] == present[i])
    && (forall i, j :: 0 <= i < j < |at| ==> at[i] < at[j])
  }

  ghost predicate Embedded(present: seq<string>, order: seq<string>) {
    exists at: seq<nat> :: Embeds(present, order, at)
  }

  /**
   The scan has consumed `next` of the order and found the first `found` facts at `at`, each as early
   as it could be: no embedding of those facts ends sooner.
   */
  ghost predicate Earliest(present: seq<string>, order: seq<string>, found: nat, next: nat, at: seq<nat>) {
    && found <= |present| && next <= |order|
    && Embeds(present[..found], order, at)
    && (found > 0 ==> at[found - 1] + 1 == next)
    && (found == 0 ==> next == 0)
    && forall other: seq<nat> :: Embeds(present[..found], order, other) && found > 0 ==> other[found - 1] + 1 >= next
  }

  lemma PrefixEmbeds(present: seq<string>, order: seq<string>, at: seq<nat>, k: nat)
    requires Embeds(present, order, at) && k <= |present|
    ensures Embeds(present[..k], order, at[..k])
  {
  }

  /** Any embedding finds the next fact no earlier than where the scan stands. */
  lemma NextIsNotBehind(present: seq<string>, order: seq<string>, found: nat, next: nat, at: seq<nat>, facts: nat,
      other: seq<nat>)
    requires Earliest(present, order, found, next, at) && found < facts <= |present|
    requires Embeds(present[..facts], order, other)
    ensures next <= other[found] < |order| && order[other[found]] == present[found]
  {
    var longer := present[..facts];
    assert longer[..found] == present[..found];
    PrefixEmbeds(longer, order, other, found);
    assert Embeds(present[..found], order, other[..found]);
    assert found > 0 ==> other[..found][found - 1] + 1 >= next;
  }

  /** Taking the first match after an earliest scan is again earliest. */
  lemma TakeFirst(present: seq<string>, order: seq<string>, found: nat, next: nat, at: seq<nat>, k: nat)
    requires Earliest(present, order, found, next, at) && found < |present|
    requires next <= k < |order| && order[k] == present[found]
    requires forall i :: next <= i < k ==> order[i] != present[found]
    ensures Earliest(present, order, found + 1, k + 1, at + [k])
  {
    assert present[..found + 1][..found] == present[..found];
    forall other: seq<nat> | Embeds(present[..found + 1], order, other) ensures other[found] + 1 >= k + 1 {
      NextIsNotBehind(present, order, found, next, at, found + 1, other);
    }
  }

  /** With no match left after an earliest scan, nothing embeds the whole. */
  lemma NoneLeft(present: seq<string>, order: seq<string>, found: nat, next: nat, at: seq<nat>)
    requires Earliest(present, order, found, next, at) && found < |present|
    requires forall i :: next <= i < |order| ==> order[i] != present[found]
    ensures !Embedded(present, order)
  {
    assert present[..|present|] == present;
    forall other: seq<nat> ensures !Embeds(present, order, other) {
      if Embeds(present, order, other) {
        NextIsNotBehind(present, order, found, next, at, |present|, other);
      }
    }
  }

  /** A greedy pass that never looks back finds an embedding whenever there is one. */
  method IsSubsequence(present: seq<string>, order: seq<string>) returns (r: bool)
    ensures r <==> Embedded(present, order)
  {
    var next := 0;
    ghost var at: seq<nat> := [];
    for found := 0 to |present|
      invariant Earliest(present, order, found, next, at)
    {
      var k := next;
      while k < |order| && order[k] != present[found]
        invariant next <= k <= |order|
        invariant forall i :: next <= i < k ==> order[i] != present[found]
      {
        k := k + 1;
      }
      if k == |order| {
        NoneLeft(present, order, found, next, at);
        return false;
      }
      TakeFirst(present, order, found, next, at, k);
      next, at := k + 1, at + [k];
    }
    assert present[..|present|] == present;
    return true;
  }
}
