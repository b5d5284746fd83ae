/**
 * The list semantics of MongoDB's `$pull: { groups: { $in: ids } }`: every
 * element of `groups` equal to some element of `ids` is removed, every other
 * element stays, in its original order.
 */
module GroupPull {

  function Pull(groups: seq<string>, ids: seq<string>): (r: seq<string>)
    ensures |r| <= |groups|
    ensures forall x :: x in r <==> x in groups && x !in ids
    ensures forall x :: multiset(r)[x] == if x in ids then 0 else multiset(groups)[x]
  {
    if groups == [] then []
    else
      assert groups == [groups[0]] + groups[1..];
      if groups[0] in ids then Pull(groups[1..], ids)
      else [groups[0]] + Pull(groups[1..], ids)
  }

  /** Order is kept: pulling from a concatenation pulls from each part in place. */
  lemma {:induction false} PullConcat(a: seq<string>, b: seq<string>, ids: seq<string>)
    ensures Pull(a + b, ids) == Pull(a, ids) + Pull(b, ids)
  {
    if a == [] {
      assert a + b == b;
    } else {
      assert (a + b)[1..] == a[1..] + b;
      PullConcat(a[1..], b, ids);
    }
  }

  /** A single element is dropped exactly when it is listed. */
  lemma PullSingleton(x: string, ids: seq<string>)
    ensures Pull([x], ids) == if x in ids then [] else [x]
  {
    assert [x][1..] == [];
  }

  /** Removing ids none of which occur leaves the list as it was. */
  lemma {:induction false} PullAbsent(groups: seq<string>, ids: seq<string>)
    requires forall x :: x in ids ==> x !in groups
    ensures Pull(groups, ids) == groups
  {
    if groups != [] {
      PullAbsent(groups[1..], ids);
    }
  }

  /** With `groups = []` in the request nothing is removed. */
  lemma PullNothing(groups: seq<string>)
    ensures Pull(groups, []) == groups
  {
    PullAbsent(groups, []);
  }

  /** The result depends only on which ids are listed, not on their order or repetition. */
  lemma {:induction false} PullSameIds(groups: seq<string>, ids1: seq<string>, ids2: seq<string>)
    requires forall x :: x in ids1 <==> x in ids2
    ensures Pull(groups, ids1) == Pull(groups, ids2)
  {
    if groups != [] {
      PullSameIds(groups[1..], ids1, ids2);
    }
  }

  /** In particular, any permutation of the requested ids removes the same groups. */
  lemma PullPermutedIds(groups: seq<string>, ids1: seq<string>, ids2: seq<string>)
    requires multiset(ids1) == multiset(ids2)
    ensures Pull(groups, ids1) == Pull(groups, ids2)
  {
    forall x ensures x in ids1 <==> x in ids2 {
      assert x in ids1 <==> x in multiset(ids1);
      assert x in ids2 <==> x in multiset(ids2);
    }
    PullSameIds(groups, ids1, ids2);
  }

  /** Two removals in a row remove the union of both lists. */
  lemma {:induction false} PullTwice(groups: seq<string>, ids1: seq<string>, ids2: seq<string>)
    ensures Pull(Pull(groups, ids1), ids2) == Pull(groups, ids1 + ids2)
  {
    if groups != [] {
      PullTwice(groups[1..], ids1, ids2);
      var g := groups[0];
      if g !in ids1 {
        assert Pull(groups, ids1) == [g] + Pull(groups[1..], ids1);
        assert Pull(groups, ids1)[1..] == Pull(groups[1..], ids1);
      }
    }
  }

  /** Removals commute, so concurrent removals compose whatever their order. */
  lemma PullCommutes(groups: seq<string>, ids1: seq<string>, ids2: seq<string>)
    ensures Pull(Pull(groups, ids1), ids2) == Pull(Pull(groups, ids2), ids1)
  {
    PullTwice(groups, ids1, ids2);
    PullTwice(groups, ids2, ids1);
    PullSameIds(groups, ids1 + ids2, ids2 + ids1);
  }

  /** Repeating a removal changes nothing more. */
  lemma PullIdempotent(groups: seq<string>, ids: seq<string>)
    ensures Pull(Pull(groups, ids), ids) == Pull(groups, ids)
  {
    PullTwice(groups, ids, ids);
    PullSameIds(groups, ids + ids, ids);
  }

  /** Every group id occurs at most once. */
  ghost predicate NoDuplicates(s: seq<string>) {
    forall x :: multiset(s)[x] <= 1
  }

  /** A groups list without duplicates stays without duplicates. */
  lemma PullKeepsNoDuplicates(groups: seq<string>, ids: seq<string>)
    requires NoDuplicates(groups)
    ensures NoDuplicates(Pull(groups, ids))
  {
  }
}
