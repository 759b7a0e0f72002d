/**
 The in-place purge used for the idle list and for a statement's connection cache:
 a dead element is overwritten by the last one, the list shrinks by one, and the same
 index is looked at again.
 */
module SwapRemove {

  /** What the purge leaves in the list, and the elements it removed in the order it met them. */
  function Purge<T(==)>(s: seq<T>, i: nat, dead: set<T>): (r: (seq<T>, seq<T>))
    requires i <= |s|
    decreases |s| - i
  {
    if i == |s| then (s, [])
    else if s[i] in dead then
      var rest := Purge(s[i := s[|s| - 1]][..|s| - 1], i, dead);
      (rest.0, [s[i]] + rest.1)
    else Purge(s, i + 1, dead)
  }

  /** Overwriting position i by the last element and dropping that one removes exactly s[i]. */
  lemma SwapOutMultiset<T>(s: seq<T>, i: nat)
    requires i < |s|
    ensures multiset(s) == multiset{s[i]} + multiset(s[i := s[|s| - 1]][..|s| - 1])
  {
    var last := |s| - 1;
    assert s == s[..last] + [s[last]];
    if i < last {
      var t := s[..last];
      assert s[i := s[last]][..last] == t[i := s[last]];
      assert multiset(t[i := s[last]]) == multiset(t) - multiset{t[i]} + multiset{s[last]};
      assert t[i] in t;
      assert multiset(s) == multiset(t) + multiset{s[last]};
    } else {
      assert s[i := s[last]][..last] == s[..last];
    }
  }

  /** r splits s from position i on: what stays, and what was removed. */
  ghost predicate Splits<T>(s: seq<T>, i: nat, dead: set<T>, r: (seq<T>, seq<T>))
    requires i <= |s|
  {
    && multiset(s) == multiset(r.0) + multiset(r.1)
    && i <= |r.0| && r.0[..i] == s[..i]
    && (forall j :: i <= j < |r.0| ==> r.0[j] !in dead)
    && (forall x :: x in r.1 ==> x in dead)
  }

  /** A dead element goes to the removed ones. */
  lemma SplitAtDead<T>(s: seq<T>, i: nat, dead: set<T>, rest: (seq<T>, seq<T>))
    requires i < |s| && s[i] in dead && Splits(s[i := s[|s| - 1]][..|s| - 1], i, dead, rest)
    ensures Splits(s, i, dead, (rest.0, [s[i]] + rest.1))
  {
    SwapOutMultiset(s, i);
    assert s[i := s[|s| - 1]][..|s| - 1][..i] == s[..i];
    assert multiset([s[i]] + rest.1) == multiset{s[i]} + multiset(rest.1);
  }

  /** A living one stays where it is. */
  lemma SplitAtLiving<T>(s: seq<T>, i: nat, dead: set<T>, r: (seq<T>, seq<T>))
    requires i < |s| && s[i] !in dead && Splits(s, i + 1, dead, r)
    ensures Splits(s, i, dead, r)
  {
    assert r.0[i] == r.0[..i + 1][i] == s[..i + 1][i];
    assert r.0[..i] == r.0[..i + 1][..i] == s[..i + 1][..i] == s[..i];
  }

  lemma {:induction false} PurgeSplits<T>(s: seq<T>, i: nat, dead: set<T>)
    requires i <= |s|
    ensures Splits(s, i, dead, Purge(s, i, dead))
    decreases |s| - i
  {
    if i == |s| {
      assert multiset(s) == multiset(s) + multiset([]);
    } else {
      hide Splits;
      if s[i] in dead {
        PurgeSplits(s[i := s[|s| - 1]][..|s| - 1], i, dead);
        SplitAtDead(s, i, dead, Purge(s[i := s[|s| - 1]][..|s| - 1], i, dead));
      } else {
        PurgeSplits(s, i + 1, dead);
        SplitAtLiving(s, i, dead, Purge(s, i + 1, dead));
      }
    }
  }

  /** The purge splits the list: nothing is lost or duplicated, exactly the dead ones leave. */
  lemma PurgePartition<T>(s: seq<T>, i: nat, dead: set<T>)
    requires i <= |s|
    ensures var r := Purge(s, i, dead);
      && multiset(s) == multiset(r.0) + multiset(r.1)
      && i <= |r.0| && r.0[..i] == s[..i]
      && (forall j :: i <= j < |r.0| ==> r.0[j] !in dead)
      && (forall x :: x in r.1 ==> x in dead)
  {
    PurgeSplits(s, i, dead);
    hide Purge;
  }

  /** Purging from the start: the count of every value is kept in full or dropped in full. */
  lemma PurgeCounts<T>(s: seq<T>, dead: set<T>)
    ensures var r := Purge(s, 0, dead);
      forall x :: multiset(r.0)[x] == (if x in dead then 0 else multiset(s)[x])
               && multiset(r.1)[x] == (if x in dead then multiset(s)[x] else 0)
  {
    PurgePartition(s, 0, dead);
    var r := Purge(s, 0, dead);
    assert forall x :: x in multiset(r.0) ==> x in r.0;
    assert forall x :: x in multiset(r.1) ==> x in r.1;
  }

  /** What stays was there. */
  lemma PurgeMembers<T>(s: seq<T>, i: nat, dead: set<T>)
    requires i <= |s|
    ensures forall x :: x in Purge(s, i, dead).0 ==> x in s
  {
    PurgePartition(s, i, dead);
    forall x | x in Purge(s, i, dead).0 ensures x in s {
      assert x in multiset(s);
    }
  }

  /** No repeated element. */
  ghost predicate Distinct<T>(s: seq<T>) {
    forall i, j :: 0 <= i < j < |s| ==> s[i] != s[j]
  }

  /** The purge never makes two copies of an element. */
  lemma {:induction false} PurgeDistinct<T>(s: seq<T>, i: nat, dead: set<T>)
    requires i <= |s| && Distinct(s)
    ensures Distinct(Purge(s, i, dead).0)
    decreases |s| - i
  {
    if i == |s| {
    } else if s[i] in dead {
      PurgeDistinct(s[i := s[|s| - 1]][..|s| - 1], i, dead);
    } else {
      PurgeDistinct(s, i + 1, dead);
    }
  }

  /** A list of distinct elements has as many positions as elements. */
  lemma {:induction false} DistinctSize<T>(s: seq<T>)
    requires Distinct(s)
    ensures |set x | x in s| == |s|
  {
    if s == [] {
    } else {
      var t := s[..|s| - 1];
      DistinctSize(t);
      assert s == t + [s[|s| - 1]];
      assert (set x | x in s) == (set x | x in t) + {s[|s| - 1]};
    }
  }
}
