/**
 * An ordered set of thread identities, as std::set keeps it: a strictly
 * increasing sequence, which is the order in which iterating the set visits
 * its elements.
 */
module OrderedSets {

  predicate StrictlySorted(s: seq<int>)
  {
    forall i, j :: 0 <= i < j < |s| ==> s[i] < s[j]
  }

  function Elements(s: seq<int>): set<int>
  {
    set x | x in s
  }

  lemma ElementsCons(h: int, rest: seq<int>)
    ensures Elements([h] + rest) == {h} + Elements(rest)
  {
    assert forall y :: y in [h] + rest <==> y == h || y in rest;
  }

  lemma ConsSorted(h: int, rest: seq<int>)
    requires StrictlySorted(rest)
    requires forall y :: y in Elements(rest) ==> h < y
    ensures StrictlySorted([h] + rest)
  {
    forall j | 0 <= j < |rest| ensures h < rest[j] {
      assert rest[j] in Elements(rest);
    }
  }

  lemma TailAbove(s: seq<int>)
    requires StrictlySorted(s) && |s| > 0
    ensures StrictlySorted(s[1..])
    ensures forall y :: y in Elements(s[1..]) ==> s[0] < y
  {
  }

  /** std::set::insert: adds x unless it is already present, keeping the order. */
  function Insert(s: seq<int>, x: int): (r: seq<int>)
    requires StrictlySorted(s)
    ensures StrictlySorted(r)
    ensures Elements(r) == Elements(s) + {x}
    decreases |s|
  {
    if s == [] || x < s[0] then
      ElementsCons(x, s);
      ConsSorted(x, s);
      [x] + s
    else if x == s[0] then s
    else
      var rest := Insert(s[1..], x);
      TailAbove(s);
      ElementsCons(s[0], s[1..]);
      assert [s[0]] + s[1..] == s;
      ElementsCons(s[0], rest);
      ConsSorted(s[0], rest);
      [s[0]] + rest
  }

  /** The elements of a set that are smaller than t. */
  function Smaller(ids: set<int>, t: int): set<int>
  {
    set x | x in ids && x < t
  }

  /**
   * The position of t when the set is walked in increasing order, or -1 when
   * t is not in the set.
   */
  function ThreadRank(ids: set<int>, t: int): int
  {
    if t in ids then |Smaller(ids, t)| else -1
  }

  lemma SubsetCard(a: set<int>, b: set<int>)
    requires a <= b
    ensures |a| <= |b|
  {
    assert a * b == a;
    assert |b - a| == |b| - |a * b|;
  }

  /** A recorded identity gets a rank in 0 .. |ids| - 1. */
  lemma RankBounds(ids: set<int>, t: int)
    requires t in ids
    ensures 0 <= ThreadRank(ids, t) < |ids|
  {
    SubsetCard(Smaller(ids, t), ids - {t});
  }

  /** Ranks follow the order of the identities, so distinct identities get distinct ranks. */
  lemma RankStrictlyMonotone(ids: set<int>, t1: int, t2: int)
    requires t1 in ids && t2 in ids && t1 < t2
    ensures ThreadRank(ids, t1) < ThreadRank(ids, t2)
  {
    assert Smaller(ids, t1) + {t1} <= Smaller(ids, t2);
    SubsetCard(Smaller(ids, t1) + {t1}, Smaller(ids, t2));
  }

  lemma RankInjective(ids: set<int>, t1: int, t2: int)
    requires t1 in ids && t2 in ids && t1 != t2
    ensures ThreadRank(ids, t1) != ThreadRank(ids, t2)
  {
    if t1 < t2 { RankStrictlyMonotone(ids, t1, t2); } else { RankStrictlyMonotone(ids, t2, t1); }
  }

  /** A strictly increasing sequence has no repeated element. */
  lemma {:induction false} DistinctCard(s: seq<int>)
    requires StrictlySorted(s)
    ensures |Elements(s)| == |s|
  {
    if s != [] {
      DistinctCard(s[1..]);
      assert Elements(s) == {s[0]} + Elements(s[1..]);
      assert s[0] !in Elements(s[1..]);
    }
  }

  /** Walking a sorted sequence, the index of an element is its rank in the set. */
  lemma SortedIndexIsRank(s: seq<int>, i: int)
    requires StrictlySorted(s) && 0 <= i < |s|
    ensures ThreadRank(Elements(s), s[i]) == i
  {
    assert s[i] in Elements(s);
    var prefix := s[..i];
    assert Smaller(Elements(s), s[i]) == Elements(prefix) by {
      forall x | x in Smaller(Elements(s), s[i]) ensures x in Elements(prefix) {
        var k :| 0 <= k < |s| && s[k] == x;
        assert k < i;
        assert prefix[k] == x;
      }
    }
    DistinctCard(prefix);
  }
}
