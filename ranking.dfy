/**
 * The ranking step both matching routes share: entries annotated with a score,
 * `sort((a, b) => b.score - a.score)` done in place on an array, and
 * `slice(0, k)` of the result.
 */
module Ranking {
  import opened Common
  import opened Matching

  /** An item with the score the scorer gave it (`{ profile, score }`, `{ job, score }`, `{ ...job, matchScore }`). */
  datatype Scored<T> = Scored(item: T, score: Number)

  /** `x >= y` for two numbers, false when either is NaN. */
  predicate AtLeast(x: Number, y: Number) {
    x.Finite? && y.Finite? && x.value >= y.value
  }

  /** `b.score - a.score`, the comparator of both routes. */
  function Compare<T>(a: Scored<T>, b: Scored<T>): (r: Number)
    ensures r.NaN? <==> a.score.NaN? || b.score.NaN?
    ensures r.Finite? ==> (r.value > 0.0 <==> b.score.value > a.score.value)
  {
    if a.score.Finite? && b.score.Finite? then Finite(b.score.value - a.score.value) else NaN
  }

  /**
   * The sort moves `b` ahead of `a` only when the comparator is positive. A NaN result
   * counts as +0, so NaN scores never cause a move.
   */
  predicate GoesBefore<T>(b: Scored<T>, a: Scored<T>) {
    var c := Compare(a, b);
    c.Finite? && c.value > 0.0
  }

  predicate AllFinite<T>(s: seq<Scored<T>>) {
    forall i :: 0 <= i < |s| ==> s[i].score.Finite?
  }

  /** Non-increasing by score. */
  predicate Descending<T>(s: seq<Scored<T>>) {
    forall i, j :: 0 <= i < j < |s| ==> AtLeast(s[i].score, s[j].score)
  }

  /** The first `n` entries are non-increasing by score. */
  predicate SortedUpTo<T>(s: seq<Scored<T>>, n: int) {
    forall k, l :: 0 <= k < l < n && l < |s| ==> AtLeast(s[k].score, s[l].score)
  }

  /**
   * `a.sort((a, b) => b.score - a.score)`: an insertion sort that moves an entry past its
   * predecessors only while it scores strictly higher, so entries of equal score keep their
   * order. With finite scores the result is non-increasing; it is always a permutation.
   */
  method SortByScoreDescending<T>(a: array<Scored<T>>)
    modifies a
    ensures multiset(a[..]) == multiset(old(a[..]))
    ensures AllFinite(old(a[..])) ==> Descending(a[..])
  {
    ghost var finite := AllFinite(a[..]);
    var i := 0;
    while i < a.Length
      invariant 0 <= i <= a.Length
      invariant multiset(a[..]) == multiset(old(a[..]))
      invariant finite ==> AllFinite(a[..]) && SortedUpTo(a[..], i)
    {
      InsertBackwards(a, i, finite);
      i := i + 1;
    }
  }

  /**
   * Half-way through a pass that inserts entry `i`: the moving entry sits at `j`, the other
   * entries of the first `i + 1` are in order, and the moving entry outscores all those after it.
   */
  predicate Inserting<T>(s: seq<Scored<T>>, i: int, j: int)
    requires 0 <= j <= i < |s|
  {
    && AllFinite(s)
    && (forall k, l :: 0 <= k < l <= i && k != j && l != j ==> AtLeast(s[k].score, s[l].score))
    && (forall l :: j < l <= i ==> s[j].score.value > s[l].score.value)
  }

  /** `s` with the entries at `j - 1` and `j` exchanged. */
  function SwapBack<T>(s: seq<Scored<T>>, j: int): (r: seq<Scored<T>>)
    requires 0 < j < |s|
    ensures |r| == |s| && multiset(r) == multiset(s)
  {
    s[j - 1 := s[j]][j := s[j - 1]]
  }

  /** Swapping the moving entry past a lower-scoring predecessor keeps the pass's invariant. */
  lemma SwapBackKeepsInserting<T>(s: seq<Scored<T>>, i: int, j: int)
    requires 0 < j <= i < |s| && Inserting(s, i, j)
    requires s[j].score.value > s[j - 1].score.value
    ensures Inserting(SwapBack(s, j), i, j - 1)
  {
    var r := SwapBack(s, j);
    assert AllFinite(r) by {
      forall k | 0 <= k < |r| ensures r[k].score.Finite? {
        assert r[k] == s[k] || r[k] == s[j] || r[k] == s[j - 1];
      }
    }
    forall k, l | 0 <= k < l <= i && k != j - 1 && l != j - 1
      ensures AtLeast(r[k].score, r[l].score)
    {
      if l == j {
        assert r[l] == s[j - 1];
      } else if k == j {
        assert r[k] == s[j - 1];
        assert AtLeast(s[j - 1].score, s[l].score);
      }
    }
  }

  /** At the end of the pass the moving entry is in place and the first `i + 1` entries are sorted. */
  lemma InsertingDone<T>(s: seq<Scored<T>>, i: int, j: int)
    requires 0 <= j <= i < |s| && Inserting(s, i, j)
    requires j == 0 || s[j - 1].score.value >= s[j].score.value
    ensures SortedUpTo(s, i + 1)
  {
    forall k, l | 0 <= k < l <= i
      ensures AtLeast(s[k].score, s[l].score)
    {
      if l == j && k < j - 1 {
        assert AtLeast(s[k].score, s[j - 1].score);
      }
    }
  }

  /**
   * One pass of the insertion sort: moves `a[i]` towards the front past every
   * predecessor that scores strictly lower, so that the first `i + 1` entries are sorted
   * when the first `i` were.
   */
  method InsertBackwards<T>(a: array<Scored<T>>, i: nat, ghost finite: bool)
    requires i < a.Length
    requires finite ==> AllFinite(a[..]) && SortedUpTo(a[..], i)
    modifies a
    ensures multiset(a[..]) == multiset(old(a[..]))
    ensures finite ==> AllFinite(a[..]) && SortedUpTo(a[..], i + 1)
  {
    var j := i;
    while 0 < j && GoesBefore(a[j], a[j - 1])
      invariant 0 <= j <= i
      invariant multiset(a[..]) == multiset(old(a[..]))
      invariant finite ==> Inserting(a[..], i, j)
    {
      ghost var s := a[..];
      a[j - 1], a[j] := a[j], a[j - 1];
      assert a[..] == SwapBack(s, j);
      if finite {
        SwapBackKeepsInserting(s, i, j);
      }
      j := j - 1;
    }
    if finite {
      InsertingDone(a[..], i, j);
    }
  }

  /** The sort applied to a list: copies it into an array, sorts that in place, and reads it back. */
  method SortScored<T>(entries: seq<Scored<T>>) returns (sorted: seq<Scored<T>>)
    ensures multiset(sorted) == multiset(entries)
    ensures AllFinite(entries) ==> Descending(sorted)
  {
    var a := new Scored<T>[|entries|](i requires 0 <= i < |entries| => entries[i]);
    assert a[..] == entries;
    SortByScoreDescending(a);
    sorted := a[..];
  }

  /** `s.slice(0, k)`: the first `k` entries, or all of them when there are fewer. */
  function Take<T>(s: seq<T>, k: nat): (r: seq<T>)
    ensures |r| == Min(k, |s|)
    ensures r == s[..|r|]
  {
    if |s| <= k then s else s[..k]
  }

  /**
   * The first `k` entries of a non-increasing list are its `k` best: they are themselves
   * non-increasing, together with the rest they make up the whole list, and none of the
   * rest scores higher than any of them.
   */
  lemma TakeOfDescendingIsTop<T>(s: seq<Scored<T>>, k: nat)
    requires Descending(s)
    ensures Descending(Take(s, k))
    ensures multiset(s) == multiset(Take(s, k)) + multiset(s[|Take(s, k)|..])
    ensures forall x, y :: x in Take(s, k) && y in s[|Take(s, k)|..] ==> AtLeast(x.score, y.score)
  {
    var n := |Take(s, k)|;
    assert s == s[..n] + s[n..];
    forall x, y | x in Take(s, k) && y in s[n..]
      ensures AtLeast(x.score, y.score)
    {
      var p :| 0 <= p < n && s[p] == x;
      var q :| 0 <= q < |s| - n && s[n..][q] == y;
      assert s[n + q] == y;
    }
  }
}
