/** `np.argsort(-sims)`: the row indices ordered by descending score. The sort
    NumPy uses is not stable, so the model fixes one order (insertion sort) and every
    property stated about it holds whatever order ties come in. */
module Ranking {

  /** 0, 1, ..., n-1. */
  function Range(n: nat): (r: seq<nat>)
    ensures |r| == n && forall i :: 0 <= i < n ==> r[i] == i
  {
    seq(n, i => i)
  }

  predicate InRange(idx: seq<nat>, n: nat) {
    forall a :: 0 <= a < |idx| ==> idx[a] < n
  }

  predicate Distinct(idx: seq<nat>) {
    forall a, b :: 0 <= a < b < |idx| ==> idx[a] != idx[b]
  }

  /** Scores never increase along idx. */
  predicate Descending(idx: seq<nat>, sims: seq<real>)
    requires InRange(idx, |sims|)
  {
    forall a, b :: 0 <= a < b < |idx| ==> sims[idx[a]] >= sims[idx[b]]
  }

  /** Places x before the first index with a strictly lower score. */
  function Insert(x: nat, s: seq<nat>, sims: seq<real>): (r: seq<nat>)
    requires x < |sims| && InRange(s, |sims|)
    ensures multiset(r) == multiset(s) + multiset{x}
    ensures InRange(r, |sims|)
  {
    if s == [] then [x]
    else if sims[x] > sims[s[0]] then [x] + s
    else
      assert multiset(s) == multiset{s[0]} + multiset(s[1..]) by {
        assert s == [s[0]] + s[1..];
      }
      [s[0]] + Insert(x, s[1..], sims)
  }

  function SortDesc(xs: seq<nat>, sims: seq<real>): (r: seq<nat>)
    requires InRange(xs, |sims|)
    ensures multiset(r) == multiset(xs)
    ensures InRange(r, |sims|)
  {
    if xs == [] then []
    else
      assert multiset(xs) == multiset{xs[0]} + multiset(xs[1..]) by {
        assert xs == [xs[0]] + xs[1..];
      }
      Insert(xs[0], SortDesc(xs[1..], sims), sims)
  }

  /** `np.argsort(-sims)`. */
  function ArgSortDesc(sims: seq<real>): (r: seq<nat>)
    ensures InRange(r, |sims|)
  {
    SortDesc(Range(|sims|), sims)
  }

  /** `np.argsort(-sims)[:k]`, with Python's meaning of a negative k. */
  function TopK(sims: seq<real>, k: int): seq<nat> {
    var order := ArgSortDesc(sims);
    var m := if k >= 0 then (if k < |order| then k else |order|)
             else (if k + |order| < 0 then 0 else k + |order|);
    order[..m]
  }

  // ---------------------------------------------------------------------------
  // Lemmas

  lemma {:induction false} InsertDescending(x: nat, s: seq<nat>, sims: seq<real>)
    requires x < |sims| && InRange(s, |sims|) && Descending(s, sims)
    ensures Descending(Insert(x, s, sims), sims)
  {
    if s != [] && sims[x] <= sims[s[0]] {
      var t := s[1..];
      assert Descending(t, sims);
      InsertDescending(x, t, sims);
      var r := Insert(x, t, sims);
      forall b | 0 <= b < |r| ensures sims[s[0]] >= sims[r[b]] {
        assert r[b] in multiset(r);
        assert r[b] == x || r[b] in multiset(t);
        if r[b] != x {
          var c :| 0 <= c < |t| && t[c] == r[b];
          assert s[c + 1] == t[c];
        }
      }
    }
  }

  lemma {:induction false} SortDescending(xs: seq<nat>, sims: seq<real>)
    requires InRange(xs, |sims|)
    ensures Descending(SortDesc(xs, sims), sims)
  {
    if xs != [] {
      SortDescending(xs[1..], sims);
      InsertDescending(xs[0], SortDesc(xs[1..], sims), sims);
    }
  }

  lemma {:induction false} DistinctByCounts(s: seq<nat>)
    requires forall x: nat :: multiset(s)[x] <= 1
    ensures Distinct(s)
  {
    if s != [] {
      assert s == [s[0]] + s[1..];
      assert multiset(s) == multiset{s[0]} + multiset(s[1..]);
      assert forall x: nat :: multiset(s[1..])[x] <= 1 by {
        forall x: nat ensures multiset(s[1..])[x] <= 1 {
          assert multiset(s)[x] == multiset{s[0]}[x] + multiset(s[1..])[x];
        }
      }
      DistinctByCounts(s[1..]);
      assert s[0] !in s[1..] by {
        assert multiset(s)[s[0]] == 1 + multiset(s[1..])[s[0]];
      }
      forall a, b | 0 <= a < b < |s| ensures s[a] != s[b] {
        if a == 0 {
          assert s[b] == s[1..][b - 1];
        } else {
          assert s[a] == s[1..][a - 1] && s[b] == s[1..][b - 1];
        }
      }
    }
  }

  lemma {:induction false} RangeCounts(n: nat)
    ensures forall x: nat :: multiset(Range(n))[x] == if x < n then 1 else 0
  {
    if n > 0 {
      RangeCounts(n - 1);
      var last: nat := n - 1;
      assert Range(n) == Range(last) + [last];
      assert multiset(Range(n)) == multiset(Range(last)) + multiset{last};
    }
  }

  /** The ranking is an ordering of all rows: every row exactly once, best score first. */
  lemma ArgSortIsRanking(sims: seq<real>)
    ensures var r := ArgSortDesc(sims);
      |r| == |sims| && Distinct(r) && Descending(r, sims)
      && forall i: nat :: i < |sims| ==> i in r
  {
    var r := ArgSortDesc(sims);
    RangeCounts(|sims|);
    assert multiset(r) == multiset(Range(|sims|));
    assert |r| == |multiset(r)| == |multiset(Range(|sims|))| == |sims|;
    DistinctByCounts(r);
    SortDescending(Range(|sims|), sims);
    forall i: nat | i < |sims| ensures i in r {
      var mr: multiset<nat> := multiset(r);
      assert mr[i] == 1;
    }
  }

  /** The top-k selection: min(k, n) distinct rows for k >= 0, best first, and no row
      left out scores higher than any row taken. */
  lemma TopKProperties(sims: seq<real>, k: int)
    ensures var top := TopK(sims, k);
      && (k >= 0 ==> |top| == (if k < |sims| then k else |sims|))
      && InRange(top, |sims|) && Distinct(top) && Descending(top, sims)
      && forall a: nat, i: nat :: a < |top| && i < |sims| && i !in top ==> sims[i] <= sims[top[a]]
  {
    var order := ArgSortDesc(sims);
    ArgSortIsRanking(sims);
    var top := TopK(sims, k);
    assert top <= order;
    forall a: nat, i: nat | a < |top| && i < |sims| && i !in top ensures sims[i] <= sims[top[a]] {
      assert i in order;
      var p :| 0 <= p < |order| && order[p] == i;
      assert p >= |top|;
      assert top[a] == order[a];
    }
  }
}
