/**
  The ranking step shared by both searches of the retrieval engine: a list of
  `(score, row index)` pairs, appended in row order, is sorted with Python's
  stable `list.sort(reverse=True, key=lambda x: x[0])` and cut to its first n
  entries.  The library sort is modelled by a stable insertion sort; lemma
  `RankedUnique` shows that any sort with the same guarantees gives the same list.
 */
module Ranking {

  /** The `(score, idx)` tuple a search appends for one row. */
  datatype ScoredMatch = ScoredMatch(score: int, index: nat)

  function Min(a: nat, b: nat): nat {
    if a <= b then a else b
  }

  /** The deterministic ranking order: a higher score first, and for equal scores the lower row index first. */
  predicate Before(a: ScoredMatch, b: ScoredMatch) {
    a.score > b.score || (a.score == b.score && a.index < b.index)
  }

  predicate NonIncreasing(s: seq<ScoredMatch>) {
    forall i, j :: 0 <= i < j < |s| ==> s[i].score >= s[j].score
  }

  /** Strictly ordered by `Before`: scores never increase, and ties are in ascending row order. */
  predicate Ranked(s: seq<ScoredMatch>) {
    forall i, j :: 0 <= i < j < |s| ==> Before(s[i], s[j])
  }

  /** The pairs are in ascending row order, as the search loops append them. */
  predicate InRowOrder(s: seq<ScoredMatch>) {
    forall i, j :: 0 <= i < j < |s| ==> s[i].index < s[j].index
  }

  /** The entries of `s` that have score `v`, in their order in `s`. */
  function WithScore(s: seq<ScoredMatch>, v: int): seq<ScoredMatch> {
    if s == [] then [] else (if s[0].score == v then [s[0]] else []) + WithScore(s[1..], v)
  }

  /** Places `x` after every entry that scores more than it and before all others. */
  function Insert(x: ScoredMatch, t: seq<ScoredMatch>): (r: seq<ScoredMatch>)
    ensures multiset(r) == multiset(t) + multiset{x}
  {
    if t == [] || t[0].score <= x.score then [x] + t
    else
      assert t == [t[0]] + t[1..];
      [t[0]] + Insert(x, t[1..])
  }

  lemma {:induction false} InsertNonIncreasing(x: ScoredMatch, t: seq<ScoredMatch>)
    requires NonIncreasing(t)
    ensures NonIncreasing(Insert(x, t))
    decreases |t|
  {
    if !(t == [] || t[0].score <= x.score) {
      var rest := Insert(x, t[1..]);
      InsertNonIncreasing(x, t[1..]);
      forall k | 0 <= k < |rest| ensures t[0].score >= rest[k].score {
        assert rest[k] in multiset(t[1..]) + multiset{x};
        if rest[k] != x {
          assert rest[k] in t[1..];
        }
      }
    }
  }

  lemma {:induction false} InsertRanked(x: ScoredMatch, t: seq<ScoredMatch>)
    requires Ranked(t)
    requires forall k :: 0 <= k < |t| ==> x.index < t[k].index
    ensures Ranked(Insert(x, t))
    decreases |t|
  {
    if !(t == [] || t[0].score <= x.score) {
      var rest := Insert(x, t[1..]);
      InsertRanked(x, t[1..]);
      forall k | 0 <= k < |rest| ensures Before(t[0], rest[k]) {
        assert rest[k] in multiset(t[1..]) + multiset{x};
        if rest[k] != x {
          var j :| 0 <= j < |t[1..]| && t[1..][j] == rest[k];
          assert t[j + 1] == rest[k];
        }
      }
    }
  }

  lemma {:induction false} InsertWithScore(x: ScoredMatch, t: seq<ScoredMatch>, v: int)
    ensures WithScore(Insert(x, t), v) == (if x.score == v then [x] else []) + WithScore(t, v)
    decreases |t|
  {
    if t == [] || t[0].score <= x.score {
      assert ([x] + t)[1..] == t;
    } else {
      InsertWithScore(x, t[1..], v);
      assert ([t[0]] + Insert(x, t[1..]))[1..] == Insert(x, t[1..]);
    }
  }

  /** Python's stable `sort(reverse=True)` on the score: a permutation with the highest score
      first; on pairs in row order, ties come out in ascending row order. */
  function SortByScoreDesc(s: seq<ScoredMatch>): (r: seq<ScoredMatch>)
    ensures multiset(r) == multiset(s)
    ensures NonIncreasing(r)
    ensures InRowOrder(s) ==> Ranked(r)
  {
    if s == [] then []
    else
      var t := SortByScoreDesc(s[1..]);
      assert s == [s[0]] + s[1..];
      assert multiset(s) == multiset{s[0]} + multiset(s[1..]);
      InRowOrderTail(s);
      InsertNonIncreasing(s[0], t);
      InsertHeadRanked(s, t);
      Insert(s[0], t)
  }

  lemma InRowOrderTail(s: seq<ScoredMatch>)
    requires s != []
    ensures InRowOrder(s) ==> InRowOrder(s[1..])
  {
    if InRowOrder(s) {
      forall i, j | 0 <= i < j < |s| - 1 ensures s[1..][i].index < s[1..][j].index {
        assert s[1..][i] == s[i + 1] && s[1..][j] == s[j + 1];
      }
    }
  }

  /** The first of a list in row order precedes, by index, every element of any permutation of the rest. */
  lemma InsertHeadRanked(s: seq<ScoredMatch>, t: seq<ScoredMatch>)
    requires s != [] && multiset(t) == multiset(s[1..])
    ensures InRowOrder(s) && Ranked(t) ==> Ranked(Insert(s[0], t))
  {
    if InRowOrder(s) && Ranked(t) {
      forall k | 0 <= k < |t| ensures s[0].index < t[k].index {
        assert t[k] in multiset(s[1..]);
        var j :| 0 <= j < |s[1..]| && s[1..][j] == t[k];
        assert s[j + 1] == t[k];
      }
      InsertRanked(s[0], t);
    }
  }

  /** The sort is stable: for every score, the entries with that score keep their relative order. */
  lemma {:induction false} SortIsStable(s: seq<ScoredMatch>, v: int)
    ensures WithScore(SortByScoreDesc(s), v) == WithScore(s, v)
    decreases |s|
  {
    if s != [] {
      SortIsStable(s[1..], v);
      InsertWithScore(s[0], SortByScoreDesc(s[1..]), v);
    }
  }

  /** A ranked list is fixed by its elements: any sort that ranks the same pairs returns this list. */
  lemma {:induction false} RankedUnique(a: seq<ScoredMatch>, b: seq<ScoredMatch>)
    requires Ranked(a) && Ranked(b) && multiset(a) == multiset(b)
    ensures a == b
    decreases |a|
  {
    if a != [] {
      RankedHeads(a, b);
      SameTails(a, b);
      RankedUnique(a[1..], b[1..]);
    }
  }

  /** Two ranked lists with the same elements start with the same element. */
  lemma RankedHeads(a: seq<ScoredMatch>, b: seq<ScoredMatch>)
    requires Ranked(a) && Ranked(b) && multiset(a) == multiset(b) && a != []
    ensures b != [] && a[0] == b[0] && Ranked(a[1..]) && Ranked(b[1..])
  {
    assert a[0] in multiset(b);
    assert b != [];
    assert b[0] in multiset(a);
    HeadFirst(a, b[0]);
    HeadFirst(b, a[0]);
  }

  /** The head of a ranked list comes before every other element of it. */
  lemma HeadFirst(a: seq<ScoredMatch>, x: ScoredMatch)
    requires Ranked(a) && x in a
    ensures x == a[0] || Before(a[0], x)
  {
    var i :| 0 <= i < |a| && a[i] == x;
    if i > 0 {
      assert Before(a[0], a[i]);
    }
  }

  /** Removing an equal head from two lists with the same elements leaves lists with the same elements. */
  lemma SameTails(a: seq<ScoredMatch>, b: seq<ScoredMatch>)
    requires a != [] && b != [] && a[0] == b[0] && multiset(a) == multiset(b)
    ensures multiset(a[1..]) == multiset(b[1..])
  {
    assert a == [a[0]] + a[1..] && b == [b[0]] + b[1..];
    assert multiset(a) == multiset{a[0]} + multiset(a[1..]);
    assert multiset(b) == multiset{b[0]} + multiset(b[1..]);
    forall e ensures multiset(a[1..])[e] == multiset(b[1..])[e] {
      assert multiset(a)[e] == multiset{a[0]}[e] + multiset(a[1..])[e];
      assert multiset(b)[e] == multiset{b[0]}[e] + multiset(b[1..])[e];
    }
  }

  /** Python's slice `s[:n]` for `n >= 0`. */
  function Take(s: seq<ScoredMatch>, n: nat): (r: seq<ScoredMatch>)
    ensures |r| == Min(n, |s|) && r == s[..|r|]
  {
    if n < |s| then s[..n] else s
  }

  /** The row indices of a list of pairs. */
  function Indices(s: seq<ScoredMatch>): (r: seq<nat>)
    ensures |r| == |s| && forall k :: 0 <= k < |s| ==> r[k] == s[k].index
  {
    seq(|s|, k requires 0 <= k < |s| => s[k].index)
  }

  /** `[idx for score, idx in s if score > 0]`. */
  function PositiveIndices(s: seq<ScoredMatch>): (r: seq<nat>)
    ensures |r| <= |s|
  {
    if s == [] then [] else (if s[0].score > 0 then [s[0].index] else []) + PositiveIndices(s[1..])
  }

  /** On a list whose scores never increase, the positive entries form a prefix, so the filter keeps exactly that prefix. */
  lemma {:induction false} PositivePrefix(s: seq<ScoredMatch>)
    requires NonIncreasing(s)
    ensures |PositiveIndices(s)| <= |s|
    ensures PositiveIndices(s) == Indices(s[..|PositiveIndices(s)|])
    ensures forall k :: 0 <= k < |PositiveIndices(s)| ==> s[k].score > 0
    ensures forall k :: |PositiveIndices(s)| <= k < |s| ==> s[k].score <= 0
    decreases |s|
  {
    if s != [] {
      PositivePrefix(s[1..]);
      var p := PositiveIndices(s[1..]);
      if s[0].score > 0 {
        assert s[1..][..|p|] == s[1..|p| + 1];
        assert PositiveIndices(s) == [s[0].index] + p;
      } else {
        assert p == [];
        assert PositiveIndices(s) == [];
      }
    }
  }

  /** Top-n optimality of cutting the sorted list: an entry that is not among the first n is
      outranked by n kept entries, each scoring at least as much as it does. */
  lemma TopNOptimal(s: seq<ScoredMatch>, n: nat, x: ScoredMatch)
    requires x in s
    requires x !in Take(SortByScoreDesc(s), n)
    ensures |Take(SortByScoreDesc(s), n)| == n
    ensures forall k :: 0 <= k < n ==> Take(SortByScoreDesc(s), n)[k].score >= x.score
  {
    var r := SortByScoreDesc(s);
    var t := Take(r, n);
    var p := PositionIn(s, r, x);
    assert forall k :: 0 <= k < |t| ==> t[k] == r[k];
    assert p >= |t|;
    forall k | 0 <= k < n ensures t[k].score >= x.score {
      assert t[k] == r[k];
    }
  }

  /** An element of a list has a position in every permutation of it. */
  lemma PositionIn(s: seq<ScoredMatch>, r: seq<ScoredMatch>, x: ScoredMatch) returns (p: nat)
    requires x in s && multiset(r) == multiset(s)
    ensures p < |r| && r[p] == x
  {
    assert x in multiset(s);
    assert x in multiset(r);
    p :| 0 <= p < |r| && r[p] == x;
  }

  /** What the search loops rely on: the first n of the sorted list are ranked, at most n,
      and drawn from the input. */
  lemma TopOfSorted(s: seq<ScoredMatch>, n: nat)
    requires InRowOrder(s)
    ensures Ranked(Take(SortByScoreDesc(s), n))
    ensures |Take(SortByScoreDesc(s), n)| <= n
    ensures forall x :: x in Take(SortByScoreDesc(s), n) ==> x in s
  {
    var r := SortByScoreDesc(s);
    forall x | x in Take(r, n) ensures x in s {
      assert x in r;
      assert x in multiset(r);
    }
  }
}
