/**
  What the two searches of the retrieval engine promise: results are bounded by
  n, carry distinct row ids, come best first, prefer matching rows over the
  head-of-table fallback, and are the top n by score.
 */
module RetrievalProperties {
  import opened Strings
  import opened Ranking
  import opened Retrieval

  /** Entry i of the list is the pair for row i. */
  predicate IndexedByRow(s: seq<ScoredMatch>) {
    forall i :: 0 <= i < |s| ==> s[i].index == i
  }

  /** The first entry of the sorted list scores at least as much as every entry. */
  lemma SortedHeadIsMax(s: seq<ScoredMatch>)
    requires s != []
    ensures SortByScoreDesc(s) != []
    ensures forall x :: x in s ==> SortByScoreDesc(s)[0].score >= x.score
  {
    var r := SortByScoreDesc(s);
    assert s[0] in multiset(r);
    forall x | x in s ensures r[0].score >= x.score {
      assert x in multiset(r);
      var p :| 0 <= p < |r| && r[p] == x;
    }
  }

  /** The kept entries of a list indexed by row: each is the pair of its own row. */
  lemma KeptEntries(s: seq<ScoredMatch>, n: nat)
    requires IndexedByRow(s)
    ensures var t := Take(SortByScoreDesc(s), n);
      && |t| == Min(n, |s|)
      && (forall k :: 0 <= k < |t| ==> t[k].index < |s| && t[k] == s[t[k].index])
  {
    var t := Take(SortByScoreDesc(s), n);
    forall x | x in t ensures x in s {
      assert x in multiset(SortByScoreDesc(s));
    }
    assert |SortByScoreDesc(s)| == |multiset(SortByScoreDesc(s))| == |s|;
    forall k | 0 <= k < |t| ensures t[k].index < |s| && t[k] == s[t[k].index] {
      assert t[k] in s;
    }
  }

  /** Among the kept entries the positive ones form the front, and the filter keeps exactly those. */
  lemma KeptPositiveFront(s: seq<ScoredMatch>, n: nat)
    ensures var t := Take(SortByScoreDesc(s), n);
      var top := PositiveIndices(t);
      && |top| <= |t|
      && (forall k :: 0 <= k < |top| ==> top[k] == t[k].index && t[k].score > 0)
      && (forall k :: |top| <= k < |t| ==> t[k].score <= 0)
  {
    var r := SortByScoreDesc(s);
    var t := Take(r, n);
    assert NonIncreasing(t);
    PositivePrefix(t);
  }

  /** No two results of the structured search name the same row. */
  lemma StructuredRowsDistinct(corpus: Corpus, q: Query, n: nat)
    ensures var idx := StructuredRanking(corpus, q, n);
      forall j, k :: 0 <= j < k < |idx| ==> idx[j] != idx[k]
  {
    var s := StructuredScores(corpus, q);
    var t := Take(SortByScoreDesc(s), n);
    TopOfSorted(s, n);
    KeptEntries(s, n);
    KeptPositiveFront(s, n);
  }

  /** The ids of the structured-search results are pairwise distinct. */
  lemma StructuredIdsDistinct(corpus: Corpus, q: Query, n: nat)
    ensures var results := StructuredSearch(corpus, q, n);
      forall j, k :: 0 <= j < k < |results| ==> results[j].id != results[k].id
  {
    var idx := StructuredRanking(corpus, q, n);
    StructuredRowsDistinct(corpus, q, n);
    forall j, k | 0 <= j < k < |idx| ensures NatToString(idx[j]) != NatToString(idx[k]) {
      NatToStringInjective(idx[j], idx[k]);
    }
  }

  /** The rows come best first: by score descending, ties by row order. */
  predicate BestFirst(corpus: Corpus, q: Query, idx: seq<nat>)
    requires forall k :: 0 <= k < |idx| ==> idx[k] < |corpus|
  {
    forall j, k :: 0 <= j < k < |idx| ==>
      Before(ScoredMatch(RowScore(q, corpus[idx[j]]), idx[j]), ScoredMatch(RowScore(q, corpus[idx[k]]), idx[k]))
  }

  /** The positive entries kept from the ranking, as row indices. */
  function ScoringTop(corpus: Corpus, q: Query, n: nat): seq<nat> {
    PositiveIndices(Take(SortByScoreDesc(StructuredScores(corpus, q)), n))
  }

  /** Structured results come best first: by score descending, ties by row order. */
  lemma StructuredBestFirst(corpus: Corpus, q: Query, n: nat)
    ensures BestFirst(corpus, q, StructuredRanking(corpus, q, n))
  {
    if ScoringTop(corpus, q, n) != [] {
      ScoringTopBestFirst(corpus, q, n);
    } else {
      FallbackBestFirst(corpus, q, n);
    }
  }

  lemma ScoringTopBestFirst(corpus: Corpus, q: Query, n: nat)
    ensures forall k :: 0 <= k < |ScoringTop(corpus, q, n)| ==> ScoringTop(corpus, q, n)[k] < |corpus|
    ensures BestFirst(corpus, q, ScoringTop(corpus, q, n))
  {
    var s := StructuredScores(corpus, q);
    TopOfSorted(s, n);
    KeptEntries(s, n);
    KeptPositiveFront(s, n);
  }

  lemma FallbackBestFirst(corpus: Corpus, q: Query, n: nat)
    requires ScoringTop(corpus, q, n) == []
    ensures BestFirst(corpus, q, Range(Min(n, |corpus|)))
  {
    var s := StructuredScores(corpus, q);
    KeptEntries(s, n);
    KeptPositiveFront(s, n);
    if Min(n, |corpus|) > 0 {
      SortedHeadIsMax(s);
      forall i | 0 <= i < |corpus| ensures RowScore(q, corpus[i]) == 0 {
        assert s[i] in s;
      }
    }
  }

  /** When no row scores, the structured search falls back to the first n rows of the table. */
  lemma StructuredFallbackWhenNothingScores(corpus: Corpus, q: Query, n: nat)
    requires forall i :: 0 <= i < |corpus| ==> RowScore(q, corpus[i]) == 0
    ensures StructuredRanking(corpus, q, n) == Range(Min(n, |corpus|))
  {
    var s := StructuredScores(corpus, q);
    var t := Take(SortByScoreDesc(s), n);
    KeptEntries(s, n);
    KeptPositiveFront(s, n);
  }

  /** When some row scores, the fallback is not used: every result scores, and there is at least one. */
  lemma StructuredPrefersScoringRows(corpus: Corpus, q: Query, n: nat, i: nat)
    requires i < |corpus| && RowScore(q, corpus[i]) > 0
    ensures var idx := StructuredRanking(corpus, q, n);
      && (n > 0 ==> idx != [])
      && forall k :: 0 <= k < |idx| ==> RowScore(q, corpus[idx[k]]) > 0
  {
    ScoringTopScores(corpus, q, n);
    if n > 0 {
      ScoringTopNonEmpty(corpus, q, n, i);
    }
  }

  lemma ScoringTopScores(corpus: Corpus, q: Query, n: nat)
    ensures forall k :: 0 <= k < |ScoringTop(corpus, q, n)| ==>
      ScoringTop(corpus, q, n)[k] < |corpus| && RowScore(q, corpus[ScoringTop(corpus, q, n)[k]]) > 0
  {
    var s := StructuredScores(corpus, q);
    KeptEntries(s, n);
    KeptPositiveFront(s, n);
  }

  lemma ScoringTopNonEmpty(corpus: Corpus, q: Query, n: nat, i: nat)
    requires n > 0 && i < |corpus| && RowScore(q, corpus[i]) > 0
    ensures ScoringTop(corpus, q, n) != []
  {
    var s := StructuredScores(corpus, q);
    var t := Take(SortByScoreDesc(s), n);
    KeptPositiveFront(s, n);
    SortedHeadIsMax(s);
    assert s[i] in s;
    assert t[0].score > 0;
  }

  /** A positive entry whose row the filter did not keep is not among the kept entries at all. */
  lemma NotKept(s: seq<ScoredMatch>, n: nat, i: nat)
    requires IndexedByRow(s) && i < |s| && s[i].score > 0
    requires i !in PositiveIndices(Take(SortByScoreDesc(s), n))
    ensures s[i] !in Take(SortByScoreDesc(s), n)
  {
    var t := Take(SortByScoreDesc(s), n);
    var top := PositiveIndices(t);
    KeptPositiveFront(s, n);
    forall p | 0 <= p < |t| ensures t[p] != s[i] {
      if p < |top| {
        assert top[p] == t[p].index;
      }
    }
  }

  /** The positive filter drops nothing from a list whose scores are all positive. */
  lemma {:induction false} AllPositiveKept(t: seq<ScoredMatch>)
    requires forall k :: 0 <= k < |t| ==> t[k].score > 0
    ensures PositiveIndices(t) == Indices(t)
  {
    if t != [] {
      AllPositiveKept(t[1..]);
    }
  }

  /** Top-n optimality of the positive filter over a list indexed by row. */
  lemma PositiveTopN(s: seq<ScoredMatch>, n: nat, i: nat)
    requires IndexedByRow(s) && i < |s| && s[i].score > 0
    requires i !in PositiveIndices(Take(SortByScoreDesc(s), n))
    ensures var top := PositiveIndices(Take(SortByScoreDesc(s), n));
      && |top| == n
      && forall k :: 0 <= k < n ==> top[k] < |s| && s[top[k]].score >= s[i].score
  {
    var t := Take(SortByScoreDesc(s), n);
    var top := PositiveIndices(t);
    NotKept(s, n, i);
    TopNOptimal(s, n, s[i]);
    AllPositiveKept(t);
    KeptPositiveFront(s, n);
    KeptEntries(s, n);
    forall k | 0 <= k < n ensures top[k] < |s| && s[top[k]].score >= s[i].score {
      assert top[k] == t[k].index;
    }
  }

  /** Top-n optimality: a scoring row left out means n rows were returned, each scoring at least as much. */
  lemma StructuredTopN(corpus: Corpus, q: Query, n: nat, i: nat)
    requires i < |corpus| && RowScore(q, corpus[i]) > 0
    requires i !in StructuredRanking(corpus, q, n)
    ensures var idx := StructuredRanking(corpus, q, n);
      && |idx| == n
      && forall k :: 0 <= k < n ==> RowScore(q, corpus[idx[k]]) >= RowScore(q, corpus[i])
  {
    var s := StructuredScores(corpus, q);
    var top := PositiveIndices(Take(SortByScoreDesc(s), n));
    PositiveTopN(s, n, i);
  }

  /** A one-row corpus: a Pitta case of acid reflux with heartburn. */
  const RefluxRow: CaseRecord :=
    CaseRecord(Str("Acid Reflux"), Str("heartburn, bloating"), Str("Pitta"), Missing, Missing, Missing, Missing, [])

  /** A Pitta patient diagnosed with acid reflux who reports heartburn. */
  const RefluxQuery: Query := Query(["heartburn"], "Pitta", "Acid Reflux")

  /** A worked scenario: the row scores 10 for the constitution, 8 for the disease and 3 for the
      symptom, and it is the sole result, with id "0". */
  lemma AcidRefluxScenario()
    ensures RowScore(RefluxQuery, RefluxRow) == 21
    ensures StructuredRanking([RefluxRow], RefluxQuery, 5) == [0]
    ensures |StructuredSearch([RefluxRow], RefluxQuery, 5)| == 1
    ensures StructuredSearch([RefluxRow], RefluxQuery, 5)[0].id == "0"
  {
    RefluxScore();
    var s := StructuredScores([RefluxRow], RefluxQuery);
    assert s == [ScoredMatch(21, 0)];
    assert SortByScoreDesc(s) == s;
  }

  lemma RefluxScore()
    ensures RowScore(RefluxQuery, RefluxRow) == 21
  {
    RefluxLowered();
    RefluxMatches();
    assert SymptomHits(["heartburn"], "heartburn, bloating") == 1;
    assert SymptomHits(["heartburn"], "") == 0;
  }

  lemma RefluxLowered()
    ensures Lower("Pitta") == "pitta" && Lower("Acid Reflux") == "acid reflux"
    ensures LowerAll(["heartburn"]) == ["heartburn"]
    ensures Lower("heartburn, bloating") == "heartburn, bloating"
  {
    assert Lower("heartburn") == "heartburn";
  }

  lemma RefluxMatches()
    ensures Contains("pitta", "pitta") && Contains("acid reflux", "acid reflux")
    ensures Contains("heartburn, bloating", "heartburn") && !Contains("", "heartburn")
  {
    assert IsPrefix("pitta", "pitta");
    assert IsPrefix("acid reflux", "acid reflux");
    assert IsPrefix("heartburn", "heartburn, bloating");
  }

  // ---------------------------------------------------------------------------
  // search_by_text

  /** Every text-search result contains the query at least once, and at most n are returned. */
  lemma TextResultsMatch(corpus: Corpus, query: string, n: nat)
    ensures var idx := TextRanking(corpus, query, n);
      && |idx| <= n
      && forall k :: 0 <= k < |idx| ==> TextScore(corpus[idx[k]], Lower(query)) > 0
  {
    var s := TextMatches(corpus, Lower(query));
    TopOfSorted(s, n);
    var t := Take(SortByScoreDesc(s), n);
    forall k | 0 <= k < |t| ensures TextScore(corpus[t[k].index], Lower(query)) > 0 {
      assert t[k] in s;
    }
  }

  /** Text results come best first: by number of occurrences descending, ties by row order. */
  lemma TextBestFirst(corpus: Corpus, query: string, n: nat)
    ensures var idx := TextRanking(corpus, query, n);
      forall j, k :: 0 <= j < k < |idx| ==>
        Before(ScoredMatch(TextScore(corpus[idx[j]], Lower(query)), idx[j]),
               ScoredMatch(TextScore(corpus[idx[k]], Lower(query)), idx[k]))
  {
    var s := TextMatches(corpus, Lower(query));
    TopOfSorted(s, n);
    var t := Take(SortByScoreDesc(s), n);
    forall k | 0 <= k < |t| ensures t[k] == ScoredMatch(TextScore(corpus[t[k].index], Lower(query)), t[k].index) {
      assert t[k] in s;
    }
  }

  /** Top-n optimality of the text search: a matching row left out means n rows were returned,
      each with at least as many occurrences. */
  lemma TextTopN(corpus: Corpus, query: string, n: nat, i: nat)
    requires i < |corpus| && TextScore(corpus[i], Lower(query)) > 0
    requires i !in TextRanking(corpus, query, n)
    ensures var idx := TextRanking(corpus, query, n);
      && |idx| == n
      && forall k :: 0 <= k < n ==> TextScore(corpus[idx[k]], Lower(query)) >= TextScore(corpus[i], Lower(query))
  {
    var s := TextMatches(corpus, Lower(query));
    TopOfSorted(s, n);
    var t := Take(SortByScoreDesc(s), n);
    var x := ScoredMatch(TextScore(corpus[i], Lower(query)), i);
    TopNOptimal(s, n, x);
    forall k | 0 <= k < n ensures TextScore(corpus[t[k].index], Lower(query)) >= x.score {
      assert t[k] in s;
    }
  }

  // ---------------------------------------------------------------------------
  // get_collection_stats

  /** The constitution counts have exactly the labels of the non-null Constitution cells as keys. */
  lemma {:induction false} ConstitutionLabelsPresent(corpus: Corpus, tag: string)
    ensures ConstitutionLabels(corpus)[tag] > 0 <==>
      exists i :: 0 <= i < |corpus| && corpus[i].constitution == Str(tag)
    decreases |corpus|
  {
    if corpus != [] {
      var init := corpus[..|corpus| - 1];
      ConstitutionLabelsPresent(init, tag);
      if exists i :: 0 <= i < |init| && init[i].constitution == Str(tag) {
        var i :| 0 <= i < |init| && init[i].constitution == Str(tag);
        assert corpus[i] == init[i];
      }
      if exists i :: 0 <= i < |corpus| && corpus[i].constitution == Str(tag) {
        var i :| 0 <= i < |corpus| && corpus[i].constitution == Str(tag);
        if i < |init| {
          assert init[i] == corpus[i];
        }
      }
    }
  }
}
