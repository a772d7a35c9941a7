/**
  The relevance-scoring retrieval engine (`AyurvedicRAGProcessor` in
  simple_rag_processor.py).  The corpus is the already-loaded table, one
  `CaseRecord` per row in row order; a row's position is its index.  Each
  search scores every row in a loop, sorts the `(score, index)` pairs with the
  stable sort of module Ranking, keeps the first n and renders each kept row
  as a `RetrievedCase`.
 */
module Retrieval {
  import opened Strings
  import opened Ranking

  /** One cell as the source reads it with `row.get(column)`: the column may be absent
      from the table, the value may be null (NaN), or it is a string. */
  datatype Cell = Missing | Null | Str(s: string)

  /** One corpus row: the seven named columns, then the other columns of the table. */
  datatype CaseRecord = CaseRecord(
    disease: Cell,
    symptoms: Cell,
    constitution: Cell,
    herbs: Cell,
    formulation: Cell,
    dietRecommendations: Cell,
    lifestyleRecommendations: Cell,
    otherColumns: seq<Cell>)

  type Corpus = seq<CaseRecord>

  /** A metadata value: a string, or a null cell passed through unchanged. */
  datatype Value = Text(text: string) | NaN

  /** The `{id, text, metadata}` record a search returns for one row. */
  datatype RetrievedCase = RetrievedCase(id: string, text: string, metadata: map<string, Value>)

  /** A structured query: the patient's symptoms, constitution (dosha) and diagnosis. */
  datatype Query = Query(symptoms: seq<string>, constitutionDosha: string, diagnosis: string)

  // ---------------------------------------------------------------------------
  // reading cells

  /** `str(row.get(column, ''))`: a missing column reads as "", a null cell as "nan". */
  function ColumnText(c: Cell): string {
    match c
    case Missing => ""
    case Null => "nan"
    case Str(s) => s
  }

  /** `row.get(column, 'N/A')`: the default applies to a missing column only; a null cell passes through. */
  function MetaValue(c: Cell): (v: Value)
    ensures v == NaN <==> c == Null
    ensures v == Text("N/A") <==> c == Missing || c == Str("N/A")
    ensures c.Str? ==> v == Text(c.s)
  {
    match c
    case Missing => Text("N/A")
    case Null => NaN
    case Str(s) => Text(s)
  }

  const TextSearchKeys: set<string> :=
    {"disease", "symptoms", "constitution", "ayurvedic_herbs", "formulation", "diet_recommendations"}

  const StructuredKeys: set<string> := TextSearchKeys + {"lifestyle_recommendations"}

  /** The metadata of a structured-search result: seven keys. */
  function StructuredMetadata(row: CaseRecord): map<string, Value> {
    map[
      "disease" := MetaValue(row.disease),
      "symptoms" := MetaValue(row.symptoms),
      "constitution" := MetaValue(row.constitution),
      "ayurvedic_herbs" := MetaValue(row.herbs),
      "formulation" := MetaValue(row.formulation),
      "diet_recommendations" := MetaValue(row.dietRecommendations),
      "lifestyle_recommendations" := MetaValue(row.lifestyleRecommendations)
    ]
  }

  /** The metadata of a text-search result: the same values without the lifestyle key. */
  function TextSearchMetadata(row: CaseRecord): map<string, Value> {
    map[
      "disease" := MetaValue(row.disease),
      "symptoms" := MetaValue(row.symptoms),
      "constitution" := MetaValue(row.constitution),
      "ayurvedic_herbs" := MetaValue(row.herbs),
      "formulation" := MetaValue(row.formulation),
      "diet_recommendations" := MetaValue(row.dietRecommendations)
    ]
  }

  /** The structured search reports seven keys, the text search the same values under six of
      them, without the lifestyle key. */
  lemma MetadataKeys(row: CaseRecord)
    ensures StructuredMetadata(row).Keys == StructuredKeys
    ensures TextSearchMetadata(row).Keys == TextSearchKeys && "lifestyle_recommendations" !in TextSearchMetadata(row)
    ensures forall k :: k in TextSearchMetadata(row) ==> TextSearchMetadata(row)[k] == StructuredMetadata(row)[k]
  {
  }

  /** A cell that `row.get(col, 'N/A')` shows as "N/A": a missing column, or the text "N/A" itself. */
  predicate ShowsNotApplicable(c: Cell) {
    c == Missing || c == Str("N/A")
  }

  /** Each metadata key reads "N/A" exactly when its own column is missing or holds "N/A". */
  lemma MetadataNotApplicable(row: CaseRecord)
    ensures var m := StructuredMetadata(row);
      && (m["disease"] == Text("N/A") <==> ShowsNotApplicable(row.disease))
      && (m["symptoms"] == Text("N/A") <==> ShowsNotApplicable(row.symptoms))
      && (m["constitution"] == Text("N/A") <==> ShowsNotApplicable(row.constitution))
      && (m["ayurvedic_herbs"] == Text("N/A") <==> ShowsNotApplicable(row.herbs))
      && (m["formulation"] == Text("N/A") <==> ShowsNotApplicable(row.formulation))
      && (m["diet_recommendations"] == Text("N/A") <==> ShowsNotApplicable(row.dietRecommendations))
      && (m["lifestyle_recommendations"] == Text("N/A") <==> ShowsNotApplicable(row.lifestyleRecommendations))
  {
  }

  /** Every column of a row, as `search_by_text` visits them. */
  function Columns(row: CaseRecord): seq<Cell> {
    [row.disease, row.symptoms, row.constitution, row.herbs, row.formulation,
     row.dietRecommendations, row.lifestyleRecommendations] + row.otherColumns
  }

  // ---------------------------------------------------------------------------
  // _format_case_text

  /** The labelled text of a non-null field, or nothing. */
  function Labelled(name: string, cell: Cell): seq<string> {
    if cell.Str? then [name + cell.s] else []
  }

  function CaseTextParts(row: CaseRecord): seq<string> {
    Labelled("Disease: ", row.disease)
    + Labelled("Symptoms: ", row.symptoms)
    + Labelled("Constitution: ", row.constitution)
    + Labelled("Herbs: ", row.herbs)
    + Labelled("Formulation: ", row.formulation)
  }

  /** `_format_case_text`: the labelled non-null fields among Disease, Symptoms, Constitution,
      Herbs and Formulation, joined with " | ". */
  function FormatCaseText(row: CaseRecord): string {
    Join(CaseTextParts(row), " | ")
  }

  /** The case text is empty exactly when all five fields are null or missing, and it shows each
      non-null field under its label. */
  lemma CaseTextFacts(row: CaseRecord)
    ensures var t := FormatCaseText(row);
      && (t == "" <==> !(row.disease.Str? || row.symptoms.Str? || row.constitution.Str? || row.herbs.Str? || row.formulation.Str?))
      && (row.disease.Str? ==> Contains(t, "Disease: " + row.disease.s))
      && (row.symptoms.Str? ==> Contains(t, "Symptoms: " + row.symptoms.s))
      && (row.constitution.Str? ==> Contains(t, "Constitution: " + row.constitution.s))
      && (row.herbs.Str? ==> Contains(t, "Herbs: " + row.herbs.s))
      && (row.formulation.Str? ==> Contains(t, "Formulation: " + row.formulation.s))
  {
    CaseTextEmpty(row);
    CaseTextShows(row);
  }

  lemma CaseTextEmpty(row: CaseRecord)
    ensures FormatCaseText(row) == "" <==>
      !(row.disease.Str? || row.symptoms.Str? || row.constitution.Str? || row.herbs.Str? || row.formulation.Str?)
  {
    var parts := CaseTextParts(row);
    assert forall k :: 0 <= k < |parts| ==> |parts[k]| > 0;
    JoinEmptyIff(parts, " | ");
  }

  lemma CaseTextShows(row: CaseRecord)
    ensures var t := FormatCaseText(row);
      && (row.disease.Str? ==> Contains(t, "Disease: " + row.disease.s))
      && (row.symptoms.Str? ==> Contains(t, "Symptoms: " + row.symptoms.s))
      && (row.constitution.Str? ==> Contains(t, "Constitution: " + row.constitution.s))
      && (row.herbs.Str? ==> Contains(t, "Herbs: " + row.herbs.s))
      && (row.formulation.Str? ==> Contains(t, "Formulation: " + row.formulation.s))
  {
    var d, y, c, h, f :=
      Labelled("Disease: ", row.disease), Labelled("Symptoms: ", row.symptoms),
      Labelled("Constitution: ", row.constitution), Labelled("Herbs: ", row.herbs),
      Labelled("Formulation: ", row.formulation);
    var parts := CaseTextParts(row);
    assert parts == d + y + c + h + f;
    JoinContainsEach(parts, " | ");
    LabelledListed("Disease: ", row.disease, [], y + c + h + f);
    LabelledListed("Symptoms: ", row.symptoms, d, c + h + f);
    LabelledListed("Constitution: ", row.constitution, d + y, h + f);
    LabelledListed("Herbs: ", row.herbs, d + y + c, f);
    LabelledListed("Formulation: ", row.formulation, d + y + c + h, []);
  }

  lemma LabelledListed(name: string, cell: Cell, before: seq<string>, after: seq<string>)
    ensures cell.Str? ==> name + cell.s in before + Labelled(name, cell) + after
  {
  }

  // ---------------------------------------------------------------------------
  // scoring a row against a structured query

  /** The number of query symptoms that occur in `text`. */
  function SymptomHits(symptoms: seq<string>, text: string): (k: nat)
    ensures k <= |symptoms|
  {
    if symptoms == [] then 0
    else SymptomHits(symptoms[..|symptoms| - 1], text) + (if Contains(text, symptoms[|symptoms| - 1]) then 1 else 0)
  }

  /** The query dosha occurs in a non-null Constitution. */
  predicate ConstitutionMatches(row: CaseRecord, doshaLower: string) {
    row.constitution.Str? && Contains(Lower(row.constitution.s), doshaLower)
  }

  /** A non-empty diagnosis and a non-null Disease contain one another. */
  predicate DiseaseMatches(row: CaseRecord, diagnosisLower: string) {
    && row.disease.Str?
    && diagnosisLower != ""
    && (Contains(Lower(row.disease.s), diagnosisLower) || Contains(diagnosisLower, Lower(row.disease.s)))
  }

  /** The score of one row for an already lower-cased query: 10 for the constitution, 8 for the
      disease, 3 per symptom found in Symptoms, 1 per symptom found in Ayurvedic_Herbs and 1 per
      symptom found in Formulation. */
  function CaseScore(row: CaseRecord, symptomsLower: seq<string>, doshaLower: string, diagnosisLower: string): (score: int)
    ensures 0 <= score <= 18 + 5 * |symptomsLower|
  {
    (if ConstitutionMatches(row, doshaLower) then 10 else 0)
    + (if DiseaseMatches(row, diagnosisLower) then 8 else 0)
    + 3 * SymptomHits(symptomsLower, Lower(ColumnText(row.symptoms)))
    + SymptomHits(symptomsLower, Lower(ColumnText(row.herbs)))
    + SymptomHits(symptomsLower, Lower(ColumnText(row.formulation)))
  }

  /** `[s.lower() for s in symptoms]` */
  function LowerAll(ss: seq<string>): (r: seq<string>)
    ensures |r| == |ss| && forall i :: 0 <= i < |ss| ==> r[i] == Lower(ss[i])
  {
    seq(|ss|, i requires 0 <= i < |ss| => Lower(ss[i]))
  }

  /** `diagnosis.lower() if diagnosis else ""` */
  function DiagnosisKey(diagnosis: string): string {
    if diagnosis != "" then Lower(diagnosis) else ""
  }

  /** The score the structured search gives a row. */
  function RowScore(q: Query, row: CaseRecord): (score: int)
    ensures 0 <= score <= 18 + 5 * |q.symptoms|
  {
    CaseScore(row, LowerAll(q.symptoms), Lower(q.constitutionDosha), DiagnosisKey(q.diagnosis))
  }

  /** The body of the scoring loop for one row: the points are added one test at a time. */
  method ScoreRow(row: CaseRecord, symptomsLower: seq<string>, doshaLower: string, diagnosisLower: string)
    returns (score: int)
    ensures score == CaseScore(row, symptomsLower, doshaLower, diagnosisLower)
  {
    score := 0;
    if row.constitution.Str? && Contains(Lower(row.constitution.s), doshaLower) {
      score := score + 10;
    }
    if row.disease.Str? && diagnosisLower != "" {
      var disease := Lower(row.disease.s);
      if Contains(disease, diagnosisLower) || Contains(diagnosisLower, disease) {
        score := score + 8;
      }
    }
    assert score == (if ConstitutionMatches(row, doshaLower) then 10 else 0)
      + (if DiseaseMatches(row, diagnosisLower) then 8 else 0);
    var symptomsText := Lower(ColumnText(row.symptoms));
    ghost var base := score;
    for i := 0 to |symptomsLower|
      invariant score == base + 3 * SymptomHits(symptomsLower[..i], symptomsText)
    {
      SymptomHitsStep(symptomsLower, i, symptomsText);
      if Contains(symptomsText, symptomsLower[i]) {
        score := score + 3;
      }
    }
    var herbsText := Lower(ColumnText(row.herbs));
    var formulationText := Lower(ColumnText(row.formulation));
    base := score;
    for i := 0 to |symptomsLower|
      invariant score == base + SymptomHits(symptomsLower[..i], herbsText) + SymptomHits(symptomsLower[..i], formulationText)
    {
      SymptomHitsStep(symptomsLower, i, herbsText);
      SymptomHitsStep(symptomsLower, i, formulationText);
      if Contains(herbsText, symptomsLower[i]) {
        score := score + 1;
      }
      if Contains(formulationText, symptomsLower[i]) {
        score := score + 1;
      }
    }
    assert symptomsLower[..|symptomsLower|] == symptomsLower;
  }

  lemma SymptomHitsStep(symptoms: seq<string>, i: nat, text: string)
    requires i < |symptoms|
    ensures SymptomHits(symptoms[..i + 1], text)
      == SymptomHits(symptoms[..i], text) + (if Contains(text, symptoms[i]) then 1 else 0)
  {
    assert symptoms[..i + 1][..i] == symptoms[..i];
  }

  // ---------------------------------------------------------------------------
  // search_by_symptoms_and_dosha

  /** The `(score, idx)` list the structured search builds, one pair per row in row order. */
  function StructuredScores(corpus: Corpus, q: Query): (s: seq<ScoredMatch>)
    ensures |s| == |corpus| && InRowOrder(s)
    ensures forall i :: 0 <= i < |corpus| ==> s[i] == ScoredMatch(RowScore(q, corpus[i]), i)
  {
    seq(|corpus|, i requires 0 <= i < |corpus| => ScoredMatch(RowScore(q, corpus[i]), i))
  }

  /** `data.head(n).index.tolist()` on a 0-based row index. */
  function Range(n: nat): (r: seq<nat>)
    ensures |r| == n && forall k :: 0 <= k < n ==> r[k] == k
  {
    seq(n, k requires 0 <= k < n => k)
  }

  /** The row indices the structured search returns, best first: the positive-scoring rows among
      the first n of the ranking, or the first n rows when none is left. */
  function StructuredRanking(corpus: Corpus, q: Query, n: nat): (idx: seq<nat>)
    ensures |idx| <= n
    ensures forall k :: 0 <= k < |idx| ==> idx[k] < |corpus|
  {
    var s := StructuredScores(corpus, q);
    RankedIndicesBounded(s, n, |corpus|);
    var top := PositiveIndices(Take(SortByScoreDesc(s), n));
    if top == [] then Range(Min(n, |corpus|)) else top
  }

  /** The indices kept from the first n of the sorted list are indices of the input. */
  lemma RankedIndicesBounded(s: seq<ScoredMatch>, n: nat, bound: nat)
    requires InRowOrder(s)
    requires forall x :: x in s ==> x.index < bound
    ensures var top := PositiveIndices(Take(SortByScoreDesc(s), n));
      |top| <= n && forall k :: 0 <= k < |top| ==> top[k] < bound
    ensures var all := Indices(Take(SortByScoreDesc(s), n));
      |all| <= n && forall k :: 0 <= k < |all| ==> all[k] < bound
  {
    var t := Take(SortByScoreDesc(s), n);
    TopOfSorted(s, n);
    PositivePrefix(t);
    var top := PositiveIndices(t);
    assert forall k :: 0 <= k < |top| ==> top[k] == t[k].index && t[k] in s;
  }

  /** One structured-search result: the row index as `id`, the case text and seven metadata keys. */
  function StructuredCase(row: CaseRecord, index: nat): RetrievedCase {
    RetrievedCase(NatToString(index), FormatCaseText(row), StructuredMetadata(row))
  }

  /** What `search_by_symptoms_and_dosha` returns. */
  function StructuredSearch(corpus: Corpus, q: Query, n: nat): (results: seq<RetrievedCase>)
    ensures |results| <= n
  {
    var idx := StructuredRanking(corpus, q, n);
    seq(|idx|, k requires 0 <= k < |idx| => StructuredCase(corpus[idx[k]], idx[k]))
  }

  /** The scoring loop of `search_by_symptoms_and_dosha`: one `(score, idx)` pair per row, in row order. */
  method ScoreAllRows(corpus: Corpus, symptoms: seq<string>, constitutionDosha: string, diagnosis: string)
    returns (scores: seq<ScoredMatch>)
    ensures scores == StructuredScores(corpus, Query(symptoms, constitutionDosha, diagnosis))
  {
    ghost var q := Query(symptoms, constitutionDosha, diagnosis);
    var symptomsLower := LowerAll(symptoms);
    var doshaLower := Lower(constitutionDosha);
    var diagnosisLower := if diagnosis != "" then Lower(diagnosis) else "";
    scores := [];
    for idx := 0 to |corpus|
      invariant |scores| == idx
      invariant forall i :: 0 <= i < idx ==> scores[i] == ScoredMatch(RowScore(q, corpus[i]), i)
    {
      var score := ScoreRow(corpus[idx], symptomsLower, doshaLower, diagnosisLower);
      scores := scores + [ScoredMatch(score, idx)];
    }
  }

  /** `search_by_symptoms_and_dosha` for `n_results >= 0`. */
  method SearchBySymptomsAndDosha(corpus: Corpus, symptoms: seq<string>, constitutionDosha: string,
                                  diagnosis: string, nResults: nat)
    returns (results: seq<RetrievedCase>)
    ensures results == StructuredSearch(corpus, Query(symptoms, constitutionDosha, diagnosis), nResults)
  {
    var scores := ScoreAllRows(corpus, symptoms, constitutionDosha, diagnosis);
    scores := SortByScoreDesc(scores);
    var topIndices := PositiveIndices(Take(scores, nResults));
    if topIndices == [] {
      topIndices := Range(Min(nResults, |corpus|));
    }
    assert topIndices == StructuredRanking(corpus, Query(symptoms, constitutionDosha, diagnosis), nResults);
    results := CollectStructuredCases(corpus, topIndices);
  }

  /** The result-building loop of `search_by_symptoms_and_dosha`. */
  method CollectStructuredCases(corpus: Corpus, indices: seq<nat>) returns (results: seq<RetrievedCase>)
    requires forall k :: 0 <= k < |indices| ==> indices[k] < |corpus|
    ensures |results| == |indices|
    ensures forall k :: 0 <= k < |indices| ==> results[k] == StructuredCase(corpus[indices[k]], indices[k])
  {
    results := [];
    for k := 0 to |indices|
      invariant |results| == k
      invariant forall j :: 0 <= j < k ==> results[j] == StructuredCase(corpus[indices[j]], indices[j])
    {
      results := results + [StructuredCase(corpus[indices[k]], indices[k])];
    }
  }

  // ---------------------------------------------------------------------------
  // search_by_text

  /** The occurrences of the lower-cased query in one cell; null and missing cells are skipped. */
  function CellHits(c: Cell, queryLower: string): nat {
    match c
    case Str(s) => CountOccurrences(Lower(s), queryLower)
    case _ => 0
  }

  function SumHits(cells: seq<Cell>, queryLower: string): nat {
    if cells == [] then 0
    else SumHits(cells[..|cells| - 1], queryLower) + CellHits(cells[|cells| - 1], queryLower)
  }

  /** The text-search score of a row: occurrences of the query summed over its columns. */
  function TextScore(row: CaseRecord, queryLower: string): nat {
    SumHits(Columns(row), queryLower)
  }

  /** The `(score, idx)` list the text search builds: exactly the rows with a positive score, in row order. */
  function TextMatches(corpus: Corpus, queryLower: string): (s: seq<ScoredMatch>)
    ensures InRowOrder(s)
    ensures forall x :: x in s ==> x.index < |corpus| && x.score == TextScore(corpus[x.index], queryLower) > 0
    ensures forall i :: 0 <= i < |corpus| && TextScore(corpus[i], queryLower) > 0 ==>
      ScoredMatch(TextScore(corpus[i], queryLower), i) in s
  {
    if corpus == [] then []
    else
      var i := |corpus| - 1;
      var prev := TextMatches(corpus[..i], queryLower);
      var score := TextScore(corpus[i], queryLower);
      var next := if score > 0 then [ScoredMatch(score, i)] else [];
      MatchesStayInRowOrder(prev, next, i);
      MatchesStayScored(corpus, queryLower, prev, next);
      MatchesStayComplete(corpus, queryLower, prev, next);
      prev + next
  }

  lemma MatchesStayInRowOrder(prev: seq<ScoredMatch>, next: seq<ScoredMatch>, i: nat)
    requires InRowOrder(prev) && forall x :: x in prev ==> x.index < i
    requires forall x :: x in next ==> x.index == i
    requires |next| <= 1
    ensures InRowOrder(prev + next)
  {
    forall a, b | 0 <= a < b < |prev + next| ensures (prev + next)[a].index < (prev + next)[b].index {
      if b >= |prev| {
        assert (prev + next)[a] in prev;
        assert (prev + next)[b] in next;
      }
    }
  }

  lemma MatchesStayScored(corpus: Corpus, queryLower: string, prev: seq<ScoredMatch>, next: seq<ScoredMatch>)
    requires corpus != []
    requires forall x :: x in prev ==> x.index < |corpus| - 1 && x.score == TextScore(corpus[..|corpus| - 1][x.index], queryLower) > 0
    requires next == (if TextScore(corpus[|corpus| - 1], queryLower) > 0
      then [ScoredMatch(TextScore(corpus[|corpus| - 1], queryLower), |corpus| - 1)] else [])
    ensures forall x :: x in prev + next ==> x.index < |corpus| && x.score == TextScore(corpus[x.index], queryLower) > 0
  {
    forall j | 0 <= j < |corpus| - 1 ensures corpus[..|corpus| - 1][j] == corpus[j] {
    }
  }

  lemma MatchesStayComplete(corpus: Corpus, queryLower: string, prev: seq<ScoredMatch>, next: seq<ScoredMatch>)
    requires corpus != []
    requires var init := corpus[..|corpus| - 1];
      forall j :: 0 <= j < |init| && TextScore(init[j], queryLower) > 0 ==> ScoredMatch(TextScore(init[j], queryLower), j) in prev
    requires next == (if TextScore(corpus[|corpus| - 1], queryLower) > 0
      then [ScoredMatch(TextScore(corpus[|corpus| - 1], queryLower), |corpus| - 1)] else [])
    ensures forall j :: 0 <= j < |corpus| && TextScore(corpus[j], queryLower) > 0 ==>
      ScoredMatch(TextScore(corpus[j], queryLower), j) in prev + next
  {
    var init := corpus[..|corpus| - 1];
    forall j | 0 <= j < |init| ensures init[j] == corpus[j] {
    }
  }

  /** The row indices the text search returns, best first. */
  function TextRanking(corpus: Corpus, query: string, n: nat): (idx: seq<nat>)
    ensures |idx| <= n
    ensures forall k :: 0 <= k < |idx| ==> idx[k] < |corpus|
  {
    var s := TextMatches(corpus, Lower(query));
    RankedIndicesBounded(s, n, |corpus|);
    Indices(Take(SortByScoreDesc(s), n))
  }

  /** One text-search result: six metadata keys, no lifestyle key. */
  function TextCase(row: CaseRecord, index: nat): RetrievedCase {
    RetrievedCase(NatToString(index), FormatCaseText(row), TextSearchMetadata(row))
  }

  /** What `search_by_text` returns. */
  function TextSearch(corpus: Corpus, query: string, n: nat): (results: seq<RetrievedCase>)
    ensures |results| <= n
  {
    var idx := TextRanking(corpus, query, n);
    seq(|idx|, k requires 0 <= k < |idx| => TextCase(corpus[idx[k]], idx[k]))
  }

  /** The column loop of `search_by_text` for one row: a non-null cell that contains the query adds its
      number of occurrences. */
  method TextScoreOfRow(row: CaseRecord, queryLower: string) returns (score: nat)
    ensures score == TextScore(row, queryLower)
  {
    var columns := Columns(row);
    score := 0;
    for c := 0 to |columns|
      invariant score == SumHits(columns[..c], queryLower)
    {
      assert columns[..c + 1][..c] == columns[..c];
      if columns[c].Str? {
        var text := Lower(columns[c].s);
        if Contains(text, queryLower) {
          score := score + CountOccurrences(text, queryLower);
        } else {
          CountPositiveIffContains(text, queryLower);
        }
      }
    }
    assert columns[..|columns|] == columns;
  }

  /** The row loop of `search_by_text`: the rows with a positive score, in row order. */
  method CollectTextMatches(corpus: Corpus, queryLower: string) returns (scores: seq<ScoredMatch>)
    ensures scores == TextMatches(corpus, queryLower)
  {
    scores := [];
    for idx := 0 to |corpus|
      invariant scores == TextMatches(corpus[..idx], queryLower)
    {
      var score := TextScoreOfRow(corpus[idx], queryLower);
      TextMatchesStep(corpus, idx, queryLower);
      if score > 0 {
        scores := scores + [ScoredMatch(score, idx)];
      }
    }
    assert corpus[..|corpus|] == corpus;
  }

  lemma TextMatchesStep(corpus: Corpus, idx: nat, queryLower: string)
    requires idx < |corpus|
    ensures TextMatches(corpus[..idx + 1], queryLower) == TextMatches(corpus[..idx], queryLower)
      + (if TextScore(corpus[idx], queryLower) > 0 then [ScoredMatch(TextScore(corpus[idx], queryLower), idx)] else [])
  {
    assert corpus[..idx + 1][..idx] == corpus[..idx];
  }

  /** `search_by_text` for `n_results >= 0`. */
  method SearchByText(corpus: Corpus, query: string, nResults: nat) returns (results: seq<RetrievedCase>)
    ensures results == TextSearch(corpus, query, nResults)
  {
    var scores := CollectTextMatches(corpus, Lower(query));
    scores := SortByScoreDesc(scores);
    var topIndices := Indices(Take(scores, nResults));
    assert topIndices == TextRanking(corpus, query, nResults);
    results := CollectTextCases(corpus, topIndices);
  }

  /** The result-building loop of `search_by_text`. */
  method CollectTextCases(corpus: Corpus, indices: seq<nat>) returns (results: seq<RetrievedCase>)
    requires forall k :: 0 <= k < |indices| ==> indices[k] < |corpus|
    ensures |results| == |indices|
    ensures forall k :: 0 <= k < |indices| ==> results[k] == TextCase(corpus[indices[k]], indices[k])
  {
    results := [];
    for k := 0 to |indices|
      invariant |results| == k
      invariant forall j :: 0 <= j < k ==> results[j] == TextCase(corpus[indices[j]], indices[j])
    {
      results := results + [TextCase(corpus[indices[k]], indices[k])];
    }
  }

  // ---------------------------------------------------------------------------
  // get_collection_stats

  /** The counts `get_collection_stats` reports for a loaded corpus. */
  datatype CollectionStats = CollectionStats(totalRecords: nat, status: string, constitutionTypes: multiset<string>)

  /** The non-null Constitution labels, with multiplicity (what `value_counts` counts). */
  function ConstitutionLabels(corpus: Corpus): (m: multiset<string>)
    ensures |m| <= |corpus|
  {
    if corpus == [] then multiset{}
    else
      var last := corpus[|corpus| - 1];
      ConstitutionLabels(corpus[..|corpus| - 1]) + (if last.constitution.Str? then multiset{last.constitution.s} else multiset{})
  }

  /** The rows whose Constitution cell holds the label `tag`. */
  function RowsLabelled(corpus: Corpus, tag: string): set<nat> {
    set i: nat | i < |corpus| && corpus[i].constitution == Str(tag)
  }

  /** `value_counts` reports, for each label, the number of rows that hold it. */
  lemma {:induction false} ConstitutionLabelCount(corpus: Corpus, tag: string)
    ensures ConstitutionLabels(corpus)[tag] == |RowsLabelled(corpus, tag)|
    decreases |corpus|
  {
    if corpus == [] {
      assert RowsLabelled(corpus, tag) == {};
    } else {
      var n := |corpus| - 1;
      ConstitutionLabelCount(corpus[..n], tag);
      RowsLabelledSnoc(corpus, tag);
    }
  }

  /** The labelled rows of a corpus: those of all rows but the last, plus the last when it holds the label. */
  lemma RowsLabelledSnoc(corpus: Corpus, tag: string)
    requires corpus != []
    ensures var n := |corpus| - 1;
      && n !in RowsLabelled(corpus[..n], tag)
      && RowsLabelled(corpus, tag) == RowsLabelled(corpus[..n], tag) + (if corpus[n].constitution == Str(tag) then {n} else {})
  {
    var n := |corpus| - 1;
    var init := corpus[..n];
    forall i: nat | i < n ensures init[i] == corpus[i] { }
  }

  /** `get_collection_stats` on a loaded corpus: the row count, and for each Constitution label the
      number of rows holding it. */
  function GetCollectionStats(corpus: Corpus): (stats: CollectionStats)
    ensures stats.totalRecords == |corpus| && stats.status == "loaded"
    ensures |stats.constitutionTypes| <= stats.totalRecords
    ensures forall tag :: stats.constitutionTypes[tag] == |RowsLabelled(corpus, tag)|
  {
    ConstitutionCounts(corpus);
    CollectionStats(|corpus|, "loaded", ConstitutionLabels(corpus))
  }

  lemma ConstitutionCounts(corpus: Corpus)
    ensures forall tag :: ConstitutionLabels(corpus)[tag] == |RowsLabelled(corpus, tag)|
  {
    forall tag ensures ConstitutionLabels(corpus)[tag] == |RowsLabelled(corpus, tag)| {
      ConstitutionLabelCount(corpus, tag);
    }
  }
}
