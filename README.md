# AyurGenixAI retrieval and prescription core in Dafny

This project models the two halves of the AyurGenixAI pipeline.

- **Retrieval** (`AyurvedicRAGProcessor`). Scores every row of an already-loaded table of
  Ayurvedic case records against a patient query and returns the best rows as
  `{id, text, metadata}` cases. The structured search scores the constitution (dosha) match,
  the disease match and symptom hits. The free-text search counts occurrences of the query
  across all columns.
- **Prescription generation** (`EnhancedPrescriptionGenerator`, `PatientInfo`). Builds the
  prompt from the patient and the first three cases, hands it to an external text generator,
  and frames the reply for print. It then parses the reply's three sections (medicines, diet
  table, lifestyle) into a JSON-shaped document. When the generator fails or replies with
  nothing, it uses a fixed fallback prescription instead.

Modules:

- `Strings`: Python's `strip`, `lower`, `split`, `join`, `in`, `count` and `str(int)`.
- `Ranking`: the stable `sort(reverse=True, key=score)` and the top-n cut.
- `Retrieval` and `RetrievalProperties`: the two searches and what they promise.
- `ReplyParser`: the line-by-line section parser of `_create_json_output`.
- `Dates`: the two renderings of the clock (`%B %d, %Y` and `isoformat()`).
- `Prescription`: prompt, display, JSON document, fallback and `generate_prescription`.
- `PrescriptionProperties`: the fallback prescription read back by the parser.
- `PromptProperties`: what the prompt and the printed prescription show.

Both halves work by step-by-step loops over rows, columns, symptoms and reply lines. Each
loop is a `method` proved against a specification function (`ScoreRow`, `ScoreAllRows`,
`CollectTextMatches`, `ParseReply`, `CreatePrompt`, ...). The properties are lemmas about
those functions. The processor's only state is the table that `load_data` reads from disk,
so the corpus is a parameter and no class is needed.

Where the system's documented design and the code disagree, the model follows the code:

- A null (NaN) cell is read by `str(row.get(...))` as the text `"nan"` for symptom, herb and
  formulation matching. It is not read as the empty string (`Retrieval.ColumnText`).
- In the metadata, a null cell passes through as NaN (`Retrieval.Value.NaN`). The `'N/A'`
  default of `row.get` applies only when the column is absent from the table.
- The structured search cuts to the first n pairs and then drops the zero scores. Because the
  list is sorted, this equals filtering first (`Ranking.PositivePrefix`).

## Model

| member | source | states |
|---|---|---|
| `Ranking.SortByScoreDesc` | simple_rag_processor.py:88 | the sorted list is a permutation of the input, its scores never increase, and on input in row order it is ranked (score descending, row index ascending) |
| `Ranking.SortIsStable` | simple_rag_processor.py:88 | for every score, the entries with that score keep their input order, as Python's stable sort keeps them |
| `Ranking.RankedUnique` | simple_rag_processor.py:88 | two ranked permutations of the same pairs are equal: the (score desc, index asc) order is the only result the sort can have |
| `Ranking.PositivePrefix` | simple_rag_processor.py:89 | on a non-increasing list the `score > 0` filter keeps exactly a prefix, whose entries all score and after which none does |
| `Ranking.TopNOptimal` | simple_rag_processor.py:88-89 | an entry left out of the first n of the sorted list means n entries were kept, each scoring at least as much |
| `Ranking.TopOfSorted` | simple_rag_processor.py:88-89 | the first n of the sorted list are ranked, at most n, and drawn from the input |
| `Ranking.Insert` | simple_rag_processor.py:88 | one insertion step of the sort adds exactly the inserted entry to the multiset |
| `Ranking.InsertRanked` | simple_rag_processor.py:88 | inserting an entry of a smaller row index into a ranked list keeps it ranked |
| `Strings.CountOccurrences` | simple_rag_processor.py:181 | non-overlapping occurrences of a non-empty needle take up no more than the text's length |
| `Strings.CountPositiveIffContains` | simple_rag_processor.py:180-181 | for a non-empty query, the count is positive exactly when the query occurs (the `in` guard adds nothing) |
| `Strings.Lower` | simple_rag_processor.py:50-52 | lower-casing keeps the length, maps each ASCII capital to its small letter and leaves every other character |
| `Strings.Strip` | enhanced_prescription.py:184 | the stripped line is no longer than the line, uses only its characters, and neither starts nor ends with white space |
| `Strings.StripAround` | enhanced_prescription.py:184 | stripping white space around a core that does not start or end with white space gives back the core |
| `Strings.Split` | enhanced_prescription.py:180 | splitting gives one more part than there are separators, and no part holds a separator |
| `Strings.SplitJoin` | enhanced_prescription.py:180 | splitting the joined text recovers the parts when no part holds the separator |
| `Strings.JoinSplit` | enhanced_prescription.py:180 | joining the parts of a split with the separator gives back the text |
| `Strings.JoinContainsPart` | simple_rag_processor.py:141 | a joined text contains each of its parts |
| `Strings.JoinEmptyIff` | simple_rag_processor.py:141 | a join of non-empty parts is empty exactly when there are no parts |
| `Strings.NatToStringInjective` | simple_rag_processor.py:101 | distinct row indices give distinct `str(idx)` ids |
| `Strings.ParseNatToString` | simple_rag_processor.py:101 | `str(idx)` read back as a decimal number gives the index |
| `Retrieval.MetaValue` | simple_rag_processor.py:103-111 | a metadata value is NaN exactly for a null cell, `'N/A'` exactly for a missing column or a cell holding `'N/A'`, and otherwise the cell's text |
| `Retrieval.MetadataKeys` | simple_rag_processor.py:103-111 | structured results carry the seven metadata keys; text results carry six, lack `lifestyle_recommendations`, and agree on the shared keys |
| `Retrieval.MetadataNotApplicable` | simple_rag_processor.py:103-111 | each of the seven metadata keys reads `'N/A'` exactly when its own column is missing or holds `'N/A'` |
| `Retrieval.CaseTextFacts` | simple_rag_processor.py:122-141 | a case's text is empty exactly when none of its five fields is non-null, and shows each non-null field after its label |
| `Retrieval.CaseScore` | simple_rag_processor.py:57-83 | a row scores between 0 and 18 plus 5 per symptom |
| `Retrieval.RowScore` | simple_rag_processor.py:50-83 | the score of a row for the raw query is within the same bounds |
| `Retrieval.LowerAll` | simple_rag_processor.py:50 | each symptom is lower-cased, and the list keeps its length |
| `Retrieval.ScoreRow` | simple_rag_processor.py:58-83 | the loop adds 10 for the constitution, 8 for the disease, 3 per symptom in Symptoms and 1 per symptom in herbs and in formulation, reaching `CaseScore` |
| `Retrieval.SymptomHitsStep` | simple_rag_processor.py:71-73 | one more symptom adds one hit exactly when it occurs in the text |
| `Retrieval.StructuredScores` | simple_rag_processor.py:57-85 | there is one pair per row, in row order, and pair i is (score of row i, i) |
| `Retrieval.ScoreAllRows` | simple_rag_processor.py:57-85 | the scoring loop builds exactly `StructuredScores` |
| `Retrieval.Range` | simple_rag_processor.py:93 | `head(n).index` is the first n row indices in order |
| `Retrieval.StructuredRanking` | simple_rag_processor.py:88-93 | at most n row indices are kept, each a row of the corpus |
| `Retrieval.RankedIndicesBounded` | simple_rag_processor.py:89 | the kept indices of a row-order list stay below the corpus size |
| `Retrieval.StructuredSearch` | simple_rag_processor.py:29-116 | at most n results are returned |
| `Retrieval.SearchBySymptomsAndDosha` | simple_rag_processor.py:29-116 | the method's loops return exactly `StructuredSearch` |
| `Retrieval.CollectStructuredCases` | simple_rag_processor.py:96-113 | one result per kept index, in order, each with the row's id, text and seven-key metadata |
| `Retrieval.TextMatches` | simple_rag_processor.py:173-184 | the pairs are exactly the rows with a positive occurrence count, in row order, each with its count |
| `Retrieval.TextScoreOfRow` | simple_rag_processor.py:174-181 | the column loop sums the query's occurrences over the row's non-null cells |
| `Retrieval.CollectTextMatches` | simple_rag_processor.py:173-184 | the row loop builds exactly `TextMatches` |
| `Retrieval.TextMatchesStep` | simple_rag_processor.py:183-184 | one more row appends its pair exactly when its count is positive |
| `Retrieval.TextRanking` | simple_rag_processor.py:187-188 | at most n row indices are kept, each a row of the corpus |
| `Retrieval.TextSearch` | simple_rag_processor.py:155-207 | at most n results are returned |
| `Retrieval.SearchByText` | simple_rag_processor.py:155-207 | the method's loops return exactly `TextSearch` |
| `Retrieval.CollectTextCases` | simple_rag_processor.py:190-205 | one result per kept index, in order, each with the row's id, text and six-key metadata |
| `Retrieval.ConstitutionLabelCount` | simple_rag_processor.py:152 | each Constitution label is counted once per row whose Constitution cell holds it |
| `Retrieval.GetCollectionStats` | simple_rag_processor.py:148-153 | a loaded corpus reports its row count, status `"loaded"`, and for each Constitution label the number of rows holding it |
| `RetrievalProperties.SortedHeadIsMax` | simple_rag_processor.py:88 | the first sorted pair scores at least as much as every pair |
| `RetrievalProperties.StructuredRowsDistinct` | simple_rag_processor.py:88-93 | no row is returned twice by the structured search |
| `RetrievalProperties.StructuredIdsDistinct` | simple_rag_processor.py:96-113 | the ids of the structured results are pairwise distinct |
| `RetrievalProperties.StructuredBestFirst` | simple_rag_processor.py:88-93 | structured results come best first: by score descending, ties by row order, and the fallback rows too |
| `RetrievalProperties.StructuredFallbackWhenNothingScores` | simple_rag_processor.py:92-93 | when no row scores, the first min(n, rows) rows are returned in table order |
| `RetrievalProperties.StructuredPrefersScoringRows` | simple_rag_processor.py:89-93 | when some row scores, every result scores and, for n > 0, there is a result |
| `RetrievalProperties.StructuredTopN` | simple_rag_processor.py:88-89 | a scoring row left out means n rows were returned, each scoring at least as much |
| `RetrievalProperties.AcidRefluxScenario` | simple_rag_processor.py:57-113 | a Pitta acid-reflux row with heartburn scores 10 + 8 + 3 = 21 for that query and is the one result, with id `"0"` |
| `RetrievalProperties.TextResultsMatch` | simple_rag_processor.py:183-188 | every text result contains the query at least once, and at most n are returned |
| `RetrievalProperties.TextBestFirst` | simple_rag_processor.py:187-188 | text results come by occurrence count descending, ties by row order |
| `RetrievalProperties.TextTopN` | simple_rag_processor.py:187-188 | a matching row left out means n rows were returned, each with at least as many occurrences |
| `RetrievalProperties.ConstitutionLabelsPresent` | simple_rag_processor.py:152 | a label is counted exactly when some row's Constitution cell holds it |
| `ReplyParser.HeaderOf` | enhanced_prescription.py:186-191 | a line opens a section exactly when it contains one of the three headers, and never the "no section" state |
| `ReplyParser.MealKey` | enhanced_prescription.py:197-212 | a row names a meal exactly when it mentions Breakfast, Lunch, Dinner or Drinks, and the key is one of the four meals |
| `ReplyParser.DietRow` | enhanced_prescription.py:196-212 | a table row naming a meal and having at least three cells stores its stripped third cell under that meal's key and changes nothing else; any other row leaves the table unchanged |
| `ReplyParser.ParseLine` | enhanced_prescription.py:184-212 | the loop body's chain of tests is one `Step` of the parser |
| `ReplyParser.ParseDietRow` | enhanced_prescription.py:196-212 | the diet branch is exactly `DietRow` |
| `ReplyParser.ParseReply` | enhanced_prescription.py:176-213 | the loop over the reply's lines returns the medicines, diet and lifestyle of `Parse` |
| `ReplyParser.ParseCharacterised` | enhanced_prescription.py:183-195 | the final section is the last header seen, and the medicines and lifestyle lists are the bullet items met while in each section |
| `ReplyParser.DietCharacterised` | enhanced_prescription.py:183-212 | the diet table holds, for each meal, the stripped third cell of the last diet-section row that names that meal first and has three cells, and no other key |
| `ReplyParser.SectionNeverEntered` | enhanced_prescription.py:186-191 | without its header a section is never entered |
| `ReplyParser.AbsentSectionIsEmpty` | enhanced_prescription.py:183-212 | a reply without a section's header yields an empty list or table for it |
| `ReplyParser.DietKeysAreMeals` | enhanced_prescription.py:196-212 | the diet table only ever has meal keys |
| `ReplyParser.StepGrows` | enhanced_prescription.py:183-212 | one line only appends to the lists and only adds diet keys |
| `ReplyParser.ItemsAccumulate` | enhanced_prescription.py:183-212 | what a prefix of the reply yields is kept by the whole reply |
| `ReplyParser.StepDiet` | enhanced_prescription.py:196-212 | the table changes only on a non-header line in the diet section, and only by meal keys |
| `ReplyParser.HeaderLines` | enhanced_prescription.py:186-191 | each header line switches to its section and changes nothing else |
| `ReplyParser.IgnoredLine` | enhanced_prescription.py:183-212 | a line with no header that is neither a bullet in the medicines or lifestyle section nor a stored meal row in the diet section changes nothing |
| `ReplyParser.QuietLine` | enhanced_prescription.py:183-212 | a line with no full stop, no bullet and no meal row is such an ignored line |
| `ReplyParser.BulletLine` | enhanced_prescription.py:192-195 | an indented bullet line that holds no section header appends its item to the current list |
| `ReplyParser.DietRowLine` | enhanced_prescription.py:196-212 | an indented table row in the diet section that holds no section header stores its stripped advice under its meal |
| `ReplyParser.MealRowAfterHeader` | enhanced_prescription.py:188-212 | the diet header followed by a meal row that holds no section header yields a one-entry table |
| `ReplyParser.FirstMealNameWins` | enhanced_prescription.py:197-204 | a Lunch row whose advice mentions Breakfast is stored under `breakfast`, because Breakfast is tested first |
| `ReplyParser.RunFromAppend` | enhanced_prescription.py:183-212 | parsing two runs of lines in turn equals parsing them together |
| `Dates.LongDate` | enhanced_prescription.py:148 | the long date is a single line |
| `Dates.LongDateRoundTrip` | enhanced_prescription.py:148 | reading the long date back by month name, day and year gives the month, day and year of the clock reading |
| `Dates.IsoFormat` | enhanced_prescription.py:230 | the timestamp has 19 characters, or 26 when the microseconds are not zero |
| `Dates.IsoRoundTrip` | enhanced_prescription.py:230 | reading back the ISO timestamp gives the clock reading it came from |
| `Prescription.CreatePrompt` | enhanced_prescription.py:67-135 | the loop over the first three cases builds exactly `PromptText` |
| `Prescription.CaseBlocksSnoc` | enhanced_prescription.py:81-89 | each loop turn appends the next case's numbered block |
| `Prescription.FormatDisplay` | enhanced_prescription.py:137-168 | the printed prescription contains the reply |
| `Prescription.JsonDocument` | enhanced_prescription.py:170-236 | the document carries the patient unchanged, `"AyurGenixAI"` and `"1.0"`, a timestamp that reads back as the clock reading, and only meal keys in its diet table |
| `Prescription.CreateJsonOutput` | enhanced_prescription.py:170-236 | the method runs the parser and returns exactly `JsonDocument` |
| `Prescription.FallbackResponse` | enhanced_prescription.py:261-299 | the fallback fails, reports 0 cases and the fixed error, has no raw reply, and its document carries the patient |
| `Prescription.FallbackNamesPatient` | enhanced_prescription.py:264-290 | the printed fallback contains the line naming the patient, age, gender and constitution |
| `Prescription.CreateFallbackResponse` | enhanced_prescription.py:261-299 | the method returns exactly `FallbackResponse` |
| `Prescription.Outcome` | enhanced_prescription.py:41-65 | success holds exactly when the generator replied with non-empty text; a success carries the case count, the raw reply, the reply framed by the header and footer (so the display contains it) and its parsed document, and every other case is the fallback |
| `Prescription.GeneratePrescription` | enhanced_prescription.py:30-65 | the method builds the prompt, asks the generator once, and returns `Outcome` of its reply |
| `PrescriptionProperties.FallbackParsed` | enhanced_prescription.py:264-288 | parsing the fallback text yields exactly its three medicines, its four meals and its five lifestyle items, when the patient's name, gender and constitution hold no line break |
| `PrescriptionProperties.FallbackRun` | enhanced_prescription.py:264-288 | the parser's walk over the fallback lines ends in the lifestyle section with the fixed lists and table |
| `PrescriptionProperties.FallbackDocument` | enhanced_prescription.py:290-291 | the fallback's JSON document lists exactly the fallback medicines, diet and lifestyle advice |
| `PrescriptionProperties.OpeningRun` | enhanced_prescription.py:264-266 | the opening lines, whatever the patient's line holds, add no medicine, meal or lifestyle item |
| `PrescriptionProperties.MedicinesBlockRun` | enhanced_prescription.py:267-271 | the medicines block opens its section and appends the three fallback medicines |
| `PrescriptionProperties.DietBlockRun` | enhanced_prescription.py:272-281 | the diet block opens its section and stores the four rows of its table, in order |
| `PrescriptionProperties.LifestyleBlockRun` | enhanced_prescription.py:282-287 | the lifestyle block opens its section and appends the five fallback items |
| `PrescriptionProperties.FallbackLinesNoBreak` | enhanced_prescription.py:264-288 | no line of the fallback text holds a line break when the patient's fields hold none |
| `PromptProperties.CaseBlocksListed` | enhanced_prescription.py:81-89 | every case of the list has its numbered block among the blocks |
| `PromptProperties.ContextListsCase` | enhanced_prescription.py:80-89 | the context section shows each of the first three cases under its number |
| `PromptProperties.PromptHoldsSections` | enhanced_prescription.py:92-133 | the prompt holds the patient's section, the context section and the format guide |
| `PromptProperties.PromptListsCase` | enhanced_prescription.py:81-98 | the prompt shows each of the first three retrieved cases |
| `PromptProperties.PromptIgnoresLaterCases` | enhanced_prescription.py:81 | two case lists that agree on their first three cases give the same prompt |
| `PromptProperties.PatientSectionShows` | enhanced_prescription.py:72-77 | the patient's section shows the name, the age followed by "years", the gender, the constitution, the joined symptoms and the diagnosis |
| `PromptProperties.PromptNamesPatient` | enhanced_prescription.py:72-96 | the prompt names the patient and shows the diagnosis |
| `PromptProperties.PromptShowsParserMarkers` | enhanced_prescription.py:104-119 | the prompt shows the three section headers the reply parser recognises |
| `PromptProperties.DisplayRoundTrip` | enhanced_prescription.py:140-168 | cutting the header and the footer off the printed prescription gives back the reply |
| `PromptProperties.PatientLineNames` | enhanced_prescription.py:144 | the printed patient line names the patient and shows the age and the gender after their labels |
| `PromptProperties.DisplayShows` | enhanced_prescription.py:140-168 | the printed prescription shows the patient line (name, age, gender), the constitution, the diagnosis, the symptoms joined by commas, the long date and the reply |

## Left out

- `load_data`, CSV reading and the `self.data is None` reload: the corpus is the loaded table, passed in.
- The `try`/`except` around both searches, which returns `[]` on any error: nothing in the modelled code raises.
- `get_collection_stats` on an unloaded processor (`not_loaded`): the model has no unloaded state.
- `get_collection_stats`' `columns` list and the key order of `value_counts().to_dict()`: the counts are a multiset of labels.
- Missingness is decided per row in the model. In pandas a column is absent from every row or from none.
- `n_results` is a natural number. A negative `n` (where Python's `scores[:n]` drops from the end) is not modelled.
- `lower()` is ASCII-only. Unicode case mapping is not modelled.
- The Gemini SDK (`genai.configure`, `GenerativeModel`, `generate_content`) and the API key: the generator is a function argument whose result is either a reply text or a raised error.
- `output_format` of `generate_prescription` is unused by the source and is not a parameter.
- Logging calls (`logger.info`, `logger.error`).
- `datetime.now()`: one clock reading is passed in and used for both the printed date and the JSON timestamp. The source reads the clock twice.
- The `except` branch of `_create_json_output` (the `raw_text` document with `parsing_error`): nothing in the modelled parsing raises.
- The order of keys in the diet dictionary: it is a map.
- Dates.LongDate: `%Y` is rendered as the year's decimal digits without padding below year 1000.
- Prescription.FallbackResponse: the table cells are text padded with `Repeat`, not an actual table type.
- PrescriptionProperties.FallbackParsed: stated only for patients whose name, gender and constitution hold no line break. A line break in one of those fields splits the patient's line, and the parts can then be read as bullets or table rows.
- Retrieval.StructuredSearch: its own contract gives only the bound on n. The metadata keys, distinct ids, ordering and optimality are stated by `MetadataKeys` and the lemmas of `RetrievalProperties`.
- Retrieval.TextSearch: its own contract gives only the bound on n. The other properties are stated by `MetadataKeys`, `TextResultsMatch`, `TextBestFirst` and `TextTopN`.
- main.py and the HTTP service are not part of this model.
