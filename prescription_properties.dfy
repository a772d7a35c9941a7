/**
  Properties of the prescription generator: the fallback prescription, read back by the
  generator's own reply parser, yields exactly the medicines, diet table and lifestyle advice it
  prints; the prompt lists the retrieved cases and the section headers the parser looks for; the
  printed prescription frames the reply so that it can be cut out again.
 */
module PrescriptionProperties {
  import opened Wrappers
  import opened Strings
  import opened Ranking
  import opened Retrieval
  import opened ReplyParser
  import opened Dates
  import opened Prescription

  // ---------------------------------------------------------------------------
  // running the parser over blocks of lines

  lemma RunFromUnfold(st: ParseState, lines: seq<string>)
    requires lines != []
    ensures RunFrom(st, lines) == RunFrom(Step(st, lines[0]), lines[1..])
  {
  }

  lemma RunFromAt(st: ParseState, lines: seq<string>, i: nat)
    requires i < |lines|
    ensures RunFrom(st, lines[i..]) == RunFrom(Step(st, lines[i]), lines[i + 1..])
  {
    assert lines[i..][0] == lines[i] && lines[i..][1..] == lines[i + 1..];
  }

  lemma RunFromOne(st: ParseState, x: string)
    ensures RunFrom(st, [x]) == Step(st, x)
  {
    assert [x][1..] == [];
  }

  /** A list item the parser keeps as it is: no margins, no full stop and no line break. */
  predicate PlainItem(item: string) {
    item != [] && !IsSpace(item[0]) && !IsSpace(item[|item| - 1]) && '.' !in item && '\n' !in item
  }

  /** Letters, digits, spaces and the punctuation of the fallback advice: no full stop, no bar,
      no line break and no bullet. */
  predicate Prose(s: string) {
    forall c :: c in s ==> 'a' <= c <= 'z' || 'A' <= c <= 'Z' || '0' <= c <= '9' || c in " ,:-/()"
  }

  /** Prose without margins is a plain item. */
  lemma ProsePlain(s: string)
    requires Prose(s) && s != [] && !IsSpace(s[0]) && !IsSpace(s[|s| - 1])
    ensures PlainItem(s) && '|' !in s && Bullet !in s
  {
  }

  /** The state with `items` appended to the list of the current section, medicines or lifestyle. */
  function Appended(st: ParseState, items: seq<string>): ParseState {
    if st.section == Medicines then st.(medicines := st.medicines + items)
    else st.(lifestyle := st.lifestyle + items)
  }

  /** The bullet lines of plain items, read in the medicine or the lifestyle section, append
      exactly those items to that section's list. */
  lemma {:induction false} RunBulleted(st: ParseState, items: seq<string>)
    requires st.section == Medicines || st.section == Lifestyle
    requires forall k :: 0 <= k < |items| ==> PlainItem(items[k])
    ensures RunFrom(st, Bulleted(items)) == Appended(st, items)
    decreases |items|
  {
    if items == [] {
      assert st.medicines + items == st.medicines && st.lifestyle + items == st.lifestyle;
    } else {
      var lines := Bulleted(items);
      BulletedCons(items);
      BulletedLineStep(st, items[0]);
      RunFromUnfold(st, lines);
      RunBulleted(Appended(st, [items[0]]), items[1..]);
      AppendedTwice(st, items);
    }
  }

  lemma BulletedLineStep(st: ParseState, item: string)
    requires st.section == Medicines || st.section == Lifestyle
    requires PlainItem(item)
    ensures Step(st, BulletedLine(item)) == Appended(st, [item])
  {
    assert AllSpace("   ");
    BulletWithoutDot(item);
    BulletLine(st, "   ", item);
  }

  lemma AppendedTwice(st: ParseState, items: seq<string>)
    requires st.section == Medicines || st.section == Lifestyle
    requires items != []
    ensures Appended(Appended(st, [items[0]]), items[1..]) == Appended(st, items)
  {
    assert items == [items[0]] + items[1..];
    assert st.medicines + [items[0]] + items[1..] == st.medicines + items;
    assert st.lifestyle + [items[0]] + items[1..] == st.lifestyle + items;
  }

  lemma BulletedCons(items: seq<string>)
    requires items != []
    ensures Bulleted(items) != [] && Bulleted(items)[0] == BulletedLine(items[0])
    ensures Bulleted(items)[1..] == Bulleted(items[1..])
  {
    assert Bulleted(items) == [BulletedLine(items[0])] + Bulleted(items[1..]);
  }

  /** Bullet lines of items without a line break have none either. */
  lemma {:induction false} BulletedNoBreak(items: seq<string>)
    requires forall k :: 0 <= k < |items| ==> '\n' !in items[k]
    ensures forall k :: 0 <= k < |Bulleted(items)| ==> '\n' !in Bulleted(items)[k]
    ensures |Bulleted(items)| == |items|
    decreases |items|
  {
    if items != [] {
      BulletedNoBreak(items[1..]);
      assert Bulleted(items) == [BulletedLine(items[0])] + Bulleted(items[1..]);
    }
  }

  lemma FallbackMedicinesPlain()
    ensures forall k :: 0 <= k < |FallbackMedicines| ==> PlainItem(FallbackMedicines[k])
  {
    MedicinePlain0();
    MedicinePlain1();
    MedicinePlain2();
  }

  lemma FallbackLifestylePlain()
    ensures forall k :: 0 <= k < |FallbackLifestyle| ==> PlainItem(FallbackLifestyle[k])
  {
    LifestylePlain0();
    LifestylePlain1();
    LifestylePlain2();
    LifestylePlain3();
    LifestylePlain4();
  }

  lemma MedicinePlain0()
    ensures PlainItem(FallbackMedicines[0])
  {
    Plain("Triphala Churna: 1 tsp ", "with warm water at bedtime");
  }

  lemma MedicinePlain1()
    ensures PlainItem(FallbackMedicines[1])
  {
    Plain("Ashwagandha powder: 1/2 tsp ", "with warm milk twice daily");
  }

  lemma MedicinePlain2()
    ensures PlainItem(FallbackMedicines[2])
  {
    Plain("Amla juice: 20 ml ", "with water in the morning");
  }

  lemma LifestylePlain0()
    ensures PlainItem(FallbackLifestyle[0])
  {
    Plain("Practice Anulom-Vilom ", "pranayama daily (10 minutes)");
  }

  lemma LifestylePlain1()
    ensures PlainItem(FallbackLifestyle[1])
  {
    Plain("Morning walk ", "for 20-30 minutes");
  }

  lemma LifestylePlain2()
    ensures PlainItem(FallbackLifestyle[2])
  {
    Plain("Sleep by 10 PM, ", "wake by 6 AM");
  }

  lemma LifestylePlain3()
    ensures PlainItem(FallbackLifestyle[3])
  {
    Plain("Avoid processed ", "and cold foods");
  }

  lemma LifestylePlain4()
    ensures PlainItem(FallbackLifestyle[4])
  {
    Plain("Practice meditation for ", "stress relief (10 minutes daily)");
  }

  /** A text of two pieces is a plain item when the pieces start and end without a space and
      hold no full stop and no line break. */
  lemma Plain(a: string, b: string)
    requires a != [] && b != [] && !IsSpace(a[0]) && !IsSpace(b[|b| - 1])
    requires '.' !in a && '.' !in b && '\n' !in a && '\n' !in b
    ensures PlainItem(a + b)
  {
  }

  // ---------------------------------------------------------------------------
  // the opening and the two bulleted blocks

  /** Before any header, a line that holds no header changes nothing. */
  lemma NoSectionQuiet(st: ParseState, raw: string)
    requires st.section == NoSection && HeaderOf(Strip(raw)).None?
    ensures Step(st, raw) == st
  {
  }

  /** The opening lines add nothing to the lists or the table, whatever the patient's line holds:
      a header in it can only change the section. */
  lemma OpeningRun(p: PatientInfo)
    ensures var st := RunFrom(Initial, Opening(p));
      st.medicines == [] && st.diet == map[] && st.lifestyle == []
  {
    var lines := Opening(p);
    var afterLine := Step(Initial, PrescriptionLine(p));
    QuietLine(Initial, "");
    PatientLineAddsNothing(p);
    QuietLine(afterLine, "");
    RunFromUnfold(Initial, lines);
    RunFromUnfold(Initial, lines[1..]);
    assert lines[1..][1..] == [""];
    RunFromOne(afterLine, "");
  }

  /** Read before any section, the patient's line at most opens a section. */
  lemma PatientLineAddsNothing(p: PatientInfo)
    ensures var st := Step(Initial, PrescriptionLine(p));
      st.medicines == [] && st.diet == map[] && st.lifestyle == []
  {
    if HeaderOf(Strip(PrescriptionLine(p))).None? {
      NoSectionQuiet(Initial, PrescriptionLine(p));
    }
  }

  /** A header, a run of bullet lines and a blank line. */
  lemma BulletBlockRun(st: ParseState, header: string, sec: Section, items: seq<string>)
    requires sec == Medicines || sec == Lifestyle
    requires Step(st, header) == st.(section := sec)
    requires forall k :: 0 <= k < |items| ==> PlainItem(items[k])
    ensures RunFrom(st, [header] + Bulleted(items) + [""]) == Appended(st.(section := sec), items)
  {
    var inSection := st.(section := sec);
    var filled := Appended(inSection, items);
    RunBulleted(inSection, items);
    QuietLine(filled, "");
    RunFromAppend(st, [header] + Bulleted(items), [""]);
    assert ([header] + Bulleted(items))[1..] == Bulleted(items);
    RunFromUnfold(st, [header] + Bulleted(items));
    RunFromOne(filled, "");
  }

  lemma MedicinesBlockRun(st: ParseState)
    ensures RunFrom(st, MedicinesBlock) == st.(section := Medicines, medicines := st.medicines + FallbackMedicines)
  {
    HeaderLines(st);
    FallbackMedicinesPlain();
    BulletBlockRun(st, MedicinesHeader, Medicines, FallbackMedicines);
  }

  lemma LifestyleBlockRun(st: ParseState)
    ensures RunFrom(st, LifestyleBlock) == st.(section := Lifestyle, lifestyle := st.lifestyle + FallbackLifestyle)
  {
    HeaderLines(st);
    FallbackLifestylePlain();
    BulletBlockRun(st, LifestyleHeader, Lifestyle, FallbackLifestyle);
  }

  // ---------------------------------------------------------------------------
  // the diet table

  /** The row between the indentation: `|meal cell|advice cell|`. */
  function Row(meal: string, advice: string): string
    requires |meal| < 11 && |advice| < 40
  {
    "|" + TableCell(meal, 11) + "|" + TableCell(advice, 40) + "|"
  }

  /** A character that is neither a space nor in the text is not in its cell. */
  lemma CellLacks(text: string, width: nat, c: char)
    requires |text| < width && c != ' ' && c !in text
    ensures c !in TableCell(text, width)
  {
  }

  /** Stripping a cell gives back its text. */
  lemma CellStripped(text: string, width: nat)
    requires |text| < width && text != [] && !IsSpace(text[0]) && !IsSpace(text[|text| - 1])
    ensures Strip(TableCell(text, width)) == text
  {
    var pad := Repeat(' ', width - 1 - |text|);
    assert AllSpace(" ") && AllSpace(pad);
    StripAround(" ", text, pad);
  }

  /** A character other than a space or a bar, in neither cell, is not in the row. */
  lemma RowLacks(meal: string, advice: string, c: char)
    requires |meal| < 11 && |advice| < 40
    requires c != ' ' && c != '|' && c !in meal && c !in advice
    ensures c !in Row(meal, advice) && c !in MealRow(meal, advice)
  {
    CellLacks(meal, 11, c);
    CellLacks(advice, 40, c);
  }

  /** A row contains its meal name. */
  lemma RowHoldsMeal(meal: string, advice: string)
    requires |meal| < 11 && |advice| < 40
    ensures Contains(Row(meal, advice), meal)
  {
    var pad, cell := Repeat(' ', 10 - |meal|), TableCell(advice, 40);
    Regroup("|", " ", meal, pad, "|", cell, "|");
    ContainsInfix("|" + " ", meal, pad + ("|" + cell + "|"));
  }

  /** The row `a + (b + c + d) + e + f + g`, regrouped around `c`. */
  lemma Regroup(a: string, b: string, c: string, d: string, e: string, f: string, g: string)
    ensures a + (b + c + d) + e + f + g == (a + b) + c + (d + (e + f + g))
  {
  }

  lemma ConsAssoc(c: char, t: string, x: string)
    ensures [c] + t + x == [c] + (t + x)
  {
  }

  /** A needle whose first character is in neither cell is not in the row. */
  lemma RowLacksName(meal: string, advice: string, needle: string)
    requires |meal| < 11 && |advice| < 40 && needle != []
    requires needle[0] != ' ' && needle[0] != '|' && needle[0] !in meal && needle[0] !in advice
    ensures !Contains(Row(meal, advice), needle)
  {
    RowLacks(meal, advice, needle[0]);
    NotContainsByChar(Row(meal, advice), needle, needle[0]);
  }

  /** A needle whose first character occurs in the advice only at its start, where the needle's
      second character does not follow, is not in the row. */
  lemma RowLacksNameAtAdvice(meal: string, advice: string, needle: string)
    requires |meal| < 11 && 2 <= |advice| < 40 && |needle| >= 2
    requires needle[0] != ' ' && needle[0] != '|' && needle[0] !in meal
    requires forall i :: 0 < i < |advice| ==> advice[i] != needle[0]
    requires advice[1] != needle[1]
    ensures !Contains(Row(meal, advice), needle)
  {
    assert needle[0] !in advice[1..];
    var front := "|" + TableCell(meal, 11) + "|" + " ";
    var rest := advice[1..] + Repeat(' ', 39 - |advice|) + "|";
    assert advice == [advice[0]] + advice[1..];
    assert Row(meal, advice) == front + ([advice[0]] + rest);
    CellLacks(meal, 11, needle[0]);
    NotContainsAtHead(advice[0], rest, needle);
    if Contains(front + ([advice[0]] + rest), needle) {
      ContainsSkip(front, [advice[0]] + rest, needle);
    }
  }

  /** A needle whose first character occurs in the row only at the start of the meal name,
      where the needle's second character does not follow, is not in the row. */
  lemma RowLacksNameAtMeal(meal: string, advice: string, needle: string)
    requires 2 <= |meal| < 11 && |advice| < 40 && |needle| >= 2
    requires needle[0] != ' ' && needle[0] != '|' && needle[0] !in advice
    requires forall i :: 0 < i < |meal| ==> meal[i] != needle[0]
    requires meal[1] != needle[1]
    ensures !Contains(Row(meal, advice), needle)
  {
    var front := "|" + " ";
    var pad := Repeat(' ', 10 - |meal|);
    var tail := "|" + TableCell(advice, 40) + "|";
    var rest := meal[1..] + (pad + tail);
    Regroup("|", " ", meal, pad, "|", TableCell(advice, 40), "|");
    AppendAssoc(front, meal, pad + tail);
    assert meal == [meal[0]] + meal[1..];
    ConsAssoc(meal[0], meal[1..], pad + tail);
    assert Row(meal, advice) == front + ([meal[0]] + rest);
    CellLacks(advice, 40, needle[0]);
    assert needle[0] !in meal[1..];
    assert rest[0] == meal[1];
    NotContainsAtHead(meal[0], rest, needle);
    if Contains(front + ([meal[0]] + rest), needle) {
      ContainsSkip(front, [meal[0]] + rest, needle);
    }
  }

  /** A meal row read in the diet section stores its advice under the key of the meal it names. */
  lemma MealRowStep(st: ParseState, meal: string, advice: string, key: string)
    requires st.section == Diet && |meal| < 11 && |advice| < 40
    requires Prose(meal) && Prose(advice) && advice != [] && !IsSpace(advice[0]) && !IsSpace(advice[|advice| - 1])
    requires MealKey(Row(meal, advice)) == Some(key)
    ensures Step(st, MealRow(meal, advice)) == st.(diet := st.diet[key := advice])
  {
    ProsePlain(advice);
    CellLacks(meal, 11, '|');
    CellLacks(meal, 11, '.');
    CellLacks(advice, 40, '|');
    CellLacks(advice, 40, '.');
    RowHasNoHeader(TableCell(meal, 11), TableCell(advice, 40));
    assert AllSpace("   ");
    DietRowLine(st, "   ", TableCell(meal, 11), TableCell(advice, 40), key);
    CellStripped(advice, 40);
  }

  /** The table's border lines change nothing. */
  lemma BorderQuiet(st: ParseState)
    ensures Step(st, TableBorder) == st
  {
    QuietLine(st, TableBorder);
  }

  /** The table's heading row names no meal and changes nothing. */
  lemma HeadingRowQuiet(st: ParseState)
    ensures Step(st, MealRow("Meal", "Recommendation")) == st
  {
    RowLacks("Meal", "Recommendation", '.');
    RowLacks("Meal", "Recommendation", Bullet);
    RowLacks("Meal", "Recommendation", 'B');
    RowLacks("Meal", "Recommendation", 'L');
    RowLacks("Meal", "Recommendation", 'D');
    QuietLine(st, MealRow("Meal", "Recommendation"));
  }

  lemma BreakfastRowStep(st: ParseState)
    requires st.section == Diet
    ensures Step(st, MealRow("Breakfast", "Warm oats with seasonal fruits")) == st.(diet := st.diet["breakfast" := "Warm oats with seasonal fruits"])
  {
    var meal, advice := "Breakfast", "Warm oats with seasonal fruits";
    BreakfastTexts();
    RowHoldsMeal(meal, advice);
    MealRowStep(st, meal, advice, "breakfast");
  }

  lemma BreakfastTexts()
    ensures var meal, advice := "Breakfast", "Warm oats with seasonal fruits";
      Prose(meal) && Prose(advice) && advice != [] && !IsSpace(advice[0]) && !IsSpace(advice[|advice| - 1])
  {
  }

  lemma LunchRowStep(st: ParseState)
    requires st.section == Diet
    ensures Step(st, MealRow("Lunch", "Rice with dal and cooked vegetables")) == st.(diet := st.diet["lunch" := "Rice with dal and cooked vegetables"])
  {
    var meal, advice := "Lunch", "Rice with dal and cooked vegetables";
    LunchTexts();
    LunchLetters0();
    RowLacksName(meal, advice, "Breakfast");
    RowHoldsMeal(meal, advice);
    MealRowStep(st, meal, advice, "lunch");
  }

  lemma LunchTexts()
    ensures var meal, advice := "Lunch", "Rice with dal and cooked vegetables";
      Prose(meal) && Prose(advice) && advice != [] && !IsSpace(advice[0]) && !IsSpace(advice[|advice| - 1])
  {
  }

  lemma LunchLetters0()
    ensures var meal, advice := "Lunch", "Rice with dal and cooked vegetables"; 'B' !in meal && 'B' !in advice
  {
  }

  lemma DinnerRowStep(st: ParseState)
    requires st.section == Diet
    ensures Step(st, MealRow("Dinner", "Light khichdi or vegetable soup")) == st.(diet := st.diet["dinner" := "Light khichdi or vegetable soup"])
  {
    var meal, advice := "Dinner", "Light khichdi or vegetable soup";
    DinnerTexts();
    DinnerLetters0();
    DinnerLetters1();
    RowLacksName(meal, advice, "Breakfast");
    RowLacksNameAtAdvice(meal, advice, "Lunch");
    RowHoldsMeal(meal, advice);
    MealRowStep(st, meal, advice, "dinner");
  }

  lemma DinnerTexts()
    ensures var meal, advice := "Dinner", "Light khichdi or vegetable soup";
      Prose(meal) && Prose(advice) && advice != [] && !IsSpace(advice[0]) && !IsSpace(advice[|advice| - 1])
  {
  }

  lemma DinnerLetters0()
    ensures var meal, advice := "Dinner", "Light khichdi or vegetable soup"; 'B' !in meal && 'B' !in advice
  {
  }

  lemma DinnerLetters1()
    ensures var meal, advice := "Dinner", "Light khichdi or vegetable soup"; 'L' !in meal && advice[1] == 'i' && forall i :: 0 < i < |advice| ==> advice[i] != 'L'
  {
  }

  lemma DrinksRowStep(st: ParseState)
    requires st.section == Diet
    ensures Step(st, MealRow("Drinks", "Warm water, herbal teas")) == st.(diet := st.diet["drinks" := "Warm water, herbal teas"])
  {
    var meal, advice := "Drinks", "Warm water, herbal teas";
    DrinksTexts();
    DrinksLetters0();
    DrinksLetters1();
    DrinksLetters2();
    RowLacksName(meal, advice, "Breakfast");
    RowLacksName(meal, advice, "Lunch");
    RowLacksNameAtMeal(meal, advice, "Dinner");
    RowHoldsMeal(meal, advice);
    MealRowStep(st, meal, advice, "drinks");
  }

  lemma DrinksTexts()
    ensures var meal, advice := "Drinks", "Warm water, herbal teas";
      Prose(meal) && Prose(advice) && advice != [] && !IsSpace(advice[0]) && !IsSpace(advice[|advice| - 1])
  {
  }

  lemma DrinksLetters0()
    ensures var meal, advice := "Drinks", "Warm water, herbal teas"; 'B' !in meal && 'B' !in advice
  {
  }

  lemma DrinksLetters1()
    ensures var meal, advice := "Drinks", "Warm water, herbal teas"; 'L' !in meal && 'L' !in advice
  {
  }

  lemma DrinksLetters2()
    ensures var meal, advice := "Drinks", "Warm water, herbal teas"; 'D' !in advice && meal[1] == 'r' && forall i :: 0 < i < |meal| ==> meal[i] != 'D'
  {
  }

  lemma HeadingTexts()
    ensures Prose("Meal") && Prose("Recommendation")
  {
  }

  /** Five lines read one after another, each taking the parser one step. */
  lemma RunFive(s0: ParseState, a: string, b: string, c: string, d: string, e: string,
                s1: ParseState, s2: ParseState, s3: ParseState, s4: ParseState, s5: ParseState)
    requires Step(s0, a) == s1 && Step(s1, b) == s2 && Step(s2, c) == s3
    requires Step(s3, d) == s4 && Step(s4, e) == s5
    ensures RunFrom(s0, [a, b, c, d, e]) == s5
  {
    RunCons(s0, a, [b, c, d, e]);
    RunCons(s1, b, [c, d, e]);
    RunCons(s2, c, [d, e]);
    RunCons(s3, d, [e]);
    RunFromOne(s4, e);
  }

  lemma RunCons(st: ParseState, x: string, rest: seq<string>)
    ensures RunFrom(st, [x] + rest) == RunFrom(Step(st, x), rest)
  {
    assert ([x] + rest)[1..] == rest;
  }

  /** The diet header, the borders and the heading row of the table. */
  lemma DietTableTopRun(st: ParseState)
    ensures RunFrom(st, [DietHeader, TableBorder, MealRow("Meal", "Recommendation"), TableBorder,
      MealRow("Breakfast", "Warm oats with seasonal fruits")])
      == st.(section := Diet, diet := st.diet["breakfast" := "Warm oats with seasonal fruits"])
  {
    var s0 := st.(section := Diet);
    HeaderLines(st);
    BorderQuiet(s0);
    HeadingRowQuiet(s0);
    BreakfastRowStep(s0);
    RunFive(st, DietHeader, TableBorder, MealRow("Meal", "Recommendation"), TableBorder,
      MealRow("Breakfast", "Warm oats with seasonal fruits"),
      s0, s0, s0, s0, s0.(diet := s0.diet["breakfast" := "Warm oats with seasonal fruits"]));
  }

  /** The last three meals, the closing border and the blank line. */
  lemma DietTableRestRun(st: ParseState)
    requires st.section == Diet
    ensures RunFrom(st, [MealRow("Lunch", "Rice with dal and cooked vegetables"),
      MealRow("Dinner", "Light khichdi or vegetable soup"), MealRow("Drinks", "Warm water, herbal teas"),
      TableBorder, ""])
      == st.(diet := st.diet
        ["lunch" := "Rice with dal and cooked vegetables"]
        ["dinner" := "Light khichdi or vegetable soup"]
        ["drinks" := "Warm water, herbal teas"])
  {
    var s1 := st.(diet := st.diet["lunch" := "Rice with dal and cooked vegetables"]);
    var s2 := s1.(diet := s1.diet["dinner" := "Light khichdi or vegetable soup"]);
    var s3 := s2.(diet := s2.diet["drinks" := "Warm water, herbal teas"]);
    LunchRowStep(st);
    DinnerRowStep(s1);
    DrinksRowStep(s2);
    BorderQuiet(s3);
    QuietLine(s3, "");
    RunFive(st, MealRow("Lunch", "Rice with dal and cooked vegetables"),
      MealRow("Dinner", "Light khichdi or vegetable soup"), MealRow("Drinks", "Warm water, herbal teas"),
      TableBorder, "", s1, s2, s3, s3, s3);
  }

  /** The diet block opens the diet section and stores the four rows of its table, in order. */
  lemma DietBlockRun(st: ParseState)
    ensures RunFrom(st, DietBlock) == st.(section := Diet, diet := st.diet
      ["breakfast" := "Warm oats with seasonal fruits"]
      ["lunch" := "Rice with dal and cooked vegetables"]
      ["dinner" := "Light khichdi or vegetable soup"]
      ["drinks" := "Warm water, herbal teas"])
  {
    var top := [DietHeader, TableBorder, MealRow("Meal", "Recommendation"), TableBorder,
      MealRow("Breakfast", "Warm oats with seasonal fruits")];
    var rest := [MealRow("Lunch", "Rice with dal and cooked vegetables"),
      MealRow("Dinner", "Light khichdi or vegetable soup"), MealRow("Drinks", "Warm water, herbal teas"),
      TableBorder, ""];
    assert DietBlock == top + rest;
    RunFromAppend(st, top, rest);
    DietTableTopRun(st);
    DietTableRestRun(st.(section := Diet, diet := st.diet["breakfast" := "Warm oats with seasonal fruits"]));
  }

  // ---------------------------------------------------------------------------
  // no line breaks inside the lines

  predicate NoBreaks(lines: seq<string>) {
    forall k :: 0 <= k < |lines| ==> '\n' !in lines[k]
  }

  lemma NoBreaksAppend(a: seq<string>, b: seq<string>)
    requires NoBreaks(a) && NoBreaks(b)
    ensures NoBreaks(a + b)
  {
  }

  lemma HeadersNoBreak()
    ensures '\n' !in MedicinesHeader && '\n' !in DietHeader && '\n' !in LifestyleHeader
  {
  }

  lemma OpeningNoBreak(p: PatientInfo)
    requires '\n' !in p.name && '\n' !in p.gender && '\n' !in p.constitutionDosha
    ensures NoBreaks(Opening(p))
  {
    assert '\n' !in IntToString(p.age);
  }

  lemma BulletBlockNoBreak(header: string, items: seq<string>)
    requires '\n' !in header && forall k :: 0 <= k < |items| ==> PlainItem(items[k])
    ensures NoBreaks([header] + Bulleted(items) + [""])
  {
    BulletedNoBreak(items);
    NoBreaksAppend([header], Bulleted(items));
    NoBreaksAppend([header] + Bulleted(items), [""]);
  }

  lemma DietBlockNoBreak()
    ensures NoBreaks(DietBlock)
  {
    HeadersNoBreak();
    HeadingTexts();
    BreakfastTexts();
    LunchTexts();
    DinnerTexts();
    DrinksTexts();
    RowLacks("Meal", "Recommendation", '\n');
    RowLacks("Breakfast", "Warm oats with seasonal fruits", '\n');
    RowLacks("Lunch", "Rice with dal and cooked vegetables", '\n');
    RowLacks("Dinner", "Light khichdi or vegetable soup", '\n');
    RowLacks("Drinks", "Warm water, herbal teas", '\n');
  }

  lemma FallbackLinesNoBreak(p: PatientInfo)
    requires '\n' !in p.name && '\n' !in p.gender && '\n' !in p.constitutionDosha
    ensures NoBreaks(FallbackLines(p))
  {
    OpeningNoBreak(p);
    HeadersNoBreak();
    FallbackMedicinesPlain();
    FallbackLifestylePlain();
    BulletBlockNoBreak(MedicinesHeader, FallbackMedicines);
    BulletBlockNoBreak(LifestyleHeader, FallbackLifestyle);
    DietBlockNoBreak();
    NoBreaksAppend(Opening(p), MedicinesBlock);
    NoBreaksAppend(Opening(p) + MedicinesBlock, DietBlock);
    NoBreaksAppend(Opening(p) + MedicinesBlock + DietBlock, LifestyleBlock);
  }

  // ---------------------------------------------------------------------------
  // the fallback prescription read back

  /** The diet table of the fallback prescription, by meal. */
  const FallbackDiet: map<string, string> := map[
    "breakfast" := "Warm oats with seasonal fruits",
    "lunch" := "Rice with dal and cooked vegetables",
    "dinner" := "Light khichdi or vegetable soup",
    "drinks" := "Warm water, herbal teas"]

  /** Parsing the fallback text yields exactly the three medicines, the four meals and the five
      lifestyle items it prints, and leaves the parser in the lifestyle section; this holds when
      the patient's fields have no line break. */
  lemma FallbackParsed(p: PatientInfo)
    requires '\n' !in p.name && '\n' !in p.gender && '\n' !in p.constitutionDosha
    ensures Parse(FallbackText(p)) == ParseState(Lifestyle, FallbackMedicines, FallbackDiet, FallbackLifestyle)
  {
    var lines := FallbackLines(p);
    FallbackLinesNoBreak(p);
    SplitJoin(lines, '\n');
    RunIsRunFrom(lines);
    FallbackRun(p);
  }

  /** The parser's walk over the lines of the fallback text, block by block. */
  lemma FallbackRun(p: PatientInfo)
    ensures RunFrom(Initial, FallbackLines(p)) == ParseState(Lifestyle, FallbackMedicines, FallbackDiet, FallbackLifestyle)
  {
    var a, b := Opening(p), Opening(p) + MedicinesBlock;
    RunFromAppend(Initial, b + DietBlock, LifestyleBlock);
    RunFromAppend(Initial, b, DietBlock);
    RunFromAppend(Initial, a, MedicinesBlock);
    var afterOpening := RunFrom(Initial, a);
    OpeningRun(p);
    MedicinesBlockRun(afterOpening);
    var afterMedicines := ParseState(Medicines, FallbackMedicines, map[], []);
    assert [] + FallbackMedicines == FallbackMedicines;
    assert RunFrom(Initial, b) == afterMedicines;
    DietBlockRun(afterMedicines);
    var afterDiet := afterMedicines.(section := Diet, diet := FallbackDiet);
    LifestyleBlockRun(afterDiet);
    assert [] + FallbackLifestyle == FallbackLifestyle;
  }

  /** The JSON document of the fallback response lists exactly the fallback medicines, diet and
      lifestyle advice. */
  lemma FallbackDocument(p: PatientInfo, now: DateTime)
    requires '\n' !in p.name && '\n' !in p.gender && '\n' !in p.constitutionDosha
    ensures FallbackResponse(p, now).jsonFormat.prescription
      == PrescriptionBody(FallbackMedicines, FallbackDiet, FallbackLifestyle)
  {
    FallbackParsed(p);
  }
}
