/**
  The section parser of `_create_json_output` (enhanced_prescription.py): the
  generator's reply is split into lines, each line is stripped, and a current
  section set by the three numbered headers decides whether a bullet line is a
  medicine or a lifestyle item and whether a table row is a diet entry.
 */
module ReplyParser {
  import opened Wrappers
  import opened Strings

  const MedicinesHeader: string := "1. Ayurvedic Medicines:"
  const DietHeader: string := "2. Diet Recommendation:"
  const LifestyleHeader: string := "3. Lifestyle Recommendations:"
  const Bullet: char := '•'

  /** The four meals a diet row may name, as the lower-case keys of the diet map. */
  const MealKeys: set<string> := {"breakfast", "lunch", "dinner", "drinks"}

  /** `current_section`: no header seen yet, or the last header seen. */
  datatype Section = NoSection | Medicines | Diet | Lifestyle

  /** The parser's local state: the current section and the three collections built so far. */
  datatype ParseState = ParseState(
    section: Section,
    medicines: seq<string>,
    diet: map<string, string>,
    lifestyle: seq<string>)

  const Initial: ParseState := ParseState(NoSection, [], map[], [])

  /** The section a stripped line opens, if it contains a header; the medicine header is tested first. */
  function HeaderOf(line: string): (h: Option<Section>)
    ensures h.Some? <==> Contains(line, MedicinesHeader) || Contains(line, DietHeader) || Contains(line, LifestyleHeader)
    ensures h.Some? ==> h.value != NoSection
  {
    if Contains(line, MedicinesHeader) then Some(Medicines)
    else if Contains(line, DietHeader) then Some(Diet)
    else if Contains(line, LifestyleHeader) then Some(Lifestyle)
    else None
  }

  predicate StartsWithBullet(line: string) {
    |line| > 0 && line[0] == Bullet
  }

  /** `line[1:].strip()` for a line that starts with the bullet. */
  function BulletItem(line: string): string
    requires StartsWithBullet(line)
  {
    Strip(line[1..])
  }

  /** The diet key of a table row: the first meal name the row contains, in the order
      Breakfast, Lunch, Dinner, Drinks. */
  function MealKey(line: string): (k: Option<string>)
    ensures k.Some? ==> k.value in MealKeys
    ensures k.None? <==> !Contains(line, "Breakfast") && !Contains(line, "Lunch") && !Contains(line, "Dinner") && !Contains(line, "Drinks")
  {
    if Contains(line, "Breakfast") then Some("breakfast")
    else if Contains(line, "Lunch") then Some("lunch")
    else if Contains(line, "Dinner") then Some("dinner")
    else if Contains(line, "Drinks") then Some("drinks")
    else None
  }

  /** One iteration of the parsing loop on one raw line. */
  function Step(st: ParseState, raw: string): ParseState {
    var line := Strip(raw);
    match HeaderOf(line)
    case Some(sec) => st.(section := sec)
    case None =>
      if StartsWithBullet(line) && st.section == Medicines then st.(medicines := st.medicines + [BulletItem(line)])
      else if StartsWithBullet(line) && st.section == Lifestyle then st.(lifestyle := st.lifestyle + [BulletItem(line)])
      else if '|' in line && st.section == Diet then st.(diet := DietRow(st.diet, line))
      else st
  }

  /** A table row read in the diet section: with a meal name and at least three cells, the third
      cell, stripped, is stored under the meal's key; every other entry is kept. */
  function DietRow(diet: map<string, string>, line: string): (d: map<string, string>)
    ensures diet.Keys <= d.Keys <= diet.Keys + MealKeys
    ensures forall k :: k in diet && MealKey(line) != Some(k) ==> d[k] == diet[k]
    ensures MealKey(line).Some? && |Split(line, '|')| >= 3 ==>
      MealKey(line).value in d && d[MealKey(line).value] == Strip(Split(line, '|')[2])
    ensures MealKey(line).Some? && |Split(line, '|')| >= 3 ==> d == diet[MealKey(line).value := Strip(Split(line, '|')[2])]
    ensures MealKey(line).None? || |Split(line, '|')| < 3 ==> d == diet
  {
    match MealKey(line)
    case None => diet
    case Some(key) =>
      var parts := Split(line, '|');
      if |parts| >= 3 then diet[key := Strip(parts[2])] else diet
  }

  /** The state after the loop has processed `lines`. */
  function Run(lines: seq<string>): ParseState {
    if lines == [] then Initial else Step(Run(lines[..|lines| - 1]), lines[|lines| - 1])
  }

  /** The three collections parsed from a reply. */
  function Parse(text: string): ParseState {
    Run(Split(text, '\n'))
  }

  /** The parsing loop of `_create_json_output`. */
  method ParseReply(responseText: string)
    returns (medicines: seq<string>, dietRecommendations: map<string, string>, lifestyleRecommendations: seq<string>)
    ensures var st := Parse(responseText);
      medicines == st.medicines && dietRecommendations == st.diet && lifestyleRecommendations == st.lifestyle
  {
    medicines, dietRecommendations, lifestyleRecommendations := [], map[], [];
    var lines := Split(responseText, '\n');
    var currentSection := NoSection;
    for i := 0 to |lines|
      invariant Run(lines[..i]) == ParseState(currentSection, medicines, dietRecommendations, lifestyleRecommendations)
    {
      assert lines[..i + 1][..i] == lines[..i];
      currentSection, medicines, dietRecommendations, lifestyleRecommendations :=
        ParseLine(currentSection, medicines, dietRecommendations, lifestyleRecommendations, lines[i]);
    }
    assert lines[..|lines|] == lines;
  }

  /** The body of the parsing loop: the header tests, then the bullet tests, then the diet-row tests. */
  method ParseLine(section: Section, medicines: seq<string>, diet: map<string, string>, lifestyle: seq<string>, raw: string)
    returns (section': Section, medicines': seq<string>, diet': map<string, string>, lifestyle': seq<string>)
    ensures ParseState(section', medicines', diet', lifestyle') == Step(ParseState(section, medicines, diet, lifestyle), raw)
  {
    section', medicines', diet', lifestyle' := section, medicines, diet, lifestyle;
    var line := Strip(raw);
    if Contains(line, MedicinesHeader) {
      section' := Medicines;
    } else if Contains(line, DietHeader) {
      section' := Diet;
    } else if Contains(line, LifestyleHeader) {
      section' := Lifestyle;
    } else if StartsWithBullet(line) && section == Medicines {
      medicines' := medicines + [Strip(line[1..])];
    } else if StartsWithBullet(line) && section == Lifestyle {
      lifestyle' := lifestyle + [Strip(line[1..])];
    } else if '|' in line && section == Diet {
      diet' := ParseDietRow(diet, line);
    }
  }

  /** The diet-row branch of the loop body: the first meal name in the row picks the key, and the
      third cell is stored when the row has at least three cells. */
  method ParseDietRow(diet: map<string, string>, line: string) returns (diet': map<string, string>)
    ensures diet' == DietRow(diet, line)
  {
    diet' := diet;
    if Contains(line, "Breakfast") {
      assert MealKey(line) == Some("breakfast");
      DietRowKeyed(diet, line, "breakfast");
      var parts := Split(line, '|');
      if |parts| >= 3 {
        diet' := diet["breakfast" := Strip(parts[2])];
      }
    } else if Contains(line, "Lunch") {
      assert MealKey(line) == Some("lunch");
      DietRowKeyed(diet, line, "lunch");
      var parts := Split(line, '|');
      if |parts| >= 3 {
        diet' := diet["lunch" := Strip(parts[2])];
      }
    } else if Contains(line, "Dinner") {
      assert MealKey(line) == Some("dinner");
      DietRowKeyed(diet, line, "dinner");
      var parts := Split(line, '|');
      if |parts| >= 3 {
        diet' := diet["dinner" := Strip(parts[2])];
      }
    } else if Contains(line, "Drinks") {
      assert MealKey(line) == Some("drinks");
      DietRowKeyed(diet, line, "drinks");
      var parts := Split(line, '|');
      if |parts| >= 3 {
        diet' := diet["drinks" := Strip(parts[2])];
      }
    } else {
      assert MealKey(line) == None;
    }
  }

  /** `DietRow` once the row's meal is known. */
  lemma DietRowKeyed(diet: map<string, string>, line: string, key: string)
    requires MealKey(line) == Some(key)
    ensures var parts := Split(line, '|');
      DietRow(diet, line) == if |parts| >= 3 then diet[key := Strip(parts[2])] else diet
  {
  }

  // ---------------------------------------------------------------------------
  // independent characterisations of the parse

  /** The section in effect after `lines`: the one opened by the last header line, if any. */
  function SectionAfter(lines: seq<string>): Section {
    if lines == [] then NoSection
    else
      match HeaderOf(Strip(lines[|lines| - 1]))
      case Some(s) => s
      case None => SectionAfter(lines[..|lines| - 1])
  }

  /** The items of the bullet lines, in order, that are not header lines and whose last preceding header opened `sec`. */
  function BulletItems(lines: seq<string>, sec: Section): seq<string> {
    if lines == [] then []
    else
      var init := lines[..|lines| - 1];
      var line := Strip(lines[|lines| - 1]);
      BulletItems(init, sec)
      + (if HeaderOf(line).None? && StartsWithBullet(line) && SectionAfter(init) == sec then [BulletItem(line)] else [])
  }

  /** The parser's section is the last header seen, and the medicine and lifestyle lists are exactly
      the bullet items under their headers: table rows and diet processing never affect them. */
  lemma {:induction false} ParseCharacterised(lines: seq<string>)
    ensures Run(lines).section == SectionAfter(lines)
    ensures Run(lines).medicines == BulletItems(lines, Medicines)
    ensures Run(lines).lifestyle == BulletItems(lines, Lifestyle)
    decreases |lines|
  {
    if lines != [] {
      var init, last := lines[..|lines| - 1], lines[|lines| - 1];
      ParseCharacterised(init);
      StepSection(Run(init), last);
      StepLists(Run(init), last);
    }
  }

  /** The stripped line is a diet row for meal `key` that the parser stores: no header, read in
      the diet section, naming `key` first, with at least three cells. */
  predicate StoredRow(init: seq<string>, line: string, key: string) {
    HeaderOf(line).None? && '|' in line && SectionAfter(init) == Diet
    && MealKey(line) == Some(key) && |Split(line, '|')| >= 3
  }

  /** The advice of the last stored row for meal `key`, if any. */
  function LastMealAdvice(lines: seq<string>, key: string): Option<string> {
    if lines == [] then None
    else
      var init, line := lines[..|lines| - 1], Strip(lines[|lines| - 1]);
      if StoredRow(init, line, key) then Some(Strip(Split(line, '|')[2])) else LastMealAdvice(init, key)
  }

  /** The diet table holds, for each meal, the advice of the last diet-section row that names it
      first, and no other key. */
  lemma {:induction false} DietCharacterised(lines: seq<string>)
    ensures forall key :: LastMealAdvice(lines, key) == (if key in Run(lines).diet then Some(Run(lines).diet[key]) else None)
    decreases |lines|
  {
    if lines != [] {
      var init, raw := lines[..|lines| - 1], lines[|lines| - 1];
      var line := Strip(raw);
      DietCharacterised(init);
      ParseCharacterised(init);
      StepDietExact(Run(init), raw);
      forall key
        ensures LastMealAdvice(lines, key) == (if key in Run(lines).diet then Some(Run(lines).diet[key]) else None)
      {
        assert Run(lines) == Step(Run(init), raw);
      }
    }
  }

  /** One step's effect on the diet table, spelled out. */
  lemma StepDietExact(st: ParseState, raw: string)
    ensures var line := Strip(raw);
      Step(st, raw).diet == if HeaderOf(line).None? && '|' in line && st.section == Diet then DietRow(st.diet, line) else st.diet
  {
    var line := Strip(raw);
    if HeaderOf(line).None? && '|' in line && st.section == Diet {
      StepDietRowRead(st, line, raw);
    } else {
      StepDietKept(st, line, raw);
    }
  }

  lemma StepDietRowRead(st: ParseState, line: string, raw: string)
    requires line == Strip(raw) && HeaderOf(line).None? && '|' in line && st.section == Diet
    ensures Step(st, raw).diet == DietRow(st.diet, line)
  {
    if StartsWithBullet(line) {
      assert Step(st, raw) == st.(diet := DietRow(st.diet, line));
    } else {
      StepDietRowCase(st, raw);
    }
  }

  lemma StepDietKept(st: ParseState, line: string, raw: string)
    requires line == Strip(raw) && !(HeaderOf(line).None? && '|' in line && st.section == Diet)
    ensures Step(st, raw).diet == st.diet
  {
    if HeaderOf(line).Some? {
      assert Step(st, raw) == st.(section := HeaderOf(line).value);
    } else if StartsWithBullet(line) && st.section == Medicines {
      StepBulletCase(st, raw);
    } else if StartsWithBullet(line) && st.section == Lifestyle {
      StepBulletCase(st, raw);
    } else {
      assert Step(st, raw) == st;
    }
  }

  /** No line opens the section: nothing is collected for it. */
  predicate NoHeader(lines: seq<string>, sec: Section) {
    forall i :: 0 <= i < |lines| ==> HeaderOf(Strip(lines[i])) != Some(sec)
  }

  lemma {:induction false} SectionNeverEntered(lines: seq<string>, sec: Section)
    requires sec != NoSection && NoHeader(lines, sec)
    ensures SectionAfter(lines) != sec
    decreases |lines|
  {
    if lines != [] {
      var init := lines[..|lines| - 1];
      assert NoHeader(init, sec) by {
        forall i | 0 <= i < |init| ensures HeaderOf(Strip(init[i])) != Some(sec) {
          assert init[i] == lines[i];
        }
      }
      SectionNeverEntered(init, sec);
    }
  }

  /** One step changes the diet map only on a non-header line read in the diet section. */
  lemma StepDiet(st: ParseState, raw: string)
    ensures Step(st, raw).diet != st.diet ==> st.section == Diet && HeaderOf(Strip(raw)).None?
    ensures Step(st, raw).diet.Keys <= st.diet.Keys + MealKeys
  {
    var line := Strip(raw);
    match HeaderOf(line)
    case Some(sec) =>
    case None =>
      if StartsWithBullet(line) && st.section == Medicines {
      } else if StartsWithBullet(line) && st.section == Lifestyle {
      } else if '|' in line && st.section == Diet {
        var d := DietRow(st.diet, line);
      }
  }

  /** One step sets the section exactly when the line holds a header. */
  lemma StepSection(st: ParseState, raw: string)
    ensures var line := Strip(raw);
      Step(st, raw).section == (if HeaderOf(line).Some? then HeaderOf(line).value else st.section)
  {
  }

  /** One step appends a bullet item to the list of the current section, and only there. */
  lemma StepLists(st: ParseState, raw: string)
    ensures var line := Strip(raw);
      && Step(st, raw).medicines == st.medicines
           + (if HeaderOf(line).None? && StartsWithBullet(line) && st.section == Medicines then [BulletItem(line)] else [])
      && Step(st, raw).lifestyle == st.lifestyle
           + (if HeaderOf(line).None? && StartsWithBullet(line) && st.section == Lifestyle then [BulletItem(line)] else [])
  {
    var line := Strip(raw);
    var medicinesItem := HeaderOf(line).None? && StartsWithBullet(line) && st.section == Medicines;
    var lifestyleItem := HeaderOf(line).None? && StartsWithBullet(line) && st.section == Lifestyle;
    if !medicinesItem {
      assert st.medicines + [] == st.medicines;
    }
    if !lifestyleItem {
      assert st.lifestyle + [] == st.lifestyle;
    }
  }

  /** One step only appends to the lists and only adds diet keys. */
  lemma StepGrows(st: ParseState, raw: string)
    ensures st.medicines <= Step(st, raw).medicines
    ensures st.lifestyle <= Step(st, raw).lifestyle
    ensures st.diet.Keys <= Step(st, raw).diet.Keys
  {
    var line := Strip(raw);
    match HeaderOf(line)
    case Some(sec) =>
    case None =>
      if StartsWithBullet(line) && st.section == Medicines {
      } else if StartsWithBullet(line) && st.section == Lifestyle {
      } else if '|' in line && st.section == Diet {
        var d := DietRow(st.diet, line);
      }
  }

  lemma {:induction false} NoBulletItemsOutside(lines: seq<string>, sec: Section)
    requires sec != NoSection && NoHeader(lines, sec)
    ensures BulletItems(lines, sec) == []
    decreases |lines|
  {
    if lines != [] {
      var init := lines[..|lines| - 1];
      assert NoHeader(init, sec) by {
        forall i | 0 <= i < |init| ensures HeaderOf(Strip(init[i])) != Some(sec) {
          assert init[i] == lines[i];
        }
      }
      NoBulletItemsOutside(init, sec);
      SectionNeverEntered(init, sec);
    }
  }

  lemma {:induction false} NoDietOutside(lines: seq<string>)
    requires NoHeader(lines, Diet)
    ensures Run(lines).diet == map[]
    decreases |lines|
  {
    if lines != [] {
      var init := lines[..|lines| - 1];
      assert NoHeader(init, Diet) by {
        forall i | 0 <= i < |init| ensures HeaderOf(Strip(init[i])) != Some(Diet) {
          assert init[i] == lines[i];
        }
      }
      NoDietOutside(init);
      ParseCharacterised(init);
      SectionNeverEntered(init, Diet);
      StepDiet(Run(init), lines[|lines| - 1]);
    }
  }

  /** A reply without one of the three headers yields an empty collection for that section. */
  lemma AbsentSectionIsEmpty(lines: seq<string>)
    ensures NoHeader(lines, Medicines) ==> Run(lines).medicines == []
    ensures NoHeader(lines, Diet) ==> Run(lines).diet == map[]
    ensures NoHeader(lines, Lifestyle) ==> Run(lines).lifestyle == []
  {
    ParseCharacterised(lines);
    if NoHeader(lines, Medicines) {
      NoBulletItemsOutside(lines, Medicines);
    }
    if NoHeader(lines, Lifestyle) {
      NoBulletItemsOutside(lines, Lifestyle);
    }
    if NoHeader(lines, Diet) {
      NoDietOutside(lines);
    }
  }

  /** Every key of the diet map is one of the four meals. */
  lemma {:induction false} DietKeysAreMeals(lines: seq<string>)
    ensures Run(lines).diet.Keys <= MealKeys
    decreases |lines|
  {
    if lines != [] {
      DietKeysAreMeals(lines[..|lines| - 1]);
      StepDiet(Run(lines[..|lines| - 1]), lines[|lines| - 1]);
    }
  }

  /** Processing more lines never removes an item: earlier items stay a prefix, earlier diet keys stay keys. */
  lemma {:induction false} ItemsAccumulate(lines: seq<string>, k: nat)
    requires k <= |lines|
    ensures Run(lines[..k]).medicines <= Run(lines).medicines
    ensures Run(lines[..k]).lifestyle <= Run(lines).lifestyle
    ensures Run(lines[..k]).diet.Keys <= Run(lines).diet.Keys
    decreases |lines| - k
  {
    if k < |lines| {
      ItemsAccumulate(lines, k + 1);
      var prefix := lines[..k + 1];
      var before := Run(lines[..k]);
      assert prefix[..k] == lines[..k] && prefix[k] == lines[k];
      assert Run(prefix) == Step(before, lines[k]);
      StepGrows(before, lines[k]);
      PrefixTrans(before.medicines, Run(prefix).medicines, Run(lines).medicines);
      PrefixTrans(before.lifestyle, Run(prefix).lifestyle, Run(lines).lifestyle);
    } else {
      assert lines[..k] == lines;
    }
  }

  lemma PrefixTrans(a: seq<string>, b: seq<string>, c: seq<string>)
    requires a <= b && b <= c
    ensures a <= c
  {
    assert forall i :: 0 <= i < |a| ==> a[i] == b[i] == c[i];
  }

  // ---------------------------------------------------------------------------
  // running the loop block by block

  /** The loop continued from state `st` over `lines`, first line first. */
  function RunFrom(st: ParseState, lines: seq<string>): ParseState
    decreases |lines|
  {
    if lines == [] then st else RunFrom(Step(st, lines[0]), lines[1..])
  }

  lemma {:induction false} RunFromSnoc(st: ParseState, lines: seq<string>, x: string)
    ensures RunFrom(st, lines + [x]) == Step(RunFrom(st, lines), x)
    decreases |lines|
  {
    if lines != [] {
      assert (lines + [x])[1..] == lines[1..] + [x];
      RunFromSnoc(Step(st, lines[0]), lines[1..], x);
    }
  }

  /** The loop from the start is the fold from the initial state. */
  lemma {:induction false} RunIsRunFrom(lines: seq<string>)
    ensures Run(lines) == RunFrom(Initial, lines)
    decreases |lines|
  {
    if lines != [] {
      var init, last := lines[..|lines| - 1], lines[|lines| - 1];
      assert lines == init + [last];
      RunIsRunFrom(init);
      RunFromSnoc(Initial, init, last);
      calc {
        Run(lines);
        Step(Run(init), last);
        Step(RunFrom(Initial, init), last);
        RunFrom(Initial, init + [last]);
      }
    }
  }

  /** Processing two blocks of lines is processing the first, then the second. */
  lemma {:induction false} RunFromAppend(st: ParseState, a: seq<string>, b: seq<string>)
    ensures RunFrom(st, a + b) == RunFrom(RunFrom(st, a), b)
    decreases |a|
  {
    if a != [] {
      assert (a + b)[0] == a[0] && (a + b)[1..] == a[1..] + b;
      RunFromAppend(Step(st, a[0]), a[1..], b);
    } else {
      assert a + b == b;
    }
  }

  // ---------------------------------------------------------------------------
  // single lines

  /** A line the parser ignores changes nothing: it holds no header, it is not a bullet line read in
      the medicines or lifestyle section, and it is not a meal row read in the diet section. */
  lemma IgnoredLine(st: ParseState, raw: string)
    requires HeaderOf(Strip(raw)).None?
    requires StartsWithBullet(Strip(raw)) ==> st.section != Medicines && st.section != Lifestyle
    requires '|' in Strip(raw) && st.section == Diet ==> MealKey(Strip(raw)).None? || |Split(Strip(raw), '|')| < 3
    ensures Step(st, raw) == st
  {
  }

  /** A line with no full stop, no bullet and no meal row is one the parser ignores. */
  lemma QuietLine(st: ParseState, raw: string)
    requires '.' !in raw && Bullet !in raw
    requires '|' !in raw || ('B' !in raw && 'L' !in raw && 'D' !in raw)
    ensures Step(st, raw) == st
  {
    var line := Strip(raw);
    NoHeaderWithoutDot(line);
    assert !StartsWithBullet(line) by {
      if |line| > 0 {
        assert line[0] in line;
      }
    }
    if '|' in line {
      NoMealWithoutCapitals(line);
    }
    IgnoredLine(st, raw);
  }

  /** Every meal name starts with B, L or D, so a line without these letters names no meal. */
  lemma NoMealWithoutCapitals(line: string)
    requires 'B' !in line && 'L' !in line && 'D' !in line
    ensures MealKey(line) == None
  {
    NotContainsByChar(line, "Breakfast", 'B');
    NotContainsByChar(line, "Lunch", 'L');
    NotContainsByChar(line, "Dinner", 'D');
    NotContainsByChar(line, "Drinks", 'D');
  }

  lemma MedicinesHeaderStripped()
    ensures Strip(MedicinesHeader) == MedicinesHeader
  {
    assert MedicinesHeader == "1" + ". Ayurvedic Medicines" + ":";
    StripKeeps("1" + ". Ayurvedic Medicines" + ":");
  }

  lemma DietHeaderStripped()
    ensures Strip(DietHeader) == DietHeader
  {
    assert DietHeader == "2" + ". Diet Recommendation" + ":";
    StripKeeps("2" + ". Diet Recommendation" + ":");
  }

  lemma LifestyleHeaderStripped()
    ensures Strip(LifestyleHeader) == LifestyleHeader
  {
    assert LifestyleHeader == "3" + ". Lifestyle " + "Recommendations" + ":";
    StripKeeps("3" + ". Lifestyle " + "Recommendations" + ":");
  }

  /** Each header line is recognised as its own header, the tests being made in order. */
  lemma MedicinesHeaderRecognised()
    ensures HeaderOf(MedicinesHeader) == Some(Medicines)
  {
    ContainsSelf(MedicinesHeader);
  }

  lemma DietHeaderRecognised()
    ensures HeaderOf(DietHeader) == Some(Diet)
  {
    DietHeaderLacksMedicines();
    ContainsSelf(DietHeader);
  }

  lemma DietHeaderLacksMedicines()
    ensures !Contains(DietHeader, MedicinesHeader)
  {
    var a, b := "2. Diet ", "Recommendation:";
    assert DietHeader == a + b;
    assert 'A' !in a && 'A' !in b;
    assert MedicinesHeader[3] == 'A';
    NotContainsByChar(a + b, MedicinesHeader, 'A');
  }

  lemma LifestyleHeaderRecognised()
    ensures HeaderOf(LifestyleHeader) == Some(Lifestyle)
  {
    LifestyleHeaderLacksMedicines();
    LifestyleHeaderLacksDiet();
    ContainsSelf(LifestyleHeader);
  }

  lemma LifestyleHeaderLacksMedicines()
    ensures !Contains(LifestyleHeader, MedicinesHeader)
  {
    var a, b, c := "3. Life", "style Recom", "mendations:";
    assert LifestyleHeader == a + b + c;
    assert 'A' !in a && 'A' !in b && 'A' !in c;
    assert MedicinesHeader[3] == 'A';
    NotContainsByChar(a + b + c, MedicinesHeader, 'A');
  }

  lemma LifestyleHeaderLacksDiet()
    ensures !Contains(LifestyleHeader, DietHeader)
  {
    var a, b, c := "3. Life", "style Recom", "mendations:";
    assert LifestyleHeader == a + b + c;
    assert 'D' !in a && 'D' !in b && 'D' !in c;
    assert DietHeader[3] == 'D';
    NotContainsByChar(a + b + c, DietHeader, 'D');
  }

  /** Each header line opens its section and changes nothing else. */
  lemma HeaderLines(st: ParseState)
    ensures Step(st, MedicinesHeader) == st.(section := Medicines)
    ensures Step(st, DietHeader) == st.(section := Diet)
    ensures Step(st, LifestyleHeader) == st.(section := Lifestyle)
  {
    MedicinesHeaderLine(st);
    DietHeaderLine(st);
    LifestyleHeaderLine(st);
  }

  lemma MedicinesHeaderLine(st: ParseState)
    ensures Step(st, MedicinesHeader) == st.(section := Medicines)
  {
    MedicinesHeaderStripped();
    MedicinesHeaderRecognised();
  }

  lemma DietHeaderLine(st: ParseState)
    ensures Step(st, DietHeader) == st.(section := Diet)
  {
    DietHeaderStripped();
    DietHeaderRecognised();
  }

  lemma LifestyleHeaderLine(st: ParseState)
    ensures Step(st, LifestyleHeader) == st.(section := Lifestyle)
  {
    LifestyleHeaderStripped();
    LifestyleHeaderRecognised();
  }

  /** Every header has a full stop, so a line without one is no header line. */
  lemma NoHeaderWithoutDot(line: string)
    requires '.' !in line
    ensures HeaderOf(line) == None
  {
    assert MedicinesHeader[1] == '.' && DietHeader[1] == '.' && LifestyleHeader[1] == '.';
    NotContainsByChar(line, MedicinesHeader, '.');
    NotContainsByChar(line, DietHeader, '.');
    NotContainsByChar(line, LifestyleHeader, '.');
  }

  /** A bullet line read in the medicine or lifestyle section appends its item there. */
  lemma StepBulletCase(st: ParseState, raw: string)
    requires HeaderOf(Strip(raw)).None? && StartsWithBullet(Strip(raw))
    ensures st.section == Medicines ==> Step(st, raw) == st.(medicines := st.medicines + [BulletItem(Strip(raw))])
    ensures st.section == Lifestyle ==> Step(st, raw) == st.(lifestyle := st.lifestyle + [BulletItem(Strip(raw))])
  {
  }

  /** A table row read in the diet section goes to `DietRow`. */
  lemma StepDietRowCase(st: ParseState, raw: string)
    requires HeaderOf(Strip(raw)).None? && !StartsWithBullet(Strip(raw)) && '|' in Strip(raw) && st.section == Diet
    ensures Step(st, raw) == st.(diet := DietRow(st.diet, Strip(raw)))
  {
  }

  /** The item of a bullet line `• item` is `item` when that has no whitespace margins. */
  lemma BulletCore(item: string)
    requires item != [] && !IsSpace(item[0]) && !IsSpace(item[|item| - 1])
    ensures StartsWithBullet([Bullet] + " " + item) && BulletItem([Bullet] + " " + item) == item
  {
    var core := [Bullet] + " " + item;
    assert core[1..] == " " + item + "";
    StripAround(" ", item, "");
  }

  /** A bullet line `• item` whose item has no full stop holds no header. */
  lemma BulletWithoutDot(item: string)
    requires '.' !in item
    ensures HeaderOf([Bullet] + " " + item) == None
  {
    assert '.' !in [Bullet] + " ";
    NoHeaderWithoutDot([Bullet] + " " + item);
  }

  /** An indented bullet line that holds no header adds its item, stripped, to the list of the
      current section. */
  lemma BulletLine(st: ParseState, pad: string, item: string)
    requires st.section == Medicines || st.section == Lifestyle
    requires AllSpace(pad) && item != [] && !IsSpace(item[0]) && !IsSpace(item[|item| - 1])
    requires HeaderOf([Bullet] + " " + item).None?
    ensures st.section == Medicines ==> Step(st, pad + ([Bullet] + " " + item)) == st.(medicines := st.medicines + [item])
    ensures st.section == Lifestyle ==> Step(st, pad + ([Bullet] + " " + item)) == st.(lifestyle := st.lifestyle + [item])
  {
    var core := [Bullet] + " " + item;
    var raw := pad + core;
    assert raw == pad + core + "";
    assert core[0] == Bullet && !IsSpace(Bullet) && core[|core| - 1] == item[|item| - 1];
    StripAround(pad, core, "");
    BulletCore(item);
    StepBulletCase(st, raw);
  }

  /** A table row `|a|b|` whose cells have no full stop holds no header. */
  lemma RowHasNoHeader(a: string, b: string)
    requires '.' !in a && '.' !in b
    ensures HeaderOf("|" + a + "|" + b + "|") == None
  {
    assert '.' !in "|" + a;
    assert '.' !in "|" + a + "|";
    assert '.' !in "|" + a + "|" + b;
    NoHeaderWithoutDot("|" + a + "|" + b + "|");
  }

  /** A table row `|a|b|` splits into four cells, the third being `b`. */
  lemma RowCells(a: string, b: string)
    requires '|' !in a && '|' !in b
    ensures Split("|" + a + "|" + b + "|", '|') == ["", a, b, ""]
  {
    var parts := ["", a, b, ""];
    assert parts[1..] == [a, b, ""] && parts[1..][1..] == [b, ""] && parts[1..][1..][1..] == [""];
    assert Join([b, ""], "|") == b + "|";
    assert Join([a, b, ""], "|") == a + "|" + b + "|";
    assert Join(parts, "|") == "|" + a + "|" + b + "|";
    SplitJoin(["", a, b, ""], '|');
  }

  /** An indented table row `|a|b|` that names a meal and holds no header, read in the diet
      section, stores its third cell, stripped. */
  lemma DietRowLine(st: ParseState, pad: string, a: string, b: string, key: string)
    requires st.section == Diet && AllSpace(pad)
    requires '|' !in a && '|' !in b && HeaderOf("|" + a + "|" + b + "|").None?
    requires MealKey("|" + a + "|" + b + "|") == Some(key)
    ensures Step(st, pad + ("|" + a + "|" + b + "|")) == st.(diet := st.diet[key := Strip(b)])
  {
    var line := "|" + a + "|" + b + "|";
    RowIsTable(a, b);
    PaddedLineStripped(pad, line);
    StepDietRowCase(st, pad + line);
    RowCells(a, b);
    DietRowStores(st.diet, line, key);
  }

  /** A table row `|a|b|` opens and closes with a bar. */
  lemma RowIsTable(a: string, b: string)
    ensures var line := "|" + a + "|" + b + "|";
      line != [] && line[0] == '|' && line[|line| - 1] == '|' && '|' in line
  {
  }

  /** Leading whitespace before a line with a non-space at each end is stripped off. */
  lemma PaddedLineStripped(pad: string, line: string)
    requires AllSpace(pad) && line != [] && !IsSpace(line[0]) && !IsSpace(line[|line| - 1])
    ensures Strip(pad + line) == line
  {
    assert pad + line == pad + line + "";
    StripAround(pad, line, "");
  }

  /** A meal row with at least three cells stores its third cell, stripped, under the meal's key. */
  lemma DietRowStores(diet: map<string, string>, line: string, key: string)
    requires MealKey(line) == Some(key) && |Split(line, '|')| >= 3
    ensures DietRow(diet, line) == diet[key := Strip(Split(line, '|')[2])]
  {
  }

  // ---------------------------------------------------------------------------
  // worked replies

  /** A two-line reply is the step on the first line followed by the step on the second. */
  lemma TwoLines(x: string, y: string)
    ensures Run([x, y]) == Step(Step(Initial, x), y)
  {
    var both, first := [x, y], [x];
    assert both[..1] == first && both[1] == y;
    assert first[..0] == [] && first[0] == x;
    calc {
      Run(both);
      Step(Run(first), y);
      { assert Run(first) == Step(Run([]), x); }
      Step(Step(Initial, x), y);
    }
  }

  /** A meal row with no header right after the diet header is the only diet entry. */
  lemma MealRowAfterHeader(a: string, b: string, key: string)
    requires '|' !in a && '|' !in b && HeaderOf("|" + a + "|" + b + "|").None?
    requires MealKey("|" + a + "|" + b + "|") == Some(key)
    ensures Run([DietHeader, "|" + a + "|" + b + "|"]).diet == map[key := Strip(b)]
  {
    var row := "|" + a + "|" + b + "|";
    var st := Initial.(section := Diet);
    assert "" + row == row;
    DietRowLine(st, "", a, b, key);
    assert Step(st, row).diet == map[][key := Strip(b)];
    HeaderLines(Initial);
    TwoLines(DietHeader, row);
  }

  /** A meal row whose cells have no full stop, read after the diet header. */
  lemma DotlessMealRow(a: string, b: string, key: string)
    requires '|' !in a && '|' !in b && '.' !in a && '.' !in b
    requires MealKey("|" + a + "|" + b + "|") == Some(key)
    ensures Run([DietHeader, "|" + a + "|" + b + "|"]).diet == map[key := Strip(b)]
  {
    RowHasNoHeader(a, b);
    MealRowAfterHeader(a, b, key);
  }

  /** A `| Breakfast | Warm oats |` row under the diet header yields breakfast -> "Warm oats". */
  lemma BreakfastRowParsed()
    ensures Run([DietHeader, "| Breakfast | Warm oats |"]).diet == map["breakfast" := "Warm oats"]
  {
    BreakfastRowCells();
    BreakfastRowText();
    BreakfastAdviceCell();
    BreakfastRowKey();
    StripAround(" ", "Warm oats", " ");
    DotlessMealRow(" Breakfast ", " Warm oats ", "breakfast");
  }

  lemma BreakfastRowCells()
    ensures '|' !in " Breakfast " && '.' !in " Breakfast " && '|' !in " Warm oats " && '.' !in " Warm oats "
  {
  }

  lemma BreakfastRowText()
    ensures "|" + " Breakfast " + "|" + " Warm oats " + "|" == "| Breakfast | Warm oats |"
  {
  }

  lemma BreakfastAdviceCell()
    ensures " Warm oats " == " " + "Warm oats" + " "
  {
  }

  lemma BreakfastRowKey()
    ensures MealKey("| Breakfast | Warm oats |") == Some("breakfast")
  {
    assert "| Breakfast | Warm oats |" == "| " + "Breakfast" + " | Warm oats |";
    ContainsInfix("| ", "Breakfast", " | Warm oats |");
  }

  /** The meal names are tested in a fixed order, so a Lunch row whose recommendation mentions
      Breakfast is stored under breakfast. */
  lemma FirstMealNameWins()
    ensures Run([DietHeader, "| Lunch | Breakfast tea |"]).diet == map["breakfast" := "Breakfast tea"]
  {
    LunchRowCells();
    LunchRowText();
    LunchAdviceCell();
    LunchRowKey();
    StripAround(" ", "Breakfast tea", " ");
    DotlessMealRow(" Lunch ", " Breakfast tea ", "breakfast");
  }

  lemma LunchRowCells()
    ensures '|' !in " Lunch " && '.' !in " Lunch " && '|' !in " Breakfast tea " && '.' !in " Breakfast tea "
  {
  }

  lemma LunchRowText()
    ensures "|" + " Lunch " + "|" + " Breakfast tea " + "|" == "| Lunch | Breakfast tea |"
  {
  }

  lemma LunchAdviceCell()
    ensures " Breakfast tea " == " " + "Breakfast tea" + " "
  {
  }

  lemma LunchRowKey()
    ensures MealKey("| Lunch | Breakfast tea |") == Some("breakfast")
  {
    assert "| Lunch | Breakfast tea |" == "| Lunch | " + "Breakfast" + " tea |";
    ContainsInfix("| Lunch | ", "Breakfast", " tea |");
  }
}
