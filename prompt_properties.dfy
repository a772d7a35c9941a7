/** What the prompt shows the text generator and what the printed prescription shows its reader. */
module PromptProperties {
  import opened Strings
  import opened Ranking
  import opened Retrieval
  import opened Dates
  import opened ReplyParser
  import opened Prescription

  // ---------------------------------------------------------------------------
  // the prompt

  /** Every case of a list has its numbered block among the list's blocks. */
  lemma {:induction false} CaseBlocksListed(cases: seq<RetrievedCase>, k: nat)
    requires 1 <= k <= |cases|
    ensures Contains(CaseBlocks(cases), CaseBlock(k, cases[k - 1].metadata))
    decreases |cases|
  {
    var init := cases[..|cases| - 1];
    var last := CaseBlock(|cases|, cases[|cases| - 1].metadata);
    var block := CaseBlock(k, cases[k - 1].metadata);
    if k == |cases| {
      ContainsSelf(last);
      ContainsAppend(CaseBlocks(init), last, block);
    } else {
      CaseBlocksListed(init, k);
      assert init[k - 1] == cases[k - 1];
      ContainsPrepend(CaseBlocks(init), last, block);
    }
  }

  /** The context section shows the first three retrieved cases, each under its number. */
  lemma ContextListsCase(cases: seq<RetrievedCase>, k: nat)
    requires 1 <= k <= Min(3, |cases|)
    ensures Contains(ContextSection(cases), CaseBlock(k, cases[k - 1].metadata))
  {
    var shown := cases[..Min(3, |cases|)];
    CaseBlocksListed(shown, k);
    assert shown[k - 1] == cases[k - 1];
    ContainsAppend(ContextHeading, CaseBlocks(shown), CaseBlock(k, cases[k - 1].metadata));
  }

  /** A text of five pieces holds its second, fourth and sixth pieces. */
  lemma HoldsPieces(a: string, b: string, c: string, d: string, e: string, f: string)
    ensures Contains(a + b + c + d + e + f, b)
    ensures Contains(a + b + c + d + e + f, d)
    ensures Contains(a + b + c + d + e + f, f)
  {
    ContainsInfix(a, b, c);
    ContainsPrepend(a + b + c, d, b);
    ContainsPrepend(a + b + c + d, e, b);
    ContainsPrepend(a + b + c + d + e, f, b);
    ContainsInfix(a + b + c, d, e);
    ContainsPrepend(a + b + c + d + e, f, d);
    ContainsSelf(f);
    ContainsAppend(a + b + c + d + e, f, f);
  }

  /** The prompt holds the patient's section, the context section and the format guide. */
  lemma PromptHoldsSections(p: PatientInfo, cases: seq<RetrievedCase>)
    ensures Contains(PromptText(p, cases), PatientSection(p))
    ensures Contains(PromptText(p, cases), ContextSection(cases))
    ensures Contains(PromptText(p, cases), FormatGuide)
  {
    HoldsPieces(PromptIntro, PatientSection(p), "\n\n", ContextSection(cases), "\n\n", FormatGuide);
  }

  /** The prompt shows each of the first three retrieved cases. */
  lemma PromptListsCase(p: PatientInfo, cases: seq<RetrievedCase>, k: nat)
    requires 1 <= k <= Min(3, |cases|)
    ensures Contains(PromptText(p, cases), CaseBlock(k, cases[k - 1].metadata))
  {
    ContextListsCase(cases, k);
    PromptHoldsSections(p, cases);
    ContainsWithin(PromptText(p, cases), ContextSection(cases), CaseBlock(k, cases[k - 1].metadata));
  }

  /** Cases after the third do not reach the prompt: two lists that agree on their first three
      cases give the same prompt. */
  lemma PromptIgnoresLaterCases(p: PatientInfo, a: seq<RetrievedCase>, b: seq<RetrievedCase>)
    requires a[..Min(3, |a|)] == b[..Min(3, |b|)]
    ensures PromptText(p, a) == PromptText(p, b)
  {
  }

  /** The patient's section names the patient and shows the age in years, the gender, the
      constitution, the symptoms and the diagnosis. */
  lemma PatientSectionShows(p: PatientInfo)
    ensures Contains(PatientSection(p), p.name)
    ensures Contains(PatientSection(p), IntToString(p.age) + " years")
    ensures Contains(PatientSection(p), p.gender)
    ensures Contains(PatientSection(p), p.constitutionDosha)
    ensures Contains(PatientSection(p), Join(p.symptoms, ", "))
    ensures Contains(PatientSection(p), p.doctorDiagnosis)
  {
    var symptoms := Join(p.symptoms, ", ");
    var s0 := "\nPATIENT: " + p.name + ", ";
    var s0a := s0 + IntToString(p.age) + " years, ";
    var s1 := s0a + p.gender + "\nCONSTITUTION: ";
    var s2 := s1 + p.constitutionDosha + "\nSYMPTOMS: ";
    var s3 := s2 + symptoms + "\nDIAGNOSIS: ";
    ContainsInfix("\nPATIENT: ", p.name, ", ");
    ContainsInfix(s1, p.constitutionDosha, "\nSYMPTOMS: ");
    ContainsInfix(s2, symptoms, "\nDIAGNOSIS: ");
    ContainsInfix(s3, p.doctorDiagnosis, "\n");
    Extended(s0, IntToString(p.age), " years, ", p.name);
    Extended(s0a, p.gender, "\nCONSTITUTION: ", p.name);
    Extended(s1, p.constitutionDosha, "\nSYMPTOMS: ", p.name);
    Extended(s2, symptoms, "\nDIAGNOSIS: ", p.name);
    Extended(s2, symptoms, "\nDIAGNOSIS: ", p.constitutionDosha);
    Extended(s3, p.doctorDiagnosis, "\n", p.name);
    Extended(s3, p.doctorDiagnosis, "\n", p.constitutionDosha);
    Extended(s3, p.doctorDiagnosis, "\n", symptoms);
    PatientSectionShowsAgeGender(p);
  }

  /** The age in years and the gender, the two fields of the first line not shown above. */
  lemma PatientSectionShowsAgeGender(p: PatientInfo)
    ensures Contains(PatientSection(p), IntToString(p.age) + " years")
    ensures Contains(PatientSection(p), p.gender)
  {
    var years := IntToString(p.age) + " years";
    var s0 := "\nPATIENT: " + p.name + ", ";
    var s0a := s0 + IntToString(p.age) + " years, ";
    var s1 := s0a + p.gender + "\nCONSTITUTION: ";
    var s2 := s1 + p.constitutionDosha + "\nSYMPTOMS: ";
    var s3 := s2 + Join(p.symptoms, ", ") + "\nDIAGNOSIS: ";
    assert s0a == s0 + years + ", ";
    ContainsInfix(s0, years, ", ");
    ContainsInfix(s0a, p.gender, "\nCONSTITUTION: ");
    Extended(s0a, p.gender, "\nCONSTITUTION: ", years);
    Extended(s1, p.constitutionDosha, "\nSYMPTOMS: ", years);
    Extended(s1, p.constitutionDosha, "\nSYMPTOMS: ", p.gender);
    Extended(s2, Join(p.symptoms, ", "), "\nDIAGNOSIS: ", years);
    Extended(s2, Join(p.symptoms, ", "), "\nDIAGNOSIS: ", p.gender);
    Extended(s3, p.doctorDiagnosis, "\n", years);
    Extended(s3, p.doctorDiagnosis, "\n", p.gender);
  }

  /** Two more pieces at the end keep what a text holds. */
  lemma Extended(a: string, b: string, c: string, needle: string)
    requires Contains(a, needle)
    ensures Contains(a + b + c, needle)
  {
    ContainsPrepend(a, b, needle);
    ContainsPrepend(a + b, c, needle);
  }

  /** The prompt names the patient and shows the diagnosis. */
  lemma PromptNamesPatient(p: PatientInfo, cases: seq<RetrievedCase>)
    ensures Contains(PromptText(p, cases), p.name)
    ensures Contains(PromptText(p, cases), p.doctorDiagnosis)
  {
    PatientSectionShows(p);
    PromptHoldsSections(p, cases);
    ContainsWithin(PromptText(p, cases), PatientSection(p), p.name);
    ContainsWithin(PromptText(p, cases), PatientSection(p), p.doctorDiagnosis);
  }

  /** The layout the prompt asks for uses the three section headers the reply parser recognises. */
  lemma PromptShowsParserMarkers(p: PatientInfo, cases: seq<RetrievedCase>)
    ensures Contains(PromptText(p, cases), MedicinesHeader)
    ensures Contains(PromptText(p, cases), DietHeader)
    ensures Contains(PromptText(p, cases), LifestyleHeader)
  {
    GuideMarkers();
    JoinContainsPart(GuideLines, "\n", 4);
    JoinContainsPart(GuideLines, "\n", 9);
    JoinContainsPart(GuideLines, "\n", 19);
    PromptHoldsSections(p, cases);
    ContainsWithin(PromptText(p, cases), FormatGuide, MedicinesHeader);
    ContainsWithin(PromptText(p, cases), FormatGuide, DietHeader);
    ContainsWithin(PromptText(p, cases), FormatGuide, LifestyleHeader);
  }

  lemma GuideMarkers()
    ensures |GuideLines| > 19
    ensures GuideLines[4] == MedicinesHeader && GuideLines[9] == DietHeader && GuideLines[19] == LifestyleHeader
  {
  }

  // ---------------------------------------------------------------------------
  // the printed prescription

  /** The reply can be cut back out of the printed prescription: the header and the footer
      depend only on the patient and the date. */
  lemma DisplayRoundTrip(reply: string, p: PatientInfo, date: DateTime)
    ensures |DisplayHeader(p, date)| + |DisplayFooter| <= |FormatDisplay(reply, p, date)|
    ensures ResponseOfDisplay(FormatDisplay(reply, p, date), p, date) == reply
  {
    var h := DisplayHeader(p, date);
    var d := FormatDisplay(reply, p, date);
    assert d == h + reply + DisplayFooter;
    assert d[|h|..|d| - |DisplayFooter|] == reply;
  }

  /** The patient's line names the patient and shows the age and the gender, each after its label. */
  lemma PatientLineNames(p: PatientInfo)
    ensures Contains(PatientLine(p), p.name)
    ensures Contains(PatientLine(p), "Age: " + IntToString(p.age))
    ensures Contains(PatientLine(p), "Gender: " + p.gender)
  {
    PatientLineParts(p.name, IntToString(p.age), p.gender);
  }

  /** The three labelled fields of a line shaped like the patient's line. */
  lemma PatientLineParts(name: string, age: string, gender: string)
    ensures var line := "Patient: " + name + " | Age: " + age + " | Gender: " + gender;
      Contains(line, name) && Contains(line, "Age: " + age) && Contains(line, "Gender: " + gender)
  {
    var a, g := "Age: " + age, "Gender: " + gender;
    var line := "Patient: " + name + " | Age: " + age + " | Gender: " + gender;
    assert line == "Patient: " + name + (" | " + a + " | " + g);
    ContainsInfix("Patient: ", name, " | " + a + " | " + g);
    assert line == "Patient: " + name + " | " + a + (" | " + g);
    ContainsInfix("Patient: " + name + " | ", a, " | " + g);
    assert line == "Patient: " + name + " | " + a + " | " + g;
    ContainsSelf(g);
    ContainsAppend("Patient: " + name + " | " + a + " | ", g, g);
  }

  /** Every line of the header appears in the printed prescription. */
  lemma DisplayShowsHeaderLine(reply: string, p: PatientInfo, date: DateTime, k: nat)
    requires k < |DisplayHeaderLines(p, date)|
    ensures Contains(FormatDisplay(reply, p, date), DisplayHeaderLines(p, date)[k])
  {
    var h := DisplayHeader(p, date);
    JoinContainsPart(DisplayHeaderLines(p, date), "\n", k);
    ContainsPrepend(h, reply, DisplayHeaderLines(p, date)[k]);
    ContainsPrepend(h + reply, DisplayFooter, DisplayHeaderLines(p, date)[k]);
  }

  /** The printed prescription shows the patient's line (name, age and gender), the constitution,
      the diagnosis, the symptoms joined by commas, the date in long form, and the reply. */
  lemma DisplayShows(reply: string, p: PatientInfo, date: DateTime)
    ensures Contains(FormatDisplay(reply, p, date), PatientLine(p))
    ensures Contains(FormatDisplay(reply, p, date), p.name)
    ensures Contains(FormatDisplay(reply, p, date), "Age: " + IntToString(p.age))
    ensures Contains(FormatDisplay(reply, p, date), "Gender: " + p.gender)
    ensures Contains(FormatDisplay(reply, p, date), "Constitution: " + p.constitutionDosha)
    ensures Contains(FormatDisplay(reply, p, date), "Diagnosis: " + p.doctorDiagnosis)
    ensures Contains(FormatDisplay(reply, p, date), "Symptoms: " + Join(p.symptoms, ", "))
    ensures Contains(FormatDisplay(reply, p, date), "Date: " + LongDate(date))
    ensures Contains(FormatDisplay(reply, p, date), reply)
  {
    var d := FormatDisplay(reply, p, date);
    DisplayShowsHeaderLine(reply, p, date, 4);
    DisplayShowsHeaderLine(reply, p, date, 5);
    DisplayShowsHeaderLine(reply, p, date, 6);
    DisplayShowsHeaderLine(reply, p, date, 7);
    DisplayShowsHeaderLine(reply, p, date, 8);
    PatientLineNames(p);
    ContainsWithin(d, PatientLine(p), p.name);
    ContainsWithin(d, PatientLine(p), "Age: " + IntToString(p.age));
    ContainsWithin(d, PatientLine(p), "Gender: " + p.gender);
  }
}
