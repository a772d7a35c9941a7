/** `EnhancedPrescriptionGenerator`: builds the prompt for the text generator from the patient and the
    retrieved cases, frames the generator's reply for display, parses it into a JSON-like document,
    and falls back to a fixed prescription when the generator gives nothing. The generator and the
    clock are inputs. */
module Prescription {
  import opened Wrappers
  import opened Strings
  import opened Ranking
  import opened Retrieval
  import opened ReplyParser
  import opened Dates

  /** `PatientInfo`. */
  datatype PatientInfo = PatientInfo(
    name: string,
    age: int,
    gender: string,
    constitutionDosha: string,
    symptoms: seq<string>,
    doctorDiagnosis: string)

  // ---------------------------------------------------------------------------
  // the prompt

  const PromptIntro: string :=
    "\nYou are an expert Ayurvedic doctor. Based on the patient information and similar cases, \n"
    + "create a prescription in EXACTLY this format:\n\n"

  function PatientSection(p: PatientInfo): string {
    "\nPATIENT: " + p.name + ", " + IntToString(p.age) + " years, " + p.gender
    + "\nCONSTITUTION: " + p.constitutionDosha
    + "\nSYMPTOMS: " + Join(p.symptoms, ", ")
    + "\nDIAGNOSIS: " + p.doctorDiagnosis + "\n"
  }

  /** `metadata.get(key, 'N/A')` as an f-string shows it: a null value shows as `nan`. */
  function MetaText(m: map<string, Value>, key: string): string {
    if key !in m then "N/A"
    else match m[key]
      case Text(t) => t
      case NaN => "nan"
  }

  /** The block describing the `k`-th retrieved case. */
  function CaseBlock(k: nat, m: map<string, Value>): string {
    "\nCase " + NatToString(k) + ": " + MetaText(m, "disease")
    + "\n- Constitution: " + MetaText(m, "constitution")
    + "\n- Herbs used: " + MetaText(m, "ayurvedic_herbs")
    + "\n- Formulation: " + MetaText(m, "formulation")
    + "\n- Diet advice: " + MetaText(m, "diet_recommendations") + "\n"
  }

  const ContextHeading: string := "SIMILAR SUCCESSFUL CASES:\n"

  /** The blocks of `cases`, numbered from 1 in order. */
  function CaseBlocks(cases: seq<RetrievedCase>): string {
    if cases == [] then ""
    else CaseBlocks(cases[..|cases| - 1]) + CaseBlock(|cases|, cases[|cases| - 1].metadata)
  }

  /** Only the first three retrieved cases are shown to the generator. */
  function ContextSection(cases: seq<RetrievedCase>): string {
    ContextHeading + CaseBlocks(cases[..Min(3, |cases|)])
  }

  /** The requested layout; its headers and bullet are the ones the reply parser looks for. */
  const GuideLines: seq<string> := [
    "Generate a prescription following this EXACT structure and format:",
    "",
    "Prescription for [Name] ([Age], [Gender], [Constitution] constitution):",
    "",
    MedicinesHeader,
    "   • [Medicine 1]: [dosage and timing]",
    "   • [Medicine 2]: [dosage and timing]  ",
    "   • [Medicine 3]: [dosage and timing]",
    "",
    DietHeader,
    "   +-----------+----------------------------------------+",
    "   | Meal      | Recommendation                         |",
    "   +-----------+----------------------------------------+",
    "   | Breakfast | [specific breakfast recommendations]    |",
    "   | Lunch     | [specific lunch recommendations]       |",
    "   | Dinner    | [specific dinner recommendations]      |",
    "   | Drinks    | [recommended beverages]                |",
    "   +-----------+----------------------------------------+",
    "",
    LifestyleHeader,
    "   • [Specific practice 1 with duration]",
    "   • [Specific practice 2 with duration]",
    "   • [Specific practice 3 with timing]",
    "   • [Specific dietary restriction]",
    "   • [Specific stress management with duration]",
    "",
    "Requirements:",
    "- Use authentic Ayurvedic medicines appropriate for the constitution and symptoms",
    "- Keep recommendations practical and specific",
    "- Include precise dosages and timings",
    "- Focus on the patient's Pitta/Vata/Kapha constitution",
    "- Make it suitable for modern lifestyle",
    "- Keep the exact formatting with bullet points (•) and table structure",
    ""]

  const FormatGuide: string := Join(GuideLines, "\n")

  /** The prompt's f-string around its two sections. */
  function AssemblePrompt(patientSection: string, contextSection: string): string {
    PromptIntro + patientSection + "\n\n" + contextSection + "\n\n" + FormatGuide
  }

  /** `_create_precise_prompt`. */
  function PromptText(p: PatientInfo, cases: seq<RetrievedCase>): string {
    AssemblePrompt(PatientSection(p), ContextSection(cases))
  }

  /** `_create_precise_prompt`, growing the context section one case at a time. */
  method CreatePrompt(patientInfo: PatientInfo, similarCases: seq<RetrievedCase>) returns (prompt: string)
    ensures prompt == PromptText(patientInfo, similarCases)
  {
    var patientSection := PatientSection(patientInfo);
    var shown := similarCases[..Min(3, |similarCases|)];
    var contextSection := ContextHeading;
    for i := 0 to |shown|
      invariant contextSection == ContextHeading + CaseBlocks(shown[..i])
    {
      var block := CaseBlock(i + 1, shown[i].metadata);
      CaseBlocksSnoc(shown, i);
      AppendAssoc(ContextHeading, CaseBlocks(shown[..i]), block);
      contextSection := contextSection + block;
    }
    assert shown[..|shown|] == shown;
    assert ContextSection(similarCases) == ContextHeading + CaseBlocks(shown);
    prompt := AssemblePrompt(patientSection, contextSection);
  }

  /** One more case adds its block at the end. */
  lemma CaseBlocksSnoc(cases: seq<RetrievedCase>, i: nat)
    requires i < |cases|
    ensures CaseBlocks(cases[..i + 1]) == CaseBlocks(cases[..i]) + CaseBlock(i + 1, cases[i].metadata)
  {
    assert cases[..i + 1][..i] == cases[..i];
  }

  // ---------------------------------------------------------------------------
  // the printed prescription

  const Rule: string := Repeat('═', 80)

  function PatientLine(p: PatientInfo): string {
    "Patient: " + p.name + " | Age: " + IntToString(p.age) + " | Gender: " + p.gender
  }

  /** The lines above the reply in the printed prescription. */
  function DisplayHeaderLines(p: PatientInfo, date: DateTime): seq<string> {
    [
      "",
      Rule,
      "                    AYURVEDIC PRESCRIPTION",
      Rule,
      PatientLine(p),
      "Constitution: " + p.constitutionDosha,
      "Diagnosis: " + p.doctorDiagnosis,
      "Symptoms: " + Join(p.symptoms, ", "),
      "Date: " + LongDate(date),
      Rule,
      "",
      ""]
  }

  function DisplayHeader(p: PatientInfo, date: DateTime): string {
    Join(DisplayHeaderLines(p, date), "\n")
  }

  const DisplayFooter: string := Join([
    "",
    "",
    Rule,
    "                        IMPORTANT NOTES",
    Rule,
    "• Follow the prescription consistently for optimal results",
    "• Maintain regular meal times and sleep schedule  ",
    "• Stay hydrated with warm water throughout the day",
    "• Consult an Ayurvedic physician if symptoms persist",
    "• This prescription is based on traditional Ayurvedic principles",
    "",
    "Generated by AyurGenixAI - Your Ayurvedic Health Companion",
    Rule,
    ""], "\n")

  /** `_format_display_output`: the reply framed by the header and the footer. */
  function FormatDisplay(responseText: string, p: PatientInfo, date: DateTime): (d: string)
    ensures Contains(d, responseText)
  {
    ContainsInfix(DisplayHeader(p, date), responseText, DisplayFooter);
    DisplayHeader(p, date) + responseText + DisplayFooter
  }

  /** Cuts the header and the footer off a printed prescription. */
  function ResponseOfDisplay(d: string, p: PatientInfo, date: DateTime): string
    requires |DisplayHeader(p, date)| + |DisplayFooter| <= |d|
  {
    d[|DisplayHeader(p, date)|..|d| - |DisplayFooter|]
  }

  // ---------------------------------------------------------------------------
  // the JSON document

  datatype PrescriptionBody = PrescriptionBody(
    ayurvedicMedicines: seq<string>,
    dietRecommendations: map<string, string>,
    lifestyleRecommendations: seq<string>)

  datatype DocumentMetadata = DocumentMetadata(generatedDate: string, generatedBy: string, formatVersion: string)

  datatype Document = Document(patientInfo: PatientInfo, prescription: PrescriptionBody, metadata: DocumentMetadata)

  /** `_create_json_output` on its normal path: the patient, the parsed reply and the stamp. */
  function JsonDocument(responseText: string, p: PatientInfo, now: DateTime): (doc: Document)
    ensures doc.patientInfo == p
    ensures doc.metadata.generatedBy == "AyurGenixAI" && doc.metadata.formatVersion == "1.0"
    ensures |doc.metadata.generatedDate| >= 19 && ParseIso(doc.metadata.generatedDate) == now
    ensures doc.prescription.dietRecommendations.Keys <= MealKeys
  {
    IsoRoundTrip(now);
    DietKeysAreMeals(Split(responseText, '\n'));
    var st := Parse(responseText);
    Document(p, PrescriptionBody(st.medicines, st.diet, st.lifestyle), DocumentMetadata(IsoFormat(now), "AyurGenixAI", "1.0"))
  }

  /** `_create_json_output`, running the parsing loop. */
  method CreateJsonOutput(responseText: string, patientInfo: PatientInfo, now: DateTime) returns (doc: Document)
    ensures doc == JsonDocument(responseText, patientInfo, now)
  {
    var medicines, dietRecommendations, lifestyleRecommendations := ParseReply(responseText);
    doc := Document(
      patientInfo,
      PrescriptionBody(medicines, dietRecommendations, lifestyleRecommendations),
      DocumentMetadata(IsoFormat(now), "AyurGenixAI", "1.0"));
  }

  // ---------------------------------------------------------------------------
  // the fallback prescription

  function PrescriptionLine(p: PatientInfo): string {
    "Prescription for " + p.name + " (" + IntToString(p.age) + ", " + p.gender + ", "
    + p.constitutionDosha + " constitution):"
  }

  /** An indented bullet line of the fallback text. */
  function BulletedLine(item: string): string {
    "   " + ([Bullet] + " " + item)
  }

  /** The bullet lines of a list of items, in order. */
  function Bulleted(items: seq<string>): seq<string> {
    if items == [] then [] else [BulletedLine(items[0])] + Bulleted(items[1..])
  }

  /** A table cell: one space, the text, and spaces up to `width` characters. */
  function TableCell(text: string, width: nat): string
    requires |text| < width
  {
    " " + text + Repeat(' ', width - 1 - |text|)
  }

  /** An indented table row of the fallback text. */
  function TableRow(meal: string, advice: string): string {
    "   " + ("|" + meal + "|" + advice + "|")
  }

  /** A row of the fallback diet table, with an 11-character meal cell and a 40-character advice cell. */
  function MealRow(meal: string, advice: string): string
    requires |meal| < 11 && |advice| < 40
  {
    TableRow(TableCell(meal, 11), TableCell(advice, 40))
  }

  /** The border of the fallback diet table, as wide as its two cells. */
  const TableBorder: string := "   +" + Repeat('-', 11) + "+" + Repeat('-', 40) + "+"

  const FallbackMedicines: seq<string> := [
    "Triphala Churna: 1 tsp " + "with warm water at bedtime",
    "Ashwagandha powder: 1/2 tsp " + "with warm milk twice daily",
    "Amla juice: 20 ml " + "with water in the morning"]

  const FallbackLifestyle: seq<string> := [
    "Practice Anulom-Vilom " + "pranayama daily (10 minutes)",
    "Morning walk " + "for 20-30 minutes",
    "Sleep by 10 PM, " + "wake by 6 AM",
    "Avoid processed " + "and cold foods",
    "Practice meditation for " + "stress relief (10 minutes daily)"]

  /** The opening of the fallback text: a blank line, the patient's line and a blank line. */
  function Opening(p: PatientInfo): seq<string> {
    ["", PrescriptionLine(p), ""]
  }

  const MedicinesBlock: seq<string> := [MedicinesHeader] + Bulleted(FallbackMedicines) + [""]

  const DietBlock: seq<string> := [
    DietHeader,
    TableBorder,
    MealRow("Meal", "Recommendation"),
    TableBorder,
    MealRow("Breakfast", "Warm oats with seasonal fruits"),
    MealRow("Lunch", "Rice with dal and cooked vegetables"),
    MealRow("Dinner", "Light khichdi or vegetable soup"),
    MealRow("Drinks", "Warm water, herbal teas"),
    TableBorder,
    ""]

  const LifestyleBlock: seq<string> := [LifestyleHeader] + Bulleted(FallbackLifestyle) + [""]

  /** The lines of the fallback text, which starts and ends with a line break. */
  function FallbackLines(p: PatientInfo): seq<string> {
    Opening(p) + MedicinesBlock + DietBlock + LifestyleBlock
  }

  function FallbackText(p: PatientInfo): string {
    Join(FallbackLines(p), "\n")
  }

  /** The result of `generate_prescription`; `rawResponse` is set on success and `error` on fallback. */
  datatype PrescriptionResult = PrescriptionResult(
    success: bool,
    displayFormat: string,
    jsonFormat: Document,
    rawResponse: Option<string>,
    error: Option<string>,
    similarCasesCount: nat)

  /** `_create_fallback_response`. */
  function FallbackResponse(p: PatientInfo, now: DateTime): (r: PrescriptionResult)
    ensures !r.success && r.similarCasesCount == 0 && r.error == Some("Using fallback prescription")
    ensures r.rawResponse == None && r.jsonFormat.patientInfo == p
  {
    var text := FallbackText(p);
    PrescriptionResult(false, FormatDisplay(text, p, now), JsonDocument(text, p, now), None,
      Some("Using fallback prescription"), 0)
  }

  /** The printed fallback prescription opens with the patient's own prescription line. */
  lemma FallbackNamesPatient(p: PatientInfo, now: DateTime)
    ensures Contains(FallbackResponse(p, now).displayFormat, PrescriptionLine(p))
  {
    var text := FallbackText(p);
    JoinContainsPart(FallbackLines(p), "\n", 1);
    ContainsInfix(DisplayHeader(p, now), text, DisplayFooter);
    ContainsWithin(DisplayHeader(p, now) + text + DisplayFooter, text, PrescriptionLine(p));
  }

  method CreateFallbackResponse(patientInfo: PatientInfo, now: DateTime) returns (r: PrescriptionResult)
    ensures r == FallbackResponse(patientInfo, now)
  {
    var fallbackText := FallbackText(patientInfo);
    var displayFormat := FormatDisplay(fallbackText, patientInfo, now);
    var jsonFormat := CreateJsonOutput(fallbackText, patientInfo, now);
    r := PrescriptionResult(false, displayFormat, jsonFormat, None, Some("Using fallback prescription"), 0);
  }

  // ---------------------------------------------------------------------------
  // generate_prescription

  /** What the text generator did with the prompt: raised an error, or replied with a text. */
  datatype GeneratorReply = Raised | Replied(text: string)

  /** `generate_prescription` once the generator's reply is known: the result succeeds exactly
      when the generator replied with a non-empty text; a success carries that text, framed and
      parsed, and every other case is the fallback. */
  function Outcome(p: PatientInfo, cases: seq<RetrievedCase>, reply: GeneratorReply, now: DateTime): (r: PrescriptionResult)
    ensures r.success <==> reply.Replied? && reply.text != ""
    ensures r.success ==> r.similarCasesCount == |cases| && r.rawResponse == Some(reply.text) && r.error == None
    ensures r.success ==> r.displayFormat == FormatDisplay(reply.text, p, now) && Contains(r.displayFormat, reply.text)
    ensures r.success ==> r.jsonFormat == JsonDocument(reply.text, p, now)
    ensures !r.success ==> r == FallbackResponse(p, now)
  {
    if reply.Replied? && reply.text != "" then
      var text := reply.text;
      PrescriptionResult(true, FormatDisplay(text, p, now), JsonDocument(text, p, now), Some(text), None, |cases|)
    else FallbackResponse(p, now)
  }

  /** `generate_prescription`: build the prompt, ask the generator, and format its reply or fall back. */
  method GeneratePrescription(patientInfo: PatientInfo, similarCases: seq<RetrievedCase>,
                              generate: string -> GeneratorReply, now: DateTime)
    returns (result: PrescriptionResult)
    ensures result == Outcome(patientInfo, similarCases, generate(PromptText(patientInfo, similarCases)), now)
  {
    var prompt := CreatePrompt(patientInfo, similarCases);
    var response := generate(prompt);
    if response.Replied? && response.text != "" {
      var displayText := FormatDisplay(response.text, patientInfo, now);
      var jsonOutput := CreateJsonOutput(response.text, patientInfo, now);
      result := PrescriptionResult(true, displayText, jsonOutput, Some(response.text), None, |similarCases|);
    } else {
      result := CreateFallbackResponse(patientInfo, now);
    }
  }
}
