/** One row of the document-status list the dashboard fetches: one document
    requirement of one customer in one role, with the facts the backend
    derived about it. Each field keeps the name of the JSON property it
    models; boolean-like properties are stored as their truthiness, except
    the two spellings of "minimum count satisfied", whose `null` matters. */
module StatusRows {
  import opened Base
  import opened JsonValue

  datatype Row = Row(
    kundeId: string,                         // String(kunde_id)
    kundeName: Option<string>,               // kunde_name
    kundenrolle: Option<string>,             // kundenrolle
    dokumentName: Option<string>,            // dokument_name
    anzeigeName: Option<string>,             // anzeige_name
    erforderlich: bool,                      // erforderlich
    vorhanden: bool,                         // vorhanden
    mindestanzahl: Option<int>,              // mindestanzahl
    anzahlVorhanden: Option<int>,            // anzahl_vorhanden
    mindestanzahlErfuelltUmlaut: Option<bool>, // mindestanzahl_erfüllt
    mindestanzahlErfuelltAscii: Option<bool>,  // mindestanzahl_erfuellt
    tiefergehendePruefung: bool,             // tiefergehende_pruefung
    caseTyp: Option<string>,                 // case_typ
    caseStatus: Option<string>,              // case_status
    caseDetails: Json,                       // case_details
    deepSummary: bool,                       // deep_summary
    fileUrl: Option<string>,                 // file_url
    letztesUpdate: Option<string>,           // letztes_update
    erkanntAm: Option<string>                // erkannt_am
  )

  /** `${kunde_id}::${kundenrolle || ''}`: the overview's grouping key. */
  function KeyOf(kundeId: string, kundenrolle: Option<string>): string {
    kundeId + "::" + OrEmpty(kundenrolle)
  }

  function Key(r: Row): string {
    KeyOf(r.kundeId, r.kundenrolle)
  }

  /** A flag is set when it is truthy. */
  predicate Flag(b: Option<bool>) {
    b == Some(true)
  }

  predicate IsRequired(r: Row) { r.erforderlich }

  predicate IsRequiredPresent(r: Row) { r.erforderlich && r.vorhanden }

  predicate HasMinimum(r: Row) { r.mindestanzahl.Some? }

  /** Either spelling of the "minimum count satisfied" flag is truthy. */
  predicate MinimumSatisfied(r: Row) {
    Flag(r.mindestanzahlErfuelltUmlaut) || Flag(r.mindestanzahlErfuelltAscii)
  }

  predicate HasMinimumSatisfied(r: Row) { HasMinimum(r) && MinimumSatisfied(r) }

  predicate IsDeep(r: Row) { r.tiefergehendePruefung }

  /** `String(case_status || '').toLowerCase()` */
  function CaseStatusText(r: Row): string {
    Lower(OrEmpty(r.caseStatus))
  }

  predicate DeepPassed(r: Row) { IsDeep(r) && CaseStatusText(r) == "passed" }

  predicate DeepFailed(r: Row) { IsDeep(r) && CaseStatusText(r) == "failed" }

  predicate HasUpload(r: Row) { TruthyText(r.fileUrl) }

  lemma LowerPassed()
    ensures Lower("PASSED") == "passed"
  {
  }

  lemma LowerFailed()
    ensures Lower("Failed") == "failed"
  {
  }

  lemma LowerOpen()
    ensures Lower("open") == "open"
  {
  }

  /** The case status is read case-insensitively: any spelling of "passed"
      or "failed" counts, anything else (absent included) is neither. */
  lemma {:induction false} CaseStatusSpellings(r: Row)
    requires IsDeep(r)
    ensures r.caseStatus == Some("PASSED") ==> DeepPassed(r) && !DeepFailed(r)
    ensures r.caseStatus == Some("Failed") ==> DeepFailed(r) && !DeepPassed(r)
    ensures r.caseStatus == None ==> !DeepPassed(r) && !DeepFailed(r)
    ensures r.caseStatus == Some("open") ==> !DeepPassed(r) && !DeepFailed(r)
  {
    if r.caseStatus == Some("PASSED") {
      LowerPassed();
    }
    if r.caseStatus == Some("Failed") {
      LowerFailed();
    }
    if r.caseStatus == Some("open") {
      LowerOpen();
    }
  }

  /** A row cannot count as both passed and failed. */
  lemma DeepOutcomesExclusive(r: Row)
    ensures !(DeepPassed(r) && DeepFailed(r))
  {
  }
}
