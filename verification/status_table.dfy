/** The detail table of one customer/role group: the net-income comparison
    panel summarised from the rows, its status badge, and how each row is
    rendered (shading, the minimum-count cell, the download link, the
    expandable details). Monetary amounts are exact reals. */
module StatusTable {
  import opened Base
  import opened JsonValue
  import opened StatusRows
  import LooseNumber
  import Overview

  /** A pay slip: "gehalts" in the document or display name, in any case. */
  predicate IsPayslip(r: Row) {
    Contains(Lower(OrEmpty(r.dokumentName)), "gehalts")
    || Contains(Lower(OrEmpty(r.anzeigeName)), "gehalts")
  }

  /** The self-disclosure form: "selbstauskunft" in the document name. */
  predicate IsSelbstauskunft(r: Row) {
    Contains(Lower(OrEmpty(r.dokumentName)), "selbstauskunft")
  }

  /** The net-income comparison case. */
  predicate IsNettoCase(r: Row) {
    Lower(OrEmpty(r.caseTyp)) == "netto_abgleich"
  }

  /** The case carrying the declared net income. */
  predicate IsAngegebenCase(r: Row) {
    Contains(Lower(OrEmpty(r.caseTyp)), "angegebenes_netto")
  }

  /** Row `i` is the first one satisfying `p`. */
  ghost predicate IsFirst(rows: seq<Row>, p: Row -> bool, i: int) {
    0 <= i < |rows| && p(rows[i]) && forall j :: 0 <= j < i ==> !p(rows[j])
  }

  /** `rows.find(p)`, as the index found, searching from `from` on. */
  function FindFirst(rows: seq<Row>, p: Row -> bool, from: nat := 0): (r: Option<nat>)
    requires from <= |rows|
    ensures r.Some? ==> from <= r.value < |rows| && p(rows[r.value])
                        && forall j :: from <= j < r.value ==> !p(rows[j])
    ensures r.None? ==> forall j :: from <= j < |rows| ==> !p(rows[j])
    decreases |rows| - from
  {
    if from == |rows| then None
    else if p(rows[from]) then Some(from)
    else FindFirst(rows, p, from + 1)
  }

  /** `found?.case_details`: the details of the row found, `undefined` when none. */
  function DetailsAt(rows: seq<Row>, found: Option<nat>): Json {
    if found.Some? && found.value < |rows| then rows[found.value].caseDetails else Null
  }

  /** The panel's data (`extractNettoSummary`). */
  datatype NettoSummary = NettoSummary(
    hasModule: bool,
    minNetto: Option<real>,
    selbstauskunftNetto: Option<real>,
    minReq: Option<int>,
    have: Option<int>,
    minOk: Option<bool>,
    abgleichStatus: Option<string>)

  /** `a || b` on the two spellings of the minimum flag, `undefined` read as `null`. */
  function MinFlag(r: Row): (b: Option<bool>)
    ensures b == Some(true) <==> MinimumSatisfied(r)
    ensures b == Some(false) <==> !Flag(r.mindestanzahlErfuelltUmlaut) && r.mindestanzahlErfuelltAscii == Some(false)
  {
    if Flag(r.mindestanzahlErfuelltUmlaut) then Some(true) else r.mindestanzahlErfuelltAscii
  }

  /** `extractNettoSummary(rows)`. The string-to-number conversion `Number`
      is the parameter `parse`. */
  function Summarize(rows: seq<Row>, parse: string -> Option<real>): (s: NettoSummary)
    ensures s.hasModule <==> (exists i :: 0 <= i < |rows| && IsPayslip(rows[i]))
                             && (exists i :: 0 <= i < |rows| && IsSelbstauskunft(rows[i]))
  {
    var payslip := FindFirst(rows, IsPayslip);
    var selbst := FindFirst(rows, IsSelbstauskunft);
    var netto := FindFirst(rows, IsNettoCase);
    var angegeben := FindFirst(rows, IsAngegebenCase);
    var first := if payslip.Some? then Some(rows[payslip.value]) else None;
    var status := if netto.Some? then CaseStatusText(rows[netto.value]) else "";
    NettoSummary(
      hasModule := payslip.Some? && selbst.Some?,
      minNetto := LooseNumber.AsNumberLoose(DetailsAt(rows, netto), parse),
      selbstauskunftNetto :=
        LooseNumber.AsNumberLoose(DetailsAt(rows, angegeben), parse)
          .OrElse(LooseNumber.AsNumberLoose(DetailsAt(rows, selbst), parse)),
      minReq := if first.Some? then first.value.mindestanzahl else None,
      have := if first.Some? then first.value.anzahlVorhanden else None,
      minOk := if first.Some? then MinFlag(first.value) else None,
      abgleichStatus := if status == "" then None else Some(status))
  }

  /** The first row satisfying `p` is the one `find` returns. */
  lemma FoundIsFirst(rows: seq<Row>, p: Row -> bool, i: int)
    requires IsFirst(rows, p, i)
    ensures FindFirst(rows, p) == Some(i)
  {
  }

  /** The minimum-count fields come from the first pay slip. */
  lemma PayslipFields(rows: seq<Row>, parse: string -> Option<real>, i: int)
    requires IsFirst(rows, IsPayslip, i)
    ensures var s := Summarize(rows, parse);
            && s.minReq == rows[i].mindestanzahl && s.have == rows[i].anzahlVorhanden
            && (s.minOk == Some(true) <==> MinimumSatisfied(rows[i]))
            && (s.minOk == Some(false) <==> !Flag(rows[i].mindestanzahlErfuelltUmlaut)
                                            && rows[i].mindestanzahlErfuelltAscii == Some(false))
  {
    FoundIsFirst(rows, IsPayslip, i);
  }

  /** Without a pay slip the minimum-count fields are all `null`. */
  lemma NoPayslip(rows: seq<Row>, parse: string -> Option<real>)
    requires forall i :: 0 <= i < |rows| ==> !IsPayslip(rows[i])
    ensures var s := Summarize(rows, parse);
            s.minReq == None && s.have == None && s.minOk == None && !s.hasModule
  {
  }

  /** The comparison status is the first comparison case's status, lower-cased;
      `null` when there is no such case or its status is empty. */
  lemma ComparisonFields(rows: seq<Row>, parse: string -> Option<real>, i: int)
    requires IsFirst(rows, IsNettoCase, i)
    ensures var s := Summarize(rows, parse);
            && (s.abgleichStatus.Some? <==> CaseStatusText(rows[i]) != "")
            && (s.abgleichStatus.Some? ==> s.abgleichStatus.value == CaseStatusText(rows[i]))
            && s.minNetto == LooseNumber.AsNumberLoose(rows[i].caseDetails, parse)
  {
    FoundIsFirst(rows, IsNettoCase, i);
  }

  lemma NoComparisonCase(rows: seq<Row>, parse: string -> Option<real>)
    requires forall i :: 0 <= i < |rows| ==> !IsNettoCase(rows[i])
    ensures var s := Summarize(rows, parse);
            s.abgleichStatus == None && s.minNetto == None
  {
  }

  /** The declared net income comes from the declared-income case when it
      yields an amount, and from the self-disclosure row's details otherwise. */
  lemma DeclaredIncomeSource(rows: seq<Row>, parse: string -> Option<real>, a: int, b: int)
    requires IsFirst(rows, IsAngegebenCase, a) && IsFirst(rows, IsSelbstauskunft, b)
    ensures var declared := LooseNumber.AsNumberLoose(rows[a].caseDetails, parse);
            Summarize(rows, parse).selbstauskunftNetto
              == (if declared.Some? then declared
                  else LooseNumber.AsNumberLoose(rows[b].caseDetails, parse))
  {
    FoundIsFirst(rows, IsAngegebenCase, a);
    FoundIsFirst(rows, IsSelbstauskunft, b);
  }

  /** Without a declared-income case the lookup reads nothing and the
      self-disclosure row's details are used. */
  lemma NoDeclaredIncomeCase(rows: seq<Row>, parse: string -> Option<real>, b: int)
    requires forall i :: 0 <= i < |rows| ==> !IsAngegebenCase(rows[i])
    requires IsFirst(rows, IsSelbstauskunft, b)
    ensures Summarize(rows, parse).selbstauskunftNetto == LooseNumber.AsNumberLoose(rows[b].caseDetails, parse)
  {
    FoundIsFirst(rows, IsSelbstauskunft, b);
  }

  /** Without a self-disclosure row only the declared-income case counts. */
  lemma NoSelfDisclosure(rows: seq<Row>, parse: string -> Option<real>, a: int)
    requires IsFirst(rows, IsAngegebenCase, a)
    requires forall i :: 0 <= i < |rows| ==> !IsSelbstauskunft(rows[i])
    ensures Summarize(rows, parse).selbstauskunftNetto == LooseNumber.AsNumberLoose(rows[a].caseDetails, parse)
  {
    FoundIsFirst(rows, IsAngegebenCase, a);
  }

  /** With neither source the declared net income is `null`. */
  lemma NoIncomeSource(rows: seq<Row>, parse: string -> Option<real>)
    requires forall i :: 0 <= i < |rows| ==> !IsAngegebenCase(rows[i]) && !IsSelbstauskunft(rows[i])
    ensures Summarize(rows, parse).selbstauskunftNetto == None
  {
  }

  /** The four badges of the panel. */
  datatype BadgeKind = Ok | Fail | Warn | Info

  datatype Badge = Badge(kind: BadgeKind, text: string)

  /** The panel's status badge: the comparison's outcome first, then an
      unmet minimum count, otherwise "incomplete". */
  function StatusBadge(s: NettoSummary): (b: Badge)
    ensures b.kind == Ok <==> s.abgleichStatus == Some("passed")
    ensures b.kind == Fail <==> s.abgleichStatus == Some("failed")
    ensures b.kind == Warn <==> s.abgleichStatus != Some("passed")
                                && s.abgleichStatus != Some("failed") && s.minOk == Some(false)
    ensures b.kind == Info ==> b.text == "Unvollständig"
  {
    if s.abgleichStatus == Some("passed") then Badge(Ok, "Abgleich bestanden")
    else if s.abgleichStatus == Some("failed") then Badge(Fail, "Abgleich fehlgeschlagen")
    else if s.minOk == Some(false) then Badge(Warn, "Mindestanzahl nicht erfüllt")
    else Badge(Info, "Unvollständig")
  }

  /** The badge follows the first comparison case's status in any letter
      case: an upper-case "PASSED" shows "Abgleich bestanden". */
  lemma {:induction false} PassedInAnyCase(rows: seq<Row>, parse: string -> Option<real>, i: nat)
    requires IsFirst(rows, IsNettoCase, i) && rows[i].caseStatus == Some("PASSED")
    ensures StatusBadge(Summarize(rows, parse)) == Badge(Ok, "Abgleich bestanden")
  {
    assert Lower("PASSED") == "passed";
    ComparisonFields(rows, parse, i);
  }

  /** Without a comparison case, the badge warns exactly when the first pay
      slip's minimum flags are not truthy and the ASCII spelling is `false`. */
  lemma NoCaseMinimumWarning(rows: seq<Row>, parse: string -> Option<real>, i: nat)
    requires forall j :: 0 <= j < |rows| ==> !IsNettoCase(rows[j])
    requires IsFirst(rows, IsPayslip, i)
    ensures StatusBadge(Summarize(rows, parse)).kind == Warn <==>
              !Flag(rows[i].mindestanzahlErfuelltUmlaut) && rows[i].mindestanzahlErfuelltAscii == Some(false)
  {
    NoComparisonCase(rows, parse);
    PayslipFields(rows, parse, i);
  }

  /** `Math.round(x * 100) / 100`: rounding to cents. */
  function RoundCents(x: real): (r: real)
    ensures -0.005 < r - x <= 0.005
    ensures (r * 100.0).Floor as real == r * 100.0
  {
    Round(x * 100.0) as real / 100.0
  }

  /** The difference cell: declared minus lowest net income, to the cent,
      shown only when both amounts are known. */
  function Delta(s: NettoSummary): (d: Option<real>)
    ensures d.Some? <==> s.minNetto.Some? && s.selbstauskunftNetto.Some?
    ensures d.Some? ==> -0.005 < d.value - (s.selbstauskunftNetto.value - s.minNetto.value) <= 0.005
    ensures d.Some? ==> (d.value * 100.0).Floor as real == d.value * 100.0
  {
    if s.minNetto.Some? && s.selbstauskunftNetto.Some?
    then Some(RoundCents(s.selbstauskunftNetto.value - s.minNetto.value))
    else None
  }

  /** A whole number of cents within half a cent below to half a cent above
      `x` is unique: it is the rounded value. */
  lemma CentsUnique(x: real, c: real)
    requires (c * 100.0).Floor as real == c * 100.0
    requires -0.005 < c - x <= 0.005
    ensures c == RoundCents(x)
  {
    var r := RoundCents(x);
    var n, m := (c * 100.0).Floor, (r * 100.0).Floor;
    assert -1.0 < n as real - m as real < 1.0;
    assert n == m;
  }

  /** Equal amounts show a difference of exactly zero. */
  lemma DeltaOfEqualAmounts(s: NettoSummary)
    requires s.minNetto.Some? && s.selbstauskunftNetto == s.minNetto
    ensures Delta(s) == Some(0.0)
  {
  }

  /** The panel's hint line "Mindestanzahl Gehaltsnachweise": shown when a
      minimum exists, "erfüllt" when the flag is truthy, the count of
      slips present defaulting to 0. */
  datatype Hint = NoHint | MinimumHint(met: bool, have: int, need: int)

  function PanelHint(s: NettoSummary): (h: Hint)
    ensures h.MinimumHint? <==> s.minReq.Some?
    ensures h.MinimumHint? ==> (h.met <==> s.minOk == Some(true)) && h.need == s.minReq.value
    ensures h.MinimumHint? ==> h.have == (if s.have.Some? then s.have.value else 0)
  {
    if s.minReq.Some? then MinimumHint(s.minOk == Some(true), s.have.GetOr(0), s.minReq.value)
    else NoHint
  }

  // ---- per-row rendering ----

  /** The row is shaded red: required but missing. */
  predicate Shaded(r: Row) {
    r.erforderlich && !r.vorhanden
  }

  /** The minimum-count cell: a dash, a check mark, or a warning "have/need". */
  datatype MinimumCell = NoMinimum | MinimumMet | MinimumOpen(have: int, need: int)

  function MinimumCellOf(r: Row): (c: MinimumCell)
    ensures c == NoMinimum <==> !HasMinimum(r)
    ensures c == MinimumMet <==> HasMinimumSatisfied(r)
    ensures c.MinimumOpen? ==> c.need == r.mindestanzahl.value
                               && c.have == (if r.anzahlVorhanden.Some? then r.anzahlVorhanden.value else 0)
  {
    if r.mindestanzahl.None? then NoMinimum
    else if MinimumSatisfied(r) then MinimumMet
    else MinimumOpen(r.anzahlVorhanden.GetOr(0), r.mindestanzahl.value)
  }

  /** The download link: the file URL when it is a non-empty string. */
  function DownloadLink(r: Row): (link: Option<string>)
    ensures link.Some? <==> HasUpload(r)
    ensures link.Some? ==> r.fileUrl == link
  {
    if HasUpload(r) then r.fileUrl else None
  }

  /** The "Details" toggle exists for deep-verification rows that have a case
      type or a summary. */
  predicate HasDetailsToggle(r: Row) {
    IsDeep(r) && (TruthyText(r.caseTyp) || r.deepSummary)
  }

  /** The expanded-row state, keyed by the row's position. */
  type ExpandedRows = map<int, bool>

  predicate Expanded(m: ExpandedRows, i: int) {
    i in m && m[i]
  }

  /** `toggleRow(index)` */
  function Toggle(m: ExpandedRows, i: int): (m': ExpandedRows)
    ensures Expanded(m', i) <==> !Expanded(m, i)
    ensures forall j :: j != i ==> Expanded(m', j) == Expanded(m, j)
  {
    m[i := !Expanded(m, i)]
  }

  /** Toggling twice restores what every row shows. */
  lemma ToggleTwice(m: ExpandedRows, i: int)
    ensures forall j :: Expanded(Toggle(Toggle(m, i), i), j) == Expanded(m, j)
  {
  }

  /** The details row below row `i` is shown. */
  predicate DetailsShown(m: ExpandedRows, rows: seq<Row>, i: int) {
    0 <= i < |rows| && Expanded(m, i) && HasDetailsToggle(rows[i])
  }

  /** A row without a toggle never shows details, whatever the state. */
  lemma NoToggleNoDetails(m: ExpandedRows, rows: seq<Row>, i: int)
    requires 0 <= i < |rows| && !HasDetailsToggle(rows[i])
    ensures !DetailsShown(m, rows, i) && !DetailsShown(Toggle(m, i), rows, i)
  {
  }

  /** Toggling one row changes whether details are shown for that row only. */
  lemma ToggleShowsOne(m: ExpandedRows, rows: seq<Row>, i: int)
    requires 0 <= i < |rows| && HasDetailsToggle(rows[i])
    ensures DetailsShown(Toggle(m, i), rows, i) <==> !DetailsShown(m, rows, i)
    ensures forall j :: j != i ==> DetailsShown(Toggle(m, i), rows, j) == DetailsShown(m, rows, j)
  {
  }

  /** Every required row is either present or shaded, never both; so the
      shaded rows number the required rows minus the required ones present. */
  lemma {:induction false} ShadedCount(rows: seq<Row>)
    ensures Overview.CountIn(rows, Shaded)
            == Overview.CountIn(rows, IsRequired) - Overview.CountIn(rows, IsRequiredPresent)
    ensures Overview.CountIn(rows, IsRequiredPresent) <= Overview.CountIn(rows, IsRequired)
    decreases |rows|
  {
    if rows != [] {
      ShadedCount(rows[..|rows| - 1]);
    }
  }

  /** In the detail view of an overview group, the shaded rows number the
      group's required documents minus those present. */
  lemma ShadedRowsOfGroup(rows: seq<Row>, i: nat)
    requires i < |Overview.Aggregate(rows)|
    ensures var g := Overview.Aggregate(rows)[i];
            Overview.CountIn(Overview.Select(rows, Overview.GroupKey(g)), Shaded)
            == g.counters.reqTotal - g.counters.reqOk
  {
    Overview.GroupCounters(rows, i);
    ShadedCount(Overview.Select(rows, Overview.GroupKey(Overview.Aggregate(rows)[i])));
  }
}
