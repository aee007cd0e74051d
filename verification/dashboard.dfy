/** The dashboard page as a state machine: two tabs ("Prüfungen" and
    "Status"), the choice of a check and of an occupation group leading to
    the upload form, and the status tab's overview and detail views. The
    status fetch is split into the event that starts it (switching to the
    status tab) and the events that deliver its outcome. */
module Dashboard {
  import opened Base
  import opened StatusRows
  import Overview

  datatype Tab = Services | History

  /** The two checks offered: property documents and creditworthiness. */
  datatype Service = Objektunterlagen | Bonitaet

  /** The occupation group chosen for a creditworthiness check. */
  datatype SubType = Angestellter | Selbstaendiger

  datatype State = State(
    activeTab: Tab,
    selectedService: Option<Service>,
    subType: Option<SubType>,
    statusData: seq<Row>,
    loading: bool,
    activeReport: Option<Overview.Summary>)

  /** The page as first rendered. */
  const Initial := State(Services, None, None, [], false, None)

  datatype Event =
    | ClickTab(tab: Tab)
    | ChooseService(service: Service)
    | ChooseSubType(sub: SubType)
    | Back                                   // "Zurück" / "Zurück zur Auswahl"
    | Loaded(payload: Option<seq<Row>>)      // the body parsed; `None` when it is not an array
    | LoadFailed
    | OpenDetail(report: Overview.Summary)
    | CloseDetail                            // "Zur Übersicht"

  // ---- what is on screen ----

  predicate ShowsServiceCards(s: State) {
    s.activeTab == Services && s.selectedService.None?
  }

  predicate ShowsSubTypeChoice(s: State) {
    s.selectedService == Some(Bonitaet) && s.subType.None?
  }

  predicate ShowsUploadForm(s: State) {
    s.selectedService == Some(Objektunterlagen) || (s.selectedService == Some(Bonitaet) && s.subType.Some?)
  }

  predicate ShowsStatus(s: State) {
    s.activeTab == History
  }

  predicate ShowsOverview(s: State) {
    ShowsStatus(s) && !s.loading && s.activeReport.None?
  }

  predicate ShowsDetail(s: State) {
    ShowsStatus(s) && !s.loading && s.activeReport.Some?
  }

  /** `resetSelection` */
  function ResetSelection(s: State): (s': State)
    ensures s'.selectedService.None? && s'.subType.None?
    ensures s'.activeTab == s.activeTab && s'.statusData == s.statusData
            && s'.loading == s.loading && s'.activeReport == s.activeReport
  {
    s.(selectedService := None, subType := None)
  }

  /** The page's reaction to one event. Clicks on controls that are not on
      screen cannot happen and leave the state as it is. Switching to the
      status tab from the other tab starts the fetch, which sets `loading`;
      clicking the tab already active does not refetch. */
  function Next(s: State, e: Event): State {
    match e
    case ClickTab(t) =>
      var s1 := ResetSelection(s.(activeTab := t));
      if t == History && s.activeTab != History then s1.(loading := true) else s1
    case ChooseService(svc) =>
      if ShowsServiceCards(s) then s.(selectedService := Some(svc)) else s
    case ChooseSubType(sub) =>
      if ShowsSubTypeChoice(s) then s.(subType := Some(sub)) else s
    case Back =>
      if ShowsSubTypeChoice(s) || ShowsUploadForm(s) then ResetSelection(s) else s
    case Loaded(payload) =>
      s.(statusData := payload.GetOr([]), loading := false, activeReport := None)
    case LoadFailed =>
      s.(loading := false)
    case OpenDetail(report) =>
      if ShowsOverview(s) then s.(activeReport := Some(report)) else s
    case CloseDetail =>
      if ShowsDetail(s) then s.(activeReport := None) else s
  }

  /** What every reachable state satisfies: an occupation group only under
      the creditworthiness check, and a chosen check only on the first tab. */
  ghost predicate Inv(s: State) {
    && (s.subType.Some? ==> s.selectedService == Some(Bonitaet))
    && (s.selectedService.Some? ==> s.activeTab == Services)
  }

  lemma InitialInv()
    ensures Inv(Initial) && ShowsServiceCards(Initial) && !ShowsStatus(Initial)
  {
  }

  lemma NextInv(s: State, e: Event)
    requires Inv(s)
    ensures Inv(Next(s, e))
  {
  }

  /** The states reached from `s` by the events `es`, in order. */
  function Run(s: State, es: seq<Event>): State
    decreases |es|
  {
    if es == [] then s else Run(Next(s, es[0]), es[1..])
  }

  lemma {:induction false} RunInv(s: State, es: seq<Event>)
    requires Inv(s)
    ensures Inv(Run(s, es))
    decreases |es|
  {
    if es != [] {
      NextInv(s, es[0]);
      RunInv(Next(s, es[0]), es[1..]);
    }
  }

  /** In a reachable state exactly one panel is in view: the check cards,
      the occupation-group choice, the upload form, or the status tab. */
  lemma ExactlyOnePanel(s: State)
    requires Inv(s)
    ensures ShowsServiceCards(s) || ShowsSubTypeChoice(s) || ShowsUploadForm(s) || ShowsStatus(s)
    ensures !(ShowsServiceCards(s) && ShowsSubTypeChoice(s))
    ensures !(ShowsServiceCards(s) && ShowsUploadForm(s))
    ensures !(ShowsSubTypeChoice(s) && ShowsUploadForm(s))
    ensures !(ShowsStatus(s) && (ShowsServiceCards(s) || ShowsSubTypeChoice(s) || ShowsUploadForm(s)))
  {
    if s.selectedService.Some? {
      assert s.selectedService.value == Objektunterlagen || s.selectedService.value == Bonitaet;
    }
  }

  /** `getRolleName(type, sub)`: the role the upload form submits. */
  function RolleName(service: Option<Service>, sub: Option<SubType>): (name: string)
    ensures service == Some(Objektunterlagen) ==> name == "Verkäufer"
    ensures service == Some(Bonitaet) && sub == Some(Angestellter) ==> name == "Käufer (angestellt)"
    ensures service == Some(Bonitaet) && sub == Some(Selbstaendiger) ==> name == "Käufer (selbstständig)"
    ensures service != Some(Objektunterlagen) && (service != Some(Bonitaet) || sub.None?) ==> name == ""
  {
    match service
    case Some(Objektunterlagen) => "Verkäufer"
    case Some(Bonitaet) =>
      (match sub
       case Some(Angestellter) => "Käufer (angestellt)"
       case Some(Selbstaendiger) => "Käufer (selbstständig)"
       case None => "")
    case None => ""
  }

  /** Whenever the upload form is on screen it is handed a role. */
  lemma UploadFormHasRole(s: State)
    requires ShowsUploadForm(s)
    ensures RolleName(s.selectedService, s.subType) != ""
  {
  }

  /** Fresh data always reopens on the overview, and a body that is not an
      array empties the list. */
  lemma LoadedShowsOverview(s: State, payload: Option<seq<Row>>)
    requires ShowsStatus(s)
    ensures ShowsOverview(Next(s, Loaded(payload)))
    ensures payload.None? ==> Next(s, Loaded(payload)).statusData == []
  {
  }

  /** A failed fetch keeps the rows and the view, and ends the loading state. */
  lemma LoadFailedKeepsData(s: State)
    ensures var s' := Next(s, LoadFailed);
            !s'.loading && s'.statusData == s.statusData && s'.activeReport == s.activeReport
  {
  }

  /** Switching tabs always clears the chosen check. */
  lemma TabClearsSelection(s: State, t: Tab)
    ensures Next(s, ClickTab(t)).selectedService.None? && Next(s, ClickTab(t)).subType.None?
    ensures t == History && s.activeTab == Services ==> Next(s, ClickTab(t)).loading
  {
  }

  /** The rows the detail table receives: those of the opened group,
      comparing customer ids and roles (absent read as empty) as text. */
  function DetailRows(rows: seq<Row>, g: Overview.Group): (out: seq<Row>)
    ensures |out| <= |rows|
    decreases |rows|
  {
    if rows == [] then []
    else
      var last := rows[|rows| - 1];
      DetailRows(rows[..|rows| - 1], g)
      + (if last.kundeId == g.kundeId && OrEmpty(last.kundenrolle) == OrEmpty(g.kundenrolle)
         then [last] else [])
  }

  /** `filteredRows`: all rows on the overview, the group's rows in detail. */
  function FilteredRows(s: State): (rows: seq<Row>)
    ensures s.activeReport.None? ==> rows == s.statusData
    ensures |rows| <= |s.statusData|
  {
    match s.activeReport
    case None => s.statusData
    case Some(report) => DetailRows(s.statusData, report.group)
  }

  /** Customer ids free of ':' (the grouping key is then unambiguous). */
  ghost predicate PlainIds(rows: seq<Row>) {
    forall i :: 0 <= i < |rows| ==> ':' !in rows[i].kundeId
  }

  /** The detail filter and the overview's grouping agree: when no customer
      id contains ':', the detail table shows exactly the rows the opened
      card was aggregated from, in their order. */
  lemma {:induction false} DetailRowsAreGroup(rows: seq<Row>, g: Overview.Group)
    requires PlainIds(rows) && ':' !in g.kundeId
    ensures DetailRows(rows, g) == Overview.Select(rows, Overview.GroupKey(g))
    decreases |rows|
  {
    if rows != [] {
      var init, last := rows[..|rows| - 1], rows[|rows| - 1];
      assert PlainIds(init) by {
        forall i | 0 <= i < |init| ensures ':' !in init[i].kundeId {
          assert init[i] == rows[i];
        }
      }
      DetailRowsAreGroup(init, g);
      assert ':' !in last.kundeId;
      if Key(last) == Overview.GroupKey(g) {
        Overview.KeyInjective(last.kundeId, last.kundenrolle, g.kundeId, g.kundenrolle);
      }
    }
  }

  /** Opening a card of the overview shows in the detail table exactly the
      rows of that card's group. */
  lemma OpenCardShowsItsRows(s: State, i: nat)
    requires PlainIds(s.statusData) && ShowsOverview(s)
    requires i < |Overview.Summaries(s.statusData)|
    ensures var card := Overview.Summaries(s.statusData)[i];
            var s' := Next(s, OpenDetail(card));
            ShowsDetail(s')
            && FilteredRows(s') == Overview.Select(s.statusData, Overview.GroupKey(card.group))
  {
    var card := Overview.Summaries(s.statusData)[i];
    var g := card.group;
    assert g == Overview.Aggregate(s.statusData)[i];
    Overview.GroupIdentity(s.statusData, i);
    var j :| Overview.IsFirstWithKey(s.statusData, j, Overview.GroupKey(g))
             && Overview.SameIdentity(g, s.statusData[j]);
    DetailRowsAreGroup(s.statusData, g);
  }
}
