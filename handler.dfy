/**
 * `MetronEventsMarkdownSchemaHandler`: the object Wire calls once per schema type. It keeps
 * three frequency tables (events per kind, Metric events per variant, events per team), the
 * two mkdocs navigation lists, and writes each event's page, each enum's page and, after every
 * event, the summary page. The file system is the map `written` from each path to the page
 * last written there, a `Page` whose text is `PageText`.
 */
module Handler {
  import opened Wrappers
  import opened Text
  import opened Schema
  import opened CountTables
  import opened Sections
  import opened Pages

  // ---------------------------------------------------------------------------------------
  // The history of recorded events and the tables it determines
  // ---------------------------------------------------------------------------------------

  /** What `updateEventSummaryPage` reads from one event message. */
  datatype Recorded = Recorded(kind: EventType, team: string, metricEvent: MetricEvent)

  function Kinds(rs: seq<Recorded>): (ks: seq<EventType>)
    ensures |ks| == |rs|
    ensures forall i :: 0 <= i < |rs| ==> ks[i] == rs[i].kind
  {
    seq(|rs|, i requires 0 <= i < |rs| => rs[i].kind)
  }

  function Teams(rs: seq<Recorded>): (ts: seq<string>)
    ensures |ts| == |rs|
    ensures forall i :: 0 <= i < |rs| ==> ts[i] == rs[i].team
  {
    seq(|rs|, i requires 0 <= i < |rs| => rs[i].team)
  }

  /** The variant names of the recorded Metric events, in order. */
  function MetricVariants(rs: seq<Recorded>): seq<string> {
    if |rs| == 0 then [] else
      var last := rs[|rs| - 1];
      MetricVariants(rs[..|rs| - 1]) + (if last.kind == Metric then [VariantName(last.metricEvent)] else [])
  }

  /** `EventType.entries.associateWith { 0 }`. */
  const InitialEventTypeCounts: Table<EventType> :=
    [(ActionTap, 0), (ActionCustom, 0), (Log, 0), (Error, 0), (Metric, 0)]

  function EventTypeTable(rs: seq<Recorded>): Table<EventType> {
    Tally(InitialEventTypeCounts, Kinds(rs))
  }

  function MetricTable(rs: seq<Recorded>): Table<string> {
    Tally([], MetricVariants(rs))
  }

  function TeamTable(rs: seq<Recorded>): Table<string> {
    Tally([], Teams(rs))
  }

  /**
   * `${it.key}` for a team or a variant name: a `String` key is its own text. It is named,
   * not a lambda, so that the row lemmas and the page refer to the same renderer.
   */
  function KeyText(s: string): string {
    s
  }

  /** The summary page rendered from the three tables, the total being the event-type table's sum. */
  function SummaryOfTables(et: Table<EventType>, mt: Table<string>, tt: Table<string>): string {
    SummaryPage(TableRows(et, EventTypeName), TableRows(mt, KeyText), TableRows(tt, KeyText), Sum(et))
  }

  /** The summary page written after the events `rs`. */
  function SummaryOf(rs: seq<Recorded>): string {
    SummaryOfTables(EventTypeTable(rs), MetricTable(rs), TeamTable(rs))
  }

  /** A page the handler writes, given by what its text is rendered from. */
  datatype Page =
    | EventPageOf(name: string, documentation: string, fields: seq<Field>, options: TypeOptions,
                  eventType: EventType)
    | TypePageOf(name: string, documentation: string, constants: seq<EnumConstant>)
    | SummaryPageOf(eventTypes: Table<EventType>, metricEvents: Table<string>, teams: Table<string>)

  /** The text written for a page. */
  function PageText(p: Page, ext: Externals): string {
    match p
    case EventPageOf(name, documentation, fields, o, eventType) =>
      EventPage(name, documentation, fields, o, eventType, ext)
    case TypePageOf(name, documentation, constants) => TypePage(name, documentation, constants)
    case SummaryPageOf(et, mt, tt) => SummaryOfTables(et, mt, tt)
  }

  /** The summary page written after the events `rs`, rendered from their tallies. */
  function SummaryAfter(rs: seq<Recorded>): Page {
    SummaryPageOf(EventTypeTable(rs), MetricTable(rs), TeamTable(rs))
  }

  // ---------------------------------------------------------------------------------------
  // The navigation lists and the pages written
  // ---------------------------------------------------------------------------------------

  /**
   * Every name in a navigation list has its page at the expected path, and every event or
   * type page written is at its own path and named in its list.
   */
  ghost predicate Navigation(docsPath: string, written: map<string, Page>, events: seq<string>, types: seq<string>) {
    (forall n :: n in events ==>
       EventPath(docsPath, n) in written && written[EventPath(docsPath, n)].EventPageOf?
       && written[EventPath(docsPath, n)].name == n)
    && (forall n :: n in types ==>
          TypePath(docsPath, n) in written && written[TypePath(docsPath, n)].TypePageOf?
          && written[TypePath(docsPath, n)].name == n)
    && (forall p :: p in written && written[p].EventPageOf? ==>
          p == EventPath(docsPath, written[p].name) && written[p].name in events)
    && (forall p :: p in written && written[p].TypePageOf? ==>
          p == TypePath(docsPath, written[p].name) && written[p].name in types)
  }

  /** Writing the summary keeps every navigation entry backed by its page. */
  lemma {:induction false} NavigationAfterSummary(docsPath: string, written: map<string, Page>,
                                                  events: seq<string>, types: seq<string>, page: Page)
    requires Navigation(docsPath, written, events, types) && page.SummaryPageOf?
    ensures Navigation(docsPath, written[SummaryPath(docsPath) := page], events, types)
  {
    var w := written[SummaryPath(docsPath) := page];
    forall n | n in events
      ensures EventPath(docsPath, n) in w && w[EventPath(docsPath, n)] == written[EventPath(docsPath, n)]
    {
      PathsAreDistinct(docsPath, n, n);
    }
    forall n | n in types
      ensures TypePath(docsPath, n) in w && w[TypePath(docsPath, n)] == written[TypePath(docsPath, n)]
    {
      PathsAreDistinct(docsPath, n, n);
    }
  }

  /** Writing an event page and appending its name keeps the lists and the pages in step. */
  lemma {:induction false} NavigationAfterEventPage(docsPath: string, written: map<string, Page>,
                                                    events: seq<string>, types: seq<string>, page: Page)
    requires Navigation(docsPath, written, events, types) && page.EventPageOf?
    ensures Navigation(docsPath, written[EventPath(docsPath, page.name) := page], events + [page.name], types)
  {
    var path := EventPath(docsPath, page.name);
    var w := written[path := page];
    forall n | n in events + [page.name]
      ensures path in w && w[EventPath(docsPath, n)].EventPageOf? && w[EventPath(docsPath, n)].name == n
    {
      PathsAreDistinct(docsPath, n, page.name);
    }
    forall n | n in types
      ensures TypePath(docsPath, n) in w && w[TypePath(docsPath, n)] == written[TypePath(docsPath, n)]
    {
      PathsAreDistinct(docsPath, page.name, n);
    }
  }

  /** Writing a type page and appending its name keeps the lists and the pages in step. */
  lemma {:induction false} NavigationAfterTypePage(docsPath: string, written: map<string, Page>,
                                                   events: seq<string>, types: seq<string>, page: Page)
    requires Navigation(docsPath, written, events, types) && page.TypePageOf?
    ensures Navigation(docsPath, written[TypePath(docsPath, page.name) := page], events, types + [page.name])
  {
    var path := TypePath(docsPath, page.name);
    var w := written[path := page];
    forall n | n in types + [page.name]
      ensures path in w && w[TypePath(docsPath, n)].TypePageOf? && w[TypePath(docsPath, n)].name == n
    {
      PathsAreDistinct(docsPath, n, page.name);
    }
    forall n | n in events
      ensures EventPath(docsPath, n) in w && w[EventPath(docsPath, n)] == written[EventPath(docsPath, n)]
    {
      PathsAreDistinct(docsPath, n, page.name);
    }
  }

  lemma InitialEventTypeCountsShape()
    ensures KeysOf(InitialEventTypeCounts) == AllEventTypes
    ensures Distinct(InitialEventTypeCounts)
    ensures Sum(InitialEventTypeCounts) == 0
    ensures forall k :: Count(InitialEventTypeCounts, k) == 0
  {
    var t := InitialEventTypeCounts;
    assert t[..1][..0] == t[..0] && t[..2][..1] == t[..1] && t[..3][..2] == t[..2];
    assert t[..4][..3] == t[..3] && t[..5][..4] == t[..4] && t[..5] == t;
    assert Sum(t[..0]) == 0;
    assert Sum(t[..1]) == Sum(t[..0]) + t[0].1;
    assert Sum(t[..2]) == Sum(t[..1]) + t[1].1;
    assert Sum(t[..3]) == Sum(t[..2]) + t[2].1;
    assert Sum(t[..4]) == Sum(t[..3]) + t[3].1;
    assert Sum(t[..5]) == Sum(t[..4]) + t[4].1;
  }

  lemma KindsOfPrefix(rs: seq<Recorded>)
    requires |rs| > 0
    ensures Kinds(rs[..|rs| - 1]) == Kinds(rs)[..|rs| - 1]
    ensures Teams(rs[..|rs| - 1]) == Teams(rs)[..|rs| - 1]
  {
  }

  /**
   * The event-type table always lists the five kinds in declaration order, each with the
   * number of events of that kind, and its total, printed on the summary page, is the number
   * of events handled.
   */
  lemma EventTypeTableCounts(rs: seq<Recorded>, k: EventType)
    ensures KeysOf(EventTypeTable(rs)) == AllEventTypes
    ensures Count(EventTypeTable(rs), k) == Occurrences(Kinds(rs), k)
    ensures Sum(EventTypeTable(rs)) == |rs|
    ensures Distinct(EventTypeTable(rs))
  {
    InitialEventTypeCountsShape();
    TallyKeepsKeys(InitialEventTypeCounts, Kinds(rs));
    TallyCount(InitialEventTypeCounts, Kinds(rs), k);
    TallySum(InitialEventTypeCounts, Kinds(rs));
    TallyDistinct(InitialEventTypeCounts, Kinds(rs));
  }

  /** Each team's count is the number of its events; the team counts add up to all events. */
  lemma TeamTableCounts(rs: seq<Recorded>, team: string)
    ensures Count(TeamTable(rs), team) == Occurrences(Teams(rs), team)
    ensures Sum(TeamTable(rs)) == |rs|
    ensures Distinct(TeamTable(rs))
  {
    TallyCount([], Teams(rs), team);
    TallySum([], Teams(rs));
    TallyDistinct([], Teams(rs));
  }

  /** There is one variant name per Metric event. */
  lemma {:induction false} MetricVariantsCount(rs: seq<Recorded>)
    ensures |MetricVariants(rs)| == Occurrences(Kinds(rs), Metric)
  {
    if |rs| > 0 {
      MetricVariantsCount(rs[..|rs| - 1]);
      KindsOfPrefix(rs);
    }
  }

  /** The metric-variant counts add up to the number of Metric events. */
  lemma MetricTableCounts(rs: seq<Recorded>, variant: string)
    ensures Count(MetricTable(rs), variant) == Occurrences(MetricVariants(rs), variant)
    ensures Sum(MetricTable(rs)) == Occurrences(Kinds(rs), Metric)
    ensures Distinct(MetricTable(rs))
  {
    TallyCount([], MetricVariants(rs), variant);
    TallySum([], MetricVariants(rs));
    TallyDistinct([], MetricVariants(rs));
    MetricVariantsCount(rs);
  }

  /**
   * `maybeIncrementMetricEventTypeCount`: one more event changes the metric-variant table
   * exactly when it is a Metric event, and then by one under its variant's name.
   */
  lemma MetricTableStep(rs: seq<Recorded>, r: Recorded)
    ensures MetricTable(rs + [r]) ==
      if r.kind == Metric then Incremented(MetricTable(rs), VariantName(r.metricEvent)) else MetricTable(rs)
    ensures MetricTable(rs + [r]) != MetricTable(rs) <==> r.kind == Metric
  {
    assert (rs + [r])[..|rs|] == rs;
    if r.kind == Metric {
      TallySnoc([], MetricVariants(rs), VariantName(r.metricEvent));
      assert Sum(MetricTable(rs + [r])) == Sum(MetricTable(rs)) + 1;
    } else {
      assert MetricVariants(rs + [r]) == MetricVariants(rs) + [];
      assert MetricVariants(rs) + [] == MetricVariants(rs);
    }
  }

  /** Each event adds one to its kind's count and one to its team's count. */
  lemma EventStep(rs: seq<Recorded>, r: Recorded)
    ensures EventTypeTable(rs + [r]) == Incremented(EventTypeTable(rs), r.kind)
    ensures TeamTable(rs + [r]) == Incremented(TeamTable(rs), r.team)
  {
    assert Kinds(rs + [r]) == Kinds(rs) + [r.kind];
    assert Teams(rs + [r]) == Teams(rs) + [r.team];
    TallySnoc(InitialEventTypeCounts, Kinds(rs), r.kind);
    TallySnoc([], Teams(rs), r.team);
  }

  // ---------------------------------------------------------------------------------------
  // What the summary page shows
  // ---------------------------------------------------------------------------------------

  lemma EventTypeNamesAreSingleLines(k: EventType)
    ensures SingleLine(EventTypeName(k))
  {
  }

  lemma VariantNamesAreSingleLines(m: MetricEvent)
    ensures SingleLine(VariantName(m))
  {
  }

  lemma TableRowsAreSingleLines<K>(t: Table<K>, keyName: K -> string)
    requires forall i :: 0 <= i < |t| ==> SingleLine(keyName(t[i].0))
    ensures forall i :: 0 <= i < |t| ==> SingleLine(TableRows(t, keyName)[i])
  {
    assert SingleLine("| ") && SingleLine(" | ") && SingleLine(" |");
    forall i | 0 <= i < |t| ensures SingleLine(TableRows(t, keyName)[i]) {
      var digits := NatToString(t[i].1);
      assert forall j :: 0 <= j < |digits| ==> digits[j] != '\n' && digits[j] != '\r';
    }
  }

  lemma {:induction false} MetricVariantsAreSingleLines(rs: seq<Recorded>)
    ensures forall i :: 0 <= i < |MetricVariants(rs)| ==> SingleLine(MetricVariants(rs)[i])
  {
    if |rs| > 0 {
      MetricVariantsAreSingleLines(rs[..|rs| - 1]);
      VariantNamesAreSingleLines(rs[|rs| - 1].metricEvent);
    }
  }

  lemma SummaryRowsAreSingleLines(rs: seq<Recorded>)
    requires forall i :: 0 <= i < |rs| ==> SingleLine(rs[i].team)
    ensures forall i :: 0 <= i < |EventTypeTable(rs)| ==> SingleLine(TableRows(EventTypeTable(rs), EventTypeName)[i])
    ensures forall i :: 0 <= i < |MetricTable(rs)| ==> SingleLine(TableRows(MetricTable(rs), KeyText)[i])
    ensures forall i :: 0 <= i < |TeamTable(rs)| ==> SingleLine(TableRows(TeamTable(rs), KeyText)[i])
  {
    var et, mt, tt := EventTypeTable(rs), MetricTable(rs), TeamTable(rs);
    forall i | 0 <= i < |et| ensures SingleLine(EventTypeName(et[i].0)) {
      EventTypeNamesAreSingleLines(et[i].0);
    }
    TableRowsAreSingleLines(et, EventTypeName);
    MetricVariantsAreSingleLines(rs);
    forall i | 0 <= i < |mt| ensures SingleLine(KeyText(mt[i].0)) {
      assert mt[i].0 in KeysOf(mt);
      TallyKeysFrom([], MetricVariants(rs), mt[i].0);
    }
    TableRowsAreSingleLines(mt, KeyText);
    forall i | 0 <= i < |tt| ensures SingleLine(KeyText(tt[i].0)) {
      assert tt[i].0 in KeysOf(tt);
      TallyKeysFrom([], Teams(rs), tt[i].0);
    }
    TableRowsAreSingleLines(tt, KeyText);
  }

  /**
   * After the events `rs` the summary page has one row per kind, in declaration order, with
   * that kind's count, followed by the total row showing the number of events handled.
   */
  lemma SummaryShowsCounts(rs: seq<Recorded>)
    requires forall i :: 0 <= i < |rs| ==> SingleLine(rs[i].team)
    ensures var ls := Lines(SummaryOf(rs));
      |ls| > 13
      && (forall i :: 0 <= i < 5 ==>
            ls[8 + i] == "| " + EventTypeName(AllEventTypes[i]) + " | "
                         + NatToString(Occurrences(Kinds(rs), AllEventTypes[i])) + " |")
      && ls[13] == TotalRow(|rs|)
  {
    var et := EventTypeTable(rs);
    var eventRows := TableRows(et, EventTypeName);
    SummaryRowsAreSingleLines(rs);
    SummaryPageLines_(eventRows, TableRows(MetricTable(rs), KeyText), TableRows(TeamTable(rs), KeyText), Sum(et));
    EventTypeTableCounts(rs, Metric);
    SummaryFlatRows(eventRows, TableRows(MetricTable(rs), KeyText), TableRows(TeamTable(rs), KeyText), Sum(et));
    forall i | 0 <= i < 5
      ensures et[i].1 == Occurrences(Kinds(rs), AllEventTypes[i])
    {
      assert KeysOf(et)[i] == AllEventTypes[i];
      EventTypeTableCounts(rs, AllEventTypes[i]);
      DistinctLookup(et, i);
    }
  }

  /** Where the event-type rows and the total row sit among the summary page's lines. */
  lemma SummaryFlatRows(eventRows: seq<string>, metricRows: seq<string>, teamRows: seq<string>, total: nat)
    requires |eventRows| >= 1
    ensures var flat := SummaryPageFlat(eventRows, metricRows, teamRows, total);
      |flat| > 8 + |eventRows|
      && flat[8..8 + |eventRows|] == eventRows
      && flat[8 + |eventRows|] == TotalRow(total)
  {
  }

  /** In a table with distinct keys, the count under an entry's key is that entry's count. */
  lemma DistinctLookup<K(!new)>(t: Table<K>, i: nat)
    requires Distinct(t) && i < |t|
    ensures Count(t, t[i].0) == t[i].1
  {
    if i > 0 {
      assert t[1..][i - 1] == t[i];
      DistinctLookup(t[1..], i - 1);
    }
  }

  // ---------------------------------------------------------------------------------------
  // The handler
  // ---------------------------------------------------------------------------------------

  const EventPageRequired := "An event page is required to be a MessageType"
  const TypePageRequired := "A type page is required to be an EnumType"

  class MarkdownSchemaHandler {
    const docsPath: string
    const ext: Externals
    const eventTypeCountMap: CountTable<EventType>
    const metricEventTypeCountMap: CountTable<string>
    const teamEventCountMap: CountTable<string>
    /** The names in `mkdocsConfigEvents` and `mkdocsConfigTypes`. */
    var mkdocsConfigEvents: seq<string>
    var mkdocsConfigTypes: seq<string>
    /** The pages written so far: path to the page last written there. */
    var written: map<string, Page>
    /** The events passed to `updateEventSummaryPage`, in order. */
    ghost var recorded: seq<Recorded>

    /**
     * The tables hold the tallies of the recorded events, and the navigation lists name
     * exactly the event and type pages written.
     */
    ghost predicate Valid()
      reads this`recorded, this`written, this`mkdocsConfigEvents, this`mkdocsConfigTypes
      reads eventTypeCountMap, metricEventTypeCountMap, teamEventCountMap
    {
      CountsValid() && NavigationValid()
    }

    /** The three tables are separate objects holding the tallies of the recorded events. */
    ghost predicate CountsValid()
      reads this`recorded, eventTypeCountMap, metricEventTypeCountMap, teamEventCountMap
    {
      metricEventTypeCountMap != teamEventCountMap
      && eventTypeCountMap as object != metricEventTypeCountMap
      && eventTypeCountMap as object != teamEventCountMap
      && eventTypeCountMap.Valid() && metricEventTypeCountMap.Valid() && teamEventCountMap.Valid()
      && eventTypeCountMap.entries == EventTypeTable(recorded)
      && metricEventTypeCountMap.entries == MetricTable(recorded)
      && teamEventCountMap.entries == TeamTable(recorded)
    }

    /** Every navigation entry has its page, and every event or type page has its entry. */
    ghost predicate NavigationValid()
      reads this`written, this`mkdocsConfigEvents, this`mkdocsConfigTypes
    {
      Navigation(docsPath, written, mkdocsConfigEvents, mkdocsConfigTypes)
    }

    constructor (projectDirectory: string, ext: Externals)
      ensures Valid()
      ensures docsPath == projectDirectory + "/docs" && this.ext == ext
      ensures recorded == [] && mkdocsConfigEvents == [] && mkdocsConfigTypes == [] && written == map[]
      ensures fresh(eventTypeCountMap) && fresh(metricEventTypeCountMap) && fresh(teamEventCountMap)
    {
      docsPath := projectDirectory + "/docs";
      this.ext := ext;
      InitialEventTypeCountsShape();
      eventTypeCountMap := new CountTable(InitialEventTypeCounts);
      metricEventTypeCountMap := new CountTable([]);
      teamEventCountMap := new CountTable([]);
      mkdocsConfigEvents := [];
      mkdocsConfigTypes := [];
      written := map[];
      recorded := [];
    }

    /** `maybeIncrementMetricEventTypeCount`: only a Metric event counts, under its variant's name. */
    method MaybeIncrementMetricEventTypeCount(o: TypeOptions)
      requires metricEventTypeCountMap.Valid()
      modifies metricEventTypeCountMap
      ensures metricEventTypeCountMap.Valid()
      ensures metricEventTypeCountMap.entries ==
        if o.eventType == Some(Metric) then Incremented(old(metricEventTypeCountMap.entries), VariantName(o.metricEvent))
        else old(metricEventTypeCountMap.entries)
    {
      if o.eventType == Some(Metric) {
        var metricEventKey := VariantName(o.metricEvent);
        metricEventTypeCountMap.IncrementCount(metricEventKey);
      }
    }

    /**
     * The three `incrementCount` calls of `updateEventSummaryPage`: the event's kind, its
     * variant if it is a Metric event, and its team.
     */
    method IncrementCounts(t: Type)
      requires Valid()
      requires t.MessageType? && t.options.eventType.Some?
      modifies this`recorded, eventTypeCountMap, metricEventTypeCountMap, teamEventCountMap
      ensures Valid()
      ensures recorded == old(recorded) + [Recorded(t.options.eventType.value, t.options.team, t.options.metricEvent)]
      ensures unchanged(this`written, this`mkdocsConfigEvents, this`mkdocsConfigTypes)
    {
      var eventType := t.options.eventType.value;
      ghost var rs := recorded;
      ghost var r := Recorded(eventType, t.options.team, t.options.metricEvent);
      eventTypeCountMap.IncrementCount(eventType);
      MaybeIncrementMetricEventTypeCount(t.options);
      teamEventCountMap.IncrementCount(t.options.team);
      recorded := rs + [r];
      EventStep(rs, r);
      MetricTableStep(rs, r);
    }

    /**
     * `updateEventSummaryPage`: records the event in the three tables and rewrites the
     * summary page from them.
     */
    method UpdateEventSummaryPage(t: Type)
      requires Valid()
      requires t.MessageType? && t.options.eventType.Some?
      modifies this, eventTypeCountMap, metricEventTypeCountMap, teamEventCountMap
      ensures Valid()
      ensures recorded == old(recorded) + [Recorded(t.options.eventType.value, t.options.team, t.options.metricEvent)]
      ensures written == old(written)[SummaryPath(docsPath) := SummaryAfter(recorded)]
      ensures mkdocsConfigEvents == old(mkdocsConfigEvents) && mkdocsConfigTypes == old(mkdocsConfigTypes)
    {
      IncrementCounts(t);
      WriteSummaryPage();
    }

    /** The write at the end of `updateEventSummaryPage`: the summary rendered from the tables. */
    method WriteSummaryPage()
      requires Valid()
      modifies this`written
      ensures Valid()
      ensures written == old(written)[SummaryPath(docsPath) := SummaryAfter(recorded)]
      ensures unchanged(this`recorded, this`mkdocsConfigEvents, this`mkdocsConfigTypes)
    {
      var page := SummaryPageOf(eventTypeCountMap.entries, metricEventTypeCountMap.entries,
                                teamEventCountMap.entries);
      NavigationAfterSummary(docsPath, written, mkdocsConfigEvents, mkdocsConfigTypes, page);
      written := written[SummaryPath(docsPath) := page];
    }

    /** `writeEventPage`: writes the event's page and adds it to the navigation tree. */
    method WriteEventPage(t: Type, eventType: EventType) returns (path: string)
      requires t.MessageType? && NavigationValid()
      modifies this
      ensures NavigationValid()
      ensures path == EventPath(docsPath, t.name)
      ensures written == old(written)[path := EventPageOf(t.name, t.documentation, t.fields, t.options, eventType)]
      ensures mkdocsConfigEvents == old(mkdocsConfigEvents) + [t.name]
      ensures mkdocsConfigTypes == old(mkdocsConfigTypes) && recorded == old(recorded)
    {
      path := EventPath(docsPath, t.name);
      var page := EventPageOf(t.name, t.documentation, t.fields, t.options, eventType);
      NavigationAfterEventPage(docsPath, written, mkdocsConfigEvents, mkdocsConfigTypes, page);
      written := written[path := page];
      mkdocsConfigEvents := mkdocsConfigEvents + [t.name];
    }

    /** `writeTypePage`: writes the enum's page and adds it to the navigation tree. */
    method WriteTypePage(t: Type) returns (path: string)
      requires t.EnumType? && NavigationValid()
      modifies this
      ensures NavigationValid()
      ensures path == TypePath(docsPath, t.name)
      ensures written == old(written)[path := TypePageOf(t.name, t.documentation, t.constants)]
      ensures mkdocsConfigTypes == old(mkdocsConfigTypes) + [t.name]
      ensures mkdocsConfigEvents == old(mkdocsConfigEvents) && recorded == old(recorded)
    {
      path := TypePath(docsPath, t.name);
      var page := TypePageOf(t.name, t.documentation, t.constants);
      NavigationAfterTypePage(docsPath, written, mkdocsConfigEvents, mkdocsConfigTypes, page);
      written := written[path := page];
      mkdocsConfigTypes := mkdocsConfigTypes + [t.name];
    }

    /**
     * `handle(type)`: an ignored type yields no page; a type with an event kind must be a
     * message and gets an event page after the summary is updated; any other type must be
     * an enum and gets a type page. A type of the wrong shape is an error raised before
     * anything changes.
     */
    method HandleType(t: Type) returns (r: Result<Option<string>, string>)
      requires Valid()
      modifies this, eventTypeCountMap, metricEventTypeCountMap, teamEventCountMap
      ensures Valid()
      ensures t.options.ignoreDocsGeneration ==> r == Ok(None)
      ensures !t.options.ignoreDocsGeneration && t.options.eventType.Some? && !t.MessageType? ==>
        r == Err(EventPageRequired)
      ensures !t.options.ignoreDocsGeneration && t.options.eventType.None? && !t.EnumType? ==>
        r == Err(TypePageRequired)
      ensures !r.Ok? || r.value.None? ==>
        recorded == old(recorded) && written == old(written)
        && mkdocsConfigEvents == old(mkdocsConfigEvents) && mkdocsConfigTypes == old(mkdocsConfigTypes)
      ensures !t.options.ignoreDocsGeneration && t.options.eventType.Some? && t.MessageType? ==>
        var path := EventPath(docsPath, t.name);
        r == Ok(Some(path))
        && recorded == old(recorded) + [Recorded(t.options.eventType.value, t.options.team, t.options.metricEvent)]
        && written == old(written)[SummaryPath(docsPath) := SummaryAfter(recorded)]
             [path := EventPageOf(t.name, t.documentation, t.fields, t.options, t.options.eventType.value)]
        && mkdocsConfigEvents == old(mkdocsConfigEvents) + [t.name]
        && mkdocsConfigTypes == old(mkdocsConfigTypes)
      ensures !t.options.ignoreDocsGeneration && t.options.eventType.None? && t.EnumType? ==>
        var path := TypePath(docsPath, t.name);
        r == Ok(Some(path))
        && recorded == old(recorded)
        && written == old(written)[path := TypePageOf(t.name, t.documentation, t.constants)]
        && mkdocsConfigTypes == old(mkdocsConfigTypes) + [t.name]
        && mkdocsConfigEvents == old(mkdocsConfigEvents)
    {
      if t.options.ignoreDocsGeneration {
        return Ok(None);
      }
      match t.options.eventType
      case Some(eventType) =>
        if !t.MessageType? {
          return Err(EventPageRequired);
        }
        UpdateEventSummaryPage(t);
        var path := WriteEventPage(t, eventType);
        r := Ok(Some(path));
      case None =>
        if !t.EnumType? {
          return Err(TypePageRequired);
        }
        var path := WriteTypePage(t);
        r := Ok(Some(path));
    }
  }

  /**
   * After any series of calls the handler's state is determined by the events it recorded:
   * a kind's count is the number of its events, and the kinds' counts add up to all of them.
   */
  lemma HandlerCounts(h: MarkdownSchemaHandler, k: EventType)
    requires h.Valid()
    ensures Count(h.eventTypeCountMap.entries, k) == Occurrences(Kinds(h.recorded), k)
    ensures Sum(h.eventTypeCountMap.entries) == |h.recorded|
    ensures KeysOf(h.eventTypeCountMap.entries) == AllEventTypes
    ensures Sum(h.teamEventCountMap.entries) == |h.recorded|
    ensures Sum(h.metricEventTypeCountMap.entries) == Occurrences(Kinds(h.recorded), Metric)
  {
    EventTypeTableCounts(h.recorded, k);
    TeamTableCounts(h.recorded, "");
    MetricTableCounts(h.recorded, "");
  }

  /**
   * The navigation lists and the pages agree: a written path holds the event page of `n`
   * exactly when `n` is in the event list and the path is `docs/event/<n>.md`, and likewise
   * for types. So each navigation entry has exactly one page, at its expected path.
   */
  lemma NavigationRoundTrip(h: MarkdownSchemaHandler, n: string, p: string)
    requires h.Valid() && p in h.written
    ensures (h.written[p].EventPageOf? && h.written[p].name == n) <==>
            (n in h.mkdocsConfigEvents && p == EventPath(h.docsPath, n))
    ensures (h.written[p].TypePageOf? && h.written[p].name == n) <==>
            (n in h.mkdocsConfigTypes && p == TypePath(h.docsPath, n))
  {
  }
}
