/**
 * The three pages the handler writes: an event's page, a type's page and the event summary,
 * and the paths they are written to under the docs directory.
 */
module Pages {
  import opened Wrappers
  import opened Text
  import opened Schema
  import opened CountTables
  import opened Sections
  import opened MetricQuery

  // ---------------------------------------------------------------------------------------
  // Paths
  // ---------------------------------------------------------------------------------------

  /** `docsPath / "event/$eventName.md"`. */
  function EventPath(docsPath: string, name: string): string {
    docsPath + "/event/" + name + ".md"
  }

  /** `docsPath / "type/$typeName.md"`. */
  function TypePath(docsPath: string, name: string): string {
    docsPath + "/type/" + name + ".md"
  }

  /** `docsPath / "home/event_summary.md"`. */
  function SummaryPath(docsPath: string): string {
    docsPath + "/home/event_summary.md"
  }

  /**
   * Different events get different pages, different types get different pages, and an event
   * page, a type page and the summary page never share a path.
   */
  lemma PathsAreDistinct(docsPath: string, n1: string, n2: string)
    ensures EventPath(docsPath, n1) == EventPath(docsPath, n2) <==> n1 == n2
    ensures TypePath(docsPath, n1) == TypePath(docsPath, n2) <==> n1 == n2
    ensures EventPath(docsPath, n1) != TypePath(docsPath, n2)
    ensures EventPath(docsPath, n1) != SummaryPath(docsPath)
    ensures TypePath(docsPath, n1) != SummaryPath(docsPath)
  {
    var d := |docsPath|;
    if EventPath(docsPath, n1) == EventPath(docsPath, n2) {
      Between(docsPath + "/event/", ".md", n1, n2);
    }
    if TypePath(docsPath, n1) == TypePath(docsPath, n2) {
      Between(docsPath + "/type/", ".md", n1, n2);
    }
    assert EventPath(docsPath, n1)[d + 1] == 'e' && TypePath(docsPath, n2)[d + 1] == 't';
    assert SummaryPath(docsPath)[d + 1] == 'h';
  }

  // ---------------------------------------------------------------------------------------
  // Event page
  // ---------------------------------------------------------------------------------------

  const EventTypeHeading := "### Event Type"
  const OwnersHeading := "### Owners"
  const PropertiesHeading := "### Properties"
  const AvailabilityHeading := "### Availability"
  const DestinationsHeading := "### Destinations "

  /** `options.eventType?.toEventTypeSection()`, where a missing kind interpolates as `null`. */
  function EventTypeCell(o: TypeOptions): string {
    match o.eventType
    case None => "null"
    case Some(k) => EventTypeLabel(k, o.metricEvent)
  }

  /** The lines of the event page template, with its interpolated values as parameters. */
  function EventTemplate(tags: string, name: string, description: string, kind: string, team: string,
                         properties: string, availability: string, destinations: string): seq<string> {
    [tags, "# " + name, "", description, "", EventTypeHeading, "", kind, "", OwnersHeading, "", team,
     "", PropertiesHeading, "", properties, "", AvailabilityHeading, availability, "",
     DestinationsHeading, "", destinations]
  }

  /** The lines of the event page template. */
  function EventPageLines(name: string, documentation: string, fields: seq<Field>, o: TypeOptions,
                          eventType: EventType, ext: Externals): seq<string> {
    EventTemplate(TagsBlock(o.tags), name, Description(documentation, eventType, o.metricEvent),
                  EventTypeCell(o), o.team,
                  PropertiesSection(o.eventType, o.metricEvent, fields, ext.camelToSnakeCase),
                  Availability(o.versionAvailability),
                  DestinationsSection(eventType, name, o.metricEvent, fields, ext))
  }

  /** The heading line starts in column 0, so `trimIndent()` leaves every other line as it is. */
  lemma EventTemplateTrimmed(tags: string, name: string, description: string, kind: string, team: string,
                             properties: string, availability: string, destinations: string)
    requires '\r' !in tags && '\r' !in name && '\r' !in description && '\r' !in kind && '\r' !in team
    requires '\r' !in properties && '\r' !in availability && '\r' !in destinations
    ensures var ls := EventTemplate(tags, name, description, kind, team, properties, availability, destinations);
      TrimIndent(Template(ls)) == Join("\n", ls)
  {
    var ls := EventTemplate(tags, name, description, kind, team, properties, availability, destinations);
    EventPageHeadingsHaveNoCarriageReturn();
    assert '\r' !in "# ";
    assert ls[1][0] == '#';
    TrimIndentTemplate(ls, 1);
  }

  /** `generateEventPage()`. */
  function EventPage(name: string, documentation: string, fields: seq<Field>, o: TypeOptions,
                     eventType: EventType, ext: Externals): string {
    TrimIndent(Template(EventPageLines(name, documentation, fields, o, eventType, ext)))
  }

  lemma EventTypeHeadingIsSingleLine() ensures SingleLine(EventTypeHeading) { }
  lemma OwnersHeadingIsSingleLine() ensures SingleLine(OwnersHeading) { }
  lemma AvailabilityHeadingIsSingleLine() ensures SingleLine(AvailabilityHeading) { }
  lemma DestinationsHeadingIsSingleLine() ensures SingleLine(DestinationsHeading) { }

  lemma EventPageHeadingsHaveNoCarriageReturn()
    ensures '\r' !in EventTypeHeading && '\r' !in OwnersHeading && '\r' !in PropertiesHeading
    ensures '\r' !in AvailabilityHeading && '\r' !in DestinationsHeading
  {
    EventTypeHeadingIsSingleLine();
    OwnersHeadingIsSingleLine();
    PropertiesHeadingIsSingleLine();
    AvailabilityHeadingIsSingleLine();
    DestinationsHeadingIsSingleLine();
  }

  lemma EventTypeCellHasNoCarriageReturn(o: TypeOptions)
    ensures '\r' !in EventTypeCell(o)
  {
    assert '\r' !in "null" && '\r' !in " : ";
    assert '\r' !in VariantName(o.metricEvent);
    if o.eventType.Some? {
      assert '\r' !in EventTypeName(o.eventType.value);
    }
  }

  /** Every section of the event page is the output of `trimIndent()` or empty. */
  lemma TagsBlockHasNoCarriageReturn(tags: Option<string>)
    ensures '\r' !in TagsBlock(tags)
  {
    if tags.Some? && tags.value != "" {
      TrimIndentHasNoCarriageReturn(Template([FrontMatterFence, TagsKey,
        Join("\n", TagLines(Split(tags.value, ','))), FrontMatterFence]));
    }
  }

  lemma PropertiesSectionHasNoCarriageReturn(kind: Option<EventType>, m: MetricEvent, fields: seq<Field>,
                                             snake: string -> string)
    ensures '\r' !in PropertiesSection(kind, m, fields, snake)
  {
    if kind.Some? {
      if kind.value == Metric {
        TrimIndentHasNoCarriageReturn(Template([MetricPropertiesTable(m), AdditionalParametersSection(fields, snake)]));
      } else {
        TrimIndentHasNoCarriageReturn(Template([FieldTable([], RumRows(fields), NoDataLine)]));
      }
    }
  }

  lemma AvailabilityHasNoCarriageReturn(vs: seq<VersionAvailability>)
    ensures '\r' !in Availability(vs)
  {
    TrimIndentHasNoCarriageReturn(Template(AvailabilityLines(vs)));
  }

  lemma DestinationsSectionHasNoCarriageReturn(k: EventType, name: string, m: MetricEvent, fields: seq<Field>,
                                               ext: Externals)
    ensures '\r' !in DestinationsSection(k, name, m, fields, ext)
  {
    if k == Metric {
      TrimIndentHasNoCarriageReturn(Template([DataDogSection(Metric, name, m, ext.datadogUrl), "",
                                              SnowflakeSection(m, fields, ext.camelToSnakeCase)]));
    } else {
      TrimIndentHasNoCarriageReturn(Template(DataDogLines(k, name, m, ext.datadogUrl)));
    }
  }

  lemma DescriptionHasNoCarriageReturn(documentation: string, k: EventType, m: MetricEvent)
    requires '\r' !in documentation && '\r' !in m.eventDescription
    ensures '\r' !in Description(documentation, k, m)
  {
  }

  /**
   * `trimIndent()` leaves the event page as its template reads: the heading line starts in
   * column 0, so every section and every value appears verbatim, indentation included, in
   * the order tags, heading, description, event type, owners, properties, availability,
   * destinations.
   */
  lemma EventPageShape(name: string, documentation: string, fields: seq<Field>, o: TypeOptions,
                       eventType: EventType, ext: Externals)
    requires '\r' !in name && '\r' !in documentation && '\r' !in o.team
    requires '\r' !in o.metricEvent.eventDescription
    ensures EventPage(name, documentation, fields, o, eventType, ext) ==
      Join("\n", EventPageLines(name, documentation, fields, o, eventType, ext))
  {
    EventTypeCellHasNoCarriageReturn(o);
    DescriptionHasNoCarriageReturn(documentation, eventType, o.metricEvent);
    TagsBlockHasNoCarriageReturn(o.tags);
    PropertiesSectionHasNoCarriageReturn(o.eventType, o.metricEvent, fields, ext.camelToSnakeCase);
    AvailabilityHasNoCarriageReturn(o.versionAvailability);
    DestinationsSectionHasNoCarriageReturn(eventType, name, o.metricEvent, fields, ext);
    EventTemplateTrimmed(TagsBlock(o.tags), name, Description(documentation, eventType, o.metricEvent),
                         EventTypeCell(o), o.team,
                         PropertiesSection(o.eventType, o.metricEvent, fields, ext.camelToSnakeCase),
                         Availability(o.versionAvailability),
                         DestinationsSection(eventType, name, o.metricEvent, fields, ext));
  }

  // ---------------------------------------------------------------------------------------
  // Type page
  // ---------------------------------------------------------------------------------------

  const TypeTableHeader := "| Value | Comment |"

  /** One `` | `constant` | documentation | `` row per constant. */
  function ConstantRows(constants: seq<EnumConstant>): (r: seq<string>)
    ensures |r| == |constants|
  {
    seq(|constants|, i requires 0 <= i < |constants| =>
      "| `" + constants[i].name + "` | " + constants[i].documentation + " |")
  }

  function TypePageLines(name: string, documentation: string, constants: seq<EnumConstant>): seq<string> {
    ["# " + name, "", documentation, "", PropertiesHeading, "", TypeTableHeader, TwoColumnSeparator,
     Join("\n", ConstantRows(constants))]
  }

  /** `generateTypePage()`. */
  function TypePage(name: string, documentation: string, constants: seq<EnumConstant>): string {
    TrimIndent(Template(TypePageLines(name, documentation, constants)))
  }

  lemma PropertiesHeadingIsSingleLine() ensures SingleLine(PropertiesHeading) { }
  lemma TypeTableHeaderIsSingleLine() ensures SingleLine(TypeTableHeader) { }

  lemma TypePageLiteralsAreSingleLines()
    ensures SingleLine("# ") && SingleLine(PropertiesHeading) && SingleLine(TypeTableHeader)
    ensures SingleLine(TwoColumnSeparator) && SingleLine("| `") && SingleLine("` | ") && SingleLine(" |")
  {
    PropertiesHeadingIsSingleLine();
    TypeTableHeaderIsSingleLine();
    TwoColumnSeparatorIsSingleLine();
  }

  /**
   * A type page is its heading, its documentation, the properties heading, the table header,
   * the separator and one row per constant, in order. A type without constants ends with an
   * empty line, as the interpolated empty table is not the template's last line.
   */
  lemma TypePageLines_(name: string, documentation: string, constants: seq<EnumConstant>)
    requires SingleLine(name) && SingleLine(documentation)
    requires forall i :: 0 <= i < |constants| ==>
      SingleLine(constants[i].name) && SingleLine(constants[i].documentation)
    ensures Lines(TypePage(name, documentation, constants)) ==
      ["# " + name, "", documentation, "", PropertiesHeading, "", TypeTableHeader, TwoColumnSeparator]
      + (if |constants| == 0 then [""] else ConstantRows(constants))
  {
    var pre := ["# " + name, "", documentation, "", PropertiesHeading, "", TypeTableHeader, TwoColumnSeparator];
    var rows := ConstantRows(constants);
    TypePageLiteralsAreSingleLines();
    assert forall i :: 0 <= i < |rows| ==> SingleLine(rows[i]);
    if |rows| == 0 {
      assert TypePageLines(name, documentation, constants) == pre + [""];
      assert (pre + [""])[0][0] == '#';
      TrimIndentTemplateLines(pre + [""], 0);
    } else {
      JoinSpliced("\n", pre, rows, []);
      assert pre + [Join("\n", rows)] + [] == TypePageLines(name, documentation, constants);
      assert pre + rows + [] == pre + rows;
      assert (pre + rows)[0][0] == '#';
      TrimIndentTemplateLines(pre + rows, 0);
    }
  }

  // ---------------------------------------------------------------------------------------
  // Event summary page
  // ---------------------------------------------------------------------------------------

  const SummaryTitle := "# Event Summary"
  const SummaryIntro := "This page includes a summary " + "of all events organized by " + "event type and owners."
  const EventsByTypeHeading := "## Events by Type"
  const MetricEventsByTypeHeading := "## Metric Events by Type"
  const EventsByTeamHeading := "## Events by Team"
  const CountHeader := "| Event Type | Count | "
  const CountSeparator := "|------------|-------|"
  const TeamHeader := "| Team\t | Count\t | "
  const TeamSeparator := "|--------|-----------|"

  /** `map { "| ${it.key} | ${it.value} |" }`: one row per entry, in the table's order. */
  function TableRows<K>(t: Table<K>, keyName: K -> string): (r: seq<string>)
    ensures |r| == |t|
  {
    seq(|t|, i requires 0 <= i < |t| => "| " + keyName(t[i].0) + " | " + NatToString(t[i].1) + " |")
  }

  /** The total row. */
  function TotalRow(total: nat): string {
    "| **Total**   | **" + NatToString(total) + "** |"
  }

  /** The template's lines before the event-type rows. */
  const SummaryTop := [SummaryTitle, "", SummaryIntro, "", EventsByTypeHeading, "", CountHeader, CountSeparator]

  /** The template's lines from the total row to the metric-variant rows. */
  function MetricTableTop(total: nat): seq<string> {
    [TotalRow(total), "", MetricEventsByTypeHeading, "", CountHeader, CountSeparator]
  }

  /** The template's lines between the metric-variant rows and the team rows. */
  const TeamTableTop := ["", EventsByTeamHeading, "", TeamHeader, TeamSeparator]

  /** The summary template, each table's rows joined into one interpolated line. */
  function SummaryPageLines(eventRows: seq<string>, metricRows: seq<string>, teamRows: seq<string>,
                            total: nat): seq<string> {
    SummaryTop + [Join("\n", eventRows)] + MetricTableTop(total) + [Join("\n", metricRows)]
    + TeamTableTop + [Join("\n", teamRows)]
  }

  /** The text `updateEventSummaryPage()` writes. */
  function SummaryPage(eventRows: seq<string>, metricRows: seq<string>, teamRows: seq<string>,
                       total: nat): string {
    TrimIndent(Template(SummaryPageLines(eventRows, metricRows, teamRows, total)))
  }

  /** Rows spliced into a template: an empty table leaves an empty line. */
  function RowsOrBlank(rows: seq<string>): seq<string> {
    if |rows| == 0 then [""] else rows
  }

  lemma JoinRowsOrBlank(rows: seq<string>)
    ensures [Join("\n", rows)] == [Join("\n", RowsOrBlank(rows))]
    ensures |RowsOrBlank(rows)| >= 1
  {
  }

  lemma SummaryTitleIsSingleLine() ensures SingleLine(SummaryTitle) { }
  lemma EventsByTypeHeadingIsSingleLine() ensures SingleLine(EventsByTypeHeading) { }
  lemma EventsByTeamHeadingIsSingleLine() ensures SingleLine(EventsByTeamHeading) { }
  lemma MetricEventsByTypeHeadingIsSingleLine() ensures SingleLine(MetricEventsByTypeHeading) { }
  lemma CountHeaderIsSingleLine() ensures SingleLine(CountHeader) { }
  lemma CountSeparatorIsSingleLine() ensures SingleLine(CountSeparator) { }
  lemma TeamHeaderIsSingleLine() ensures SingleLine(TeamHeader) { }
  lemma TeamSeparatorIsSingleLine() ensures SingleLine(TeamSeparator) { }
  lemma SummaryIntroStartIsSingleLine() ensures SingleLine("This page includes a summary ") { }
  lemma SummaryIntroMiddleIsSingleLine() ensures SingleLine("of all events organized by ") { }
  lemma SummaryIntroEndIsSingleLine() ensures SingleLine("event type and owners.") { }
  lemma TotalCellIsSingleLine() ensures SingleLine("| **Total**   | **") { }

  lemma SummaryIntroIsSingleLine()
    ensures SingleLine(SummaryIntro)
  {
    SummaryIntroStartIsSingleLine();
    SummaryIntroMiddleIsSingleLine();
    SummaryIntroEndIsSingleLine();
  }

  lemma TotalRowIsSingleLine(total: nat)
    ensures SingleLine(TotalRow(total))
  {
    TotalCellIsSingleLine();
    assert SingleLine("** |");
    var digits := NatToString(total);
    assert forall i :: 0 <= i < |digits| ==> digits[i] != '\n' && digits[i] != '\r';
  }

  lemma SummaryLiteralsAreSingleLines(total: nat)
    ensures SingleLine(SummaryTitle) && SingleLine(SummaryIntro) && SingleLine(EventsByTypeHeading)
    ensures SingleLine(EventsByTeamHeading) && SingleLine(MetricEventsByTypeHeading)
    ensures SingleLine(CountHeader) && SingleLine(CountSeparator) && SingleLine(TeamHeader)
    ensures SingleLine(TeamSeparator) && SingleLine(TotalRow(total))
  {
    SummaryTitleIsSingleLine();
    SummaryIntroIsSingleLine();
    EventsByTypeHeadingIsSingleLine();
    EventsByTeamHeadingIsSingleLine();
    MetricEventsByTypeHeadingIsSingleLine();
    CountHeaderIsSingleLine();
    CountSeparatorIsSingleLine();
    TeamHeaderIsSingleLine();
    TeamSeparatorIsSingleLine();
    TotalRowIsSingleLine(total);
  }

  /** The summary template with its three tables written out line by line. */
  function SummaryPageFlat(eventRows: seq<string>, metricRows: seq<string>, teamRows: seq<string>,
                           total: nat): seq<string> {
    SummaryTop + RowsOrBlank(eventRows) + MetricTableTop(total) + RowsOrBlank(metricRows)
    + TeamTableTop + RowsOrBlank(teamRows)
  }

  lemma SummaryPageSpliced(eventRows: seq<string>, metricRows: seq<string>, teamRows: seq<string>, total: nat)
    ensures Join("\n", SummaryPageLines(eventRows, metricRows, teamRows, total)) ==
      Join("\n", SummaryPageFlat(eventRows, metricRows, teamRows, total))
  {
    JoinRowsOrBlank(eventRows);
    JoinRowsOrBlank(metricRows);
    JoinRowsOrBlank(teamRows);
    JoinSplicedThree("\n", SummaryTop, RowsOrBlank(eventRows), MetricTableTop(total), RowsOrBlank(metricRows),
                     TeamTableTop, RowsOrBlank(teamRows));
  }

  /**
   * The summary page lists the event-type rows, the total row, the metric-variant rows and
   * the team rows, each under its heading and header, in their tables' order; an empty table,
   * the team table included, leaves one empty line.
   */
  lemma SummaryPageLines_(eventRows: seq<string>, metricRows: seq<string>, teamRows: seq<string>, total: nat)
    requires forall i :: 0 <= i < |eventRows| ==> SingleLine(eventRows[i])
    requires forall i :: 0 <= i < |metricRows| ==> SingleLine(metricRows[i])
    requires forall i :: 0 <= i < |teamRows| ==> SingleLine(teamRows[i])
    ensures Lines(SummaryPage(eventRows, metricRows, teamRows, total)) ==
      SummaryPageFlat(eventRows, metricRows, teamRows, total)
  {
    var flat := SummaryPageFlat(eventRows, metricRows, teamRows, total);
    SummaryPageSpliced(eventRows, metricRows, teamRows, total);
    assert Template(SummaryPageLines(eventRows, metricRows, teamRows, total)) == Template(flat);
    SummaryFlatIsSingleLines(eventRows, metricRows, teamRows, total);
    assert flat[0] == SummaryTitle && SummaryTitle[0] == '#';
    TrimIndentTemplateLines(flat, 0);
  }

  lemma SummaryFlatIsSingleLines(eventRows: seq<string>, metricRows: seq<string>, teamRows: seq<string>,
                                 total: nat)
    requires AllSingleLines(eventRows) && AllSingleLines(metricRows) && AllSingleLines(teamRows)
    ensures AllSingleLines(SummaryPageFlat(eventRows, metricRows, teamRows, total))
  {
    var e, m, t := RowsOrBlank(eventRows), RowsOrBlank(metricRows), RowsOrBlank(teamRows);
    var p1, p2, p3 := SummaryTop, MetricTableTop(total), TeamTableTop;
    SummaryLiteralsAreSingleLines(total);
    assert AllSingleLines(p1) && AllSingleLines(p2) && AllSingleLines(p3);
    assert AllSingleLines(e) && AllSingleLines(m) && AllSingleLines(t);
    AllSingleLinesAppend(p1, e);
    AllSingleLinesAppend(p1 + e, p2);
    AllSingleLinesAppend(p1 + e + p2, m);
    AllSingleLinesAppend(p1 + e + p2 + m, p3);
    AllSingleLinesAppend(p1 + e + p2 + m + p3, t);
  }
}
