/**
 * The small renderers of an event page: the tags front matter, the event-type label, the
 * description fallback, the property tables, the availability table and the destinations.
 * Each is a total function over the schema's values. The literal lines of the Kotlin
 * templates are named constants, so that the facts about them are proved once.
 */
module Sections {
  import opened Wrappers
  import opened Text
  import opened Schema
  import opened MetricQuery

  // ---------------------------------------------------------------------------------------
  // Availability
  // ---------------------------------------------------------------------------------------

  datatype Platform = Android | Ios

  predicate OnPlatform(v: VersionAvailability, p: Platform) {
    match p
    case Android => v.AndroidVersionAvailability?
    case Ios => v.IosVersionAvailability?
  }

  /** `versionAvailability.find { it is … }`: the first record of the platform, if any. */
  function FindFirst(vs: seq<VersionAvailability>, p: Platform): (r: Option<VersionAvailability>)
    ensures r.None? <==> forall i :: 0 <= i < |vs| ==> !OnPlatform(vs[i], p)
    ensures r.Some? ==> OnPlatform(r.value, p)
  {
    if |vs| == 0 then None
    else if OnPlatform(vs[0], p) then Some(vs[0])
    else
      var r := FindFirst(vs[1..], p);
      assert forall i :: 1 <= i < |vs| ==> vs[i] == vs[1..][i - 1];
      r
  }

  /** The record `find` returns is the one at the first index that holds the platform. */
  lemma {:induction false} FindFirstIsFirst(vs: seq<VersionAvailability>, p: Platform, i: nat)
    requires i < |vs| && OnPlatform(vs[i], p)
    requires forall j :: 0 <= j < i ==> !OnPlatform(vs[j], p)
    ensures FindFirst(vs, p) == Some(vs[i])
  {
    if i > 0 {
      FindFirstIsFirst(vs[1..], p, i - 1);
    }
  }

  /** `toVersionsColumn()`. */
  function VersionsColumn(v: Option<VersionAvailability>): string {
    match v
    case None => ":warning:"
    case Some(a) =>
      if a.lastVersion.Some? then a.firstVersion + " - " + a.lastVersion.value else a.firstVersion
  }

  const AvailabilityHeader := "| Platform | Version(s)"
  const TwoColumnSeparator := "| --- | --- |"

  /** The lines of the availability template. */
  function AvailabilityLines(vs: seq<VersionAvailability>): seq<string> {
    [AvailabilityHeader, TwoColumnSeparator,
     "| Android | " + VersionsColumn(FindFirst(vs, Android)) + " |",
     "| iOS | " + VersionsColumn(FindFirst(vs, Ios)) + " |"]
  }

  /** `addAvailability()`. */
  function Availability(vs: seq<VersionAvailability>): string {
    TrimIndent(Template(AvailabilityLines(vs)))
  }

  predicate VersionsAreSingleLines(vs: seq<VersionAvailability>) {
    forall i :: 0 <= i < |vs| ==>
      SingleLine(vs[i].firstVersion) && (vs[i].lastVersion.Some? ==> SingleLine(vs[i].lastVersion.value))
  }

  lemma VersionsColumnIsSingleLine(vs: seq<VersionAvailability>, p: Platform)
    requires VersionsAreSingleLines(vs)
    ensures SingleLine(VersionsColumn(FindFirst(vs, p)))
  {
    var r := FindFirst(vs, p);
    if r.Some? {
      assert r.value in vs by {
        FindFirstIn(vs, p);
      }
    }
  }

  lemma {:induction false} FindFirstIn(vs: seq<VersionAvailability>, p: Platform)
    ensures FindFirst(vs, p).Some? ==> FindFirst(vs, p).value in vs
  {
    if |vs| > 0 && !OnPlatform(vs[0], p) {
      FindFirstIn(vs[1..], p);
    }
  }

  lemma AvailabilityHeaderIsSingleLine() ensures SingleLine(AvailabilityHeader) { }
  lemma TwoColumnSeparatorIsSingleLine() ensures SingleLine(TwoColumnSeparator) { }
  lemma AndroidCellIsSingleLine() ensures SingleLine("| Android | ") { }
  lemma IosCellIsSingleLine() ensures SingleLine("| iOS | ") { }

  lemma AvailabilityLiteralsAreSingleLines()
    ensures SingleLine(AvailabilityHeader) && SingleLine(TwoColumnSeparator)
    ensures SingleLine("| Android | ") && SingleLine("| iOS | ") && SingleLine(" |")
  {
    AvailabilityHeaderIsSingleLine();
    TwoColumnSeparatorIsSingleLine();
    AndroidCellIsSingleLine();
    IosCellIsSingleLine();
  }

  /**
   * The availability table has exactly four lines: the header, the separator, the Android row
   * and the iOS row. A row shows `:warning:` when the platform has no record, otherwise the
   * first record of the platform, as `first - last` when it has a last version and as `first`
   * when it has not.
   */
  lemma AvailabilityTable(vs: seq<VersionAvailability>)
    requires VersionsAreSingleLines(vs)
    ensures Lines(Availability(vs)) == AvailabilityLines(vs)
    ensures |Lines(Availability(vs))| == 4
  {
    var ls := AvailabilityLines(vs);
    AvailabilityLiteralsAreSingleLines();
    VersionsColumnIsSingleLine(vs, Android);
    VersionsColumnIsSingleLine(vs, Ios);
    assert ls[0][0] == '|';
    TrimIndentTemplateLines(ls, 0);
  }

  /** The column reads back the record: `":warning:"`, `first - last` or `first`. */
  lemma VersionsColumnCases(vs: seq<VersionAvailability>, p: Platform, i: nat)
    requires i < |vs| && OnPlatform(vs[i], p)
    requires forall j :: 0 <= j < i ==> !OnPlatform(vs[j], p)
    ensures vs[i].lastVersion.Some? ==>
      VersionsColumn(FindFirst(vs, p)) == vs[i].firstVersion + " - " + vs[i].lastVersion.value
    ensures vs[i].lastVersion.None? ==> VersionsColumn(FindFirst(vs, p)) == vs[i].firstVersion
  {
    FindFirstIsFirst(vs, p, i);
  }

  // ---------------------------------------------------------------------------------------
  // Tags front matter
  // ---------------------------------------------------------------------------------------

  const FrontMatterFence := "---"
  const TagsKey := "tags:"

  /** One `- <trimmed piece>` line per piece. */
  function TagLines(pieces: seq<string>): (r: seq<string>)
    ensures |r| == |pieces|
  {
    seq(|pieces|, i requires 0 <= i < |pieces| => "- " + Trim(pieces[i]))
  }

  /** `toTagsBlock()`, given the file's `tags` option. */
  function TagsBlock(tags: Option<string>): string {
    if tags.None? || tags.value == "" then ""
    else
      TrimIndent(Template([FrontMatterFence, TagsKey, Join("\n", TagLines(Split(tags.value, ','))), FrontMatterFence]))
  }

  lemma TagLinesAreSingleLines(s: string)
    requires SingleLine(s)
    ensures forall i :: 0 <= i < |TagLines(Split(s, ','))| ==> SingleLine(TagLines(Split(s, ','))[i])
  {
    var ps := Split(s, ',');
    CharNotInSplit(s, ',', '\n');
    CharNotInSplit(s, ',', '\r');
    assert SingleLine("- ");
    forall i | 0 <= i < |ps| ensures SingleLine("- " + Trim(ps[i])) {
      assert SingleLine(Trim(ps[i]));
    }
  }

  /**
   * No tags option, or an empty one, gives no front matter. Otherwise the front matter is a
   * `---` line, a `tags:` line, one `- <piece>` line per comma-separated piece with the piece
   * trimmed, in order, and a closing `---` line.
   */
  lemma TagsBlockLines(tags: Option<string>)
    ensures tags.None? || tags.value == "" ==> TagsBlock(tags) == ""
    ensures tags.Some? && tags.value != "" && SingleLine(tags.value) ==>
      Lines(TagsBlock(tags)) == [FrontMatterFence, TagsKey] + TagLines(Split(tags.value, ',')) + [FrontMatterFence]
  {
    if tags.Some? && tags.value != "" && SingleLine(tags.value) {
      var tl := TagLines(Split(tags.value, ','));
      var ls := [FrontMatterFence, TagsKey, Join("\n", tl), FrontMatterFence];
      var flat := [FrontMatterFence, TagsKey] + tl + [FrontMatterFence];
      TagLinesAreSingleLines(tags.value);
      assert SingleLine(FrontMatterFence) && SingleLine(TagsKey);
      JoinSpliced("\n", [FrontMatterFence, TagsKey], tl, [FrontMatterFence]);
      assert ls == [FrontMatterFence, TagsKey] + [Join("\n", tl)] + [FrontMatterFence];
      assert Template(ls) == Template(flat);
      assert flat[0][0] == '-';
      TrimIndentTemplateLines(flat, 0);
    }
  }

  // ---------------------------------------------------------------------------------------
  // Event type and description
  // ---------------------------------------------------------------------------------------

  /** `toEventTypeSection()`: `Metric : <variant>` for a Metric event, else the kind's name. */
  function EventTypeLabel(k: EventType, m: MetricEvent): string {
    if k == Metric then EventTypeName(k) + " : " + VariantName(m) else EventTypeName(k)
  }

  /** The label tells the kind apart, and for Metric events also the variant. */
  lemma EventTypeLabelInjective(k1: EventType, m1: MetricEvent, k2: EventType, m2: MetricEvent)
    ensures EventTypeLabel(k1, m1) == EventTypeLabel(k2, m2) <==>
      k1 == k2 && (k1 == Metric ==> VariantName(m1) == VariantName(m2))
  {
    var l1, l2 := EventTypeLabel(k1, m1), EventTypeLabel(k2, m2);
    if l1 == l2 {
      assert |l1| == |l2|;
      if k1 == Metric && k2 == Metric {
        assert VariantName(m1) == l1[9..] && VariantName(m2) == l2[9..];
        var v1, v2 := VariantName(m1), VariantName(m2);
        assert |v1| == |v2| && v1[0] == v2[0];
      }
    } else if k1 == k2 && k1 == Metric {
      assert VariantName(m1) != VariantName(m2);
    }
  }

  /** The page's description: the documentation, or for a Metric event without one, the event description. */
  function Description(documentation: string, k: EventType, m: MetricEvent): string {
    if documentation != "" then documentation else if k == Metric then m.eventDescription else ""
  }

  /**
   * The documentation wins when there is any. Without it a Metric event shows its
   * `eventDescription`, and every other kind shows nothing.
   */
  lemma DescriptionFallback(documentation: string, k: EventType, m: MetricEvent)
    ensures documentation != "" ==> Description(documentation, k, m) == documentation
    ensures Description(documentation, k, m) == "" <==>
      documentation == "" && (k != Metric || m.eventDescription == "")
    ensures documentation == "" && k == Metric ==> Description(documentation, k, m) == m.eventDescription
  {
  }

  // ---------------------------------------------------------------------------------------
  // Field tables
  // ---------------------------------------------------------------------------------------

  /** `type?.toTypeNameOrLink()`, where a missing type interpolates as `null`. */
  function TypeCell(t: Option<TypeRef>): string {
    match t
    case None => "null"
    case Some(r) =>
      if r.builtIn then "`" + r.simpleName + "`"
      else "[`" + r.simpleName + "`](/type/" + r.simpleName + ")"
  }

  /** A row of a field table, showing the field under `shownName`. */
  function FieldRow(f: Field, shownName: string): string {
    "| " + Lower(f.labelName.GetOr("")) + " | " + TypeCell(f.fieldType) + " | `" + shownName + "` | "
      + f.documentation + " |"
  }

  /** The rows of the RUM property table: one per field, showing its name. */
  function RumRows(fields: seq<Field>): (r: seq<string>)
    ensures |r| == |fields|
  {
    seq(|fields|, i requires 0 <= i < |fields| => FieldRow(fields[i], fields[i].name))
  }

  /** The rows of the additional-parameters table: one per field, showing its snake-case name. */
  function AdditionalRows(fields: seq<Field>, snakeCase: string -> string): (r: seq<string>)
    ensures |r| == |fields|
  {
    seq(|fields|, i requires 0 <= i < |fields| => FieldRow(fields[i], snakeCase(fields[i].name)))
  }

  const NoDataLine := "No data included with event"
  const FieldTableHeader := "| Label | Type | Name | Comment |"
  const FourColumnSeparator := "| --- | --- | --- | --- |"
  const AdditionalParametersHeading := "### Additional Parameters"
  const NoAdditionalParametersLine := "No additional parameters " + "are included with this event."

  /** The inner template of a field table, or of its "no fields" note. */
  function FieldTable(heading: seq<string>, rows: seq<string>, none: string): string {
    if |rows| == 0 then Template([none])
    else Template(heading + [FieldTableHeader, FourColumnSeparator, Join("\n", rows)])
  }

  /** `addRumProperties()`. */
  function RumProperties(fields: seq<Field>): string {
    TrimIndent(Template([FieldTable([], RumRows(fields), NoDataLine)]))
  }

  /** `toAdditionalParametersSection()`. */
  function AdditionalParametersSection(fields: seq<Field>, snakeCase: string -> string): string {
    TrimIndent(Template([FieldTable([AdditionalParametersHeading], AdditionalRows(fields, snakeCase),
                                    NoAdditionalParametersLine)]))
  }

  predicate FieldIsSingleLine(f: Field) {
    && SingleLine(f.name) && SingleLine(f.documentation)
    && (f.labelName.Some? ==> SingleLine(f.labelName.value))
    && (f.fieldType.Some? ==> SingleLine(f.fieldType.value.simpleName))
  }

  lemma FieldRowLiteralsAreSingleLines()
    ensures SingleLine("| ") && SingleLine(" | ") && SingleLine(" | `") && SingleLine("` | ")
    ensures SingleLine(" |") && SingleLine("null") && SingleLine("`") && SingleLine("[`")
    ensures SingleLine("`](/type/") && SingleLine(")")
  {
  }

  lemma FieldRowIsSingleLine(f: Field, shownName: string)
    requires FieldIsSingleLine(f) && SingleLine(shownName)
    ensures SingleLine(FieldRow(f, shownName))
  {
    FieldRowLiteralsAreSingleLines();
    LowerKeeps(f.labelName.GetOr(""), '\n');
    LowerKeeps(f.labelName.GetOr(""), '\r');
  }

  lemma NoDataLineIsSingleLine() ensures SingleLine(NoDataLine) { }
  lemma FieldTableHeaderIsSingleLine() ensures SingleLine(FieldTableHeader) { }
  lemma FourColumnSeparatorIsSingleLine() ensures SingleLine(FourColumnSeparator) { }
  lemma AdditionalParametersHeadingIsSingleLine() ensures SingleLine(AdditionalParametersHeading) { }
  lemma NoAdditionalParametersStartIsSingleLine() ensures SingleLine("No additional parameters ") { }
  lemma NoAdditionalParametersEndIsSingleLine() ensures SingleLine("are included with this event.") { }

  lemma FieldTableLiteralsAreSingleLines()
    ensures SingleLine(NoDataLine) && SingleLine(FieldTableHeader) && SingleLine(FourColumnSeparator)
    ensures SingleLine(AdditionalParametersHeading)
  {
    NoDataLineIsSingleLine();
    FieldTableHeaderIsSingleLine();
    FourColumnSeparatorIsSingleLine();
    AdditionalParametersHeadingIsSingleLine();
  }

  lemma NoAdditionalParametersLineIsSingleLine()
    ensures SingleLine(NoAdditionalParametersLine)
  {
    NoAdditionalParametersStartIsSingleLine();
    NoAdditionalParametersEndIsSingleLine();
  }

  /** A field table without rows is its note, framed by two empty lines. */
  lemma EmptyFieldTableLines(heading: seq<string>, none: string)
    requires none == NoDataLine || none == NoAdditionalParametersLine
    ensures Lines(TrimIndent(Template([FieldTable(heading, [], none)]))) == ["", none, ""]
  {
    NoDataLineIsSingleLine();
    NoAdditionalParametersLineIsSingleLine();
    assert none[0] == 'N';
    NestedTemplateLines([none]);
    assert [""] + [none] + [""] == ["", none, ""];
  }

  /** A field table with rows is its heading, column header, separator and rows, framed by two empty lines. */
  lemma FilledFieldTableLines(heading: seq<string>, rows: seq<string>, none: string)
    requires |heading| <= 1 && (|heading| == 1 ==> heading[0] == AdditionalParametersHeading)
    requires |rows| >= 1 && forall i :: 0 <= i < |rows| ==> SingleLine(rows[i])
    ensures Lines(TrimIndent(Template([FieldTable(heading, rows, none)]))) ==
      [""] + heading + [FieldTableHeader, FourColumnSeparator] + rows + [""]
  {
    var head := heading + [FieldTableHeader, FourColumnSeparator];
    FieldTableLiteralsAreSingleLines();
    if |heading| == 0 {
      assert head == [FieldTableHeader, FourColumnSeparator];
      assert head[0][0] == '|';
    } else {
      assert head == [AdditionalParametersHeading, FieldTableHeader, FourColumnSeparator];
      assert head[0][0] == '#';
    }
    assert heading + [FieldTableHeader, FourColumnSeparator, Join("\n", rows)] == head + [Join("\n", rows)];
    FramedTableLines(head, rows);
  }

  /**
   * A field table after `trimIndent()`: an empty line, the note for no rows, an empty line;
   * or an empty line, the heading, the column header, the separator, one line per row in
   * order, and an empty line.
   */
  lemma FieldTableLines(heading: seq<string>, rows: seq<string>, none: string)
    requires |heading| <= 1 && (|heading| == 1 ==> heading[0] == AdditionalParametersHeading)
    requires forall i :: 0 <= i < |rows| ==> SingleLine(rows[i])
    requires none == NoDataLine || none == NoAdditionalParametersLine
    ensures Lines(TrimIndent(Template([FieldTable(heading, rows, none)]))) ==
      if |rows| == 0 then ["", none, ""]
      else [""] + heading + [FieldTableHeader, FourColumnSeparator] + rows + [""]
  {
    if |rows| == 0 {
      EmptyFieldTableLines(heading, none);
    } else {
      FilledFieldTableLines(heading, rows, none);
    }
  }

  /**
   * The RUM properties say "No data included with event" when the message has no fields, and
   * otherwise hold the column header, the separator and one row per field, in field order.
   */
  lemma RumPropertiesLines(fields: seq<Field>)
    requires forall i :: 0 <= i < |fields| ==> FieldIsSingleLine(fields[i])
    ensures Lines(RumProperties(fields)) ==
      if |fields| == 0 then ["", NoDataLine, ""]
      else ["", FieldTableHeader, FourColumnSeparator] + RumRows(fields) + [""]
  {
    var rows := RumRows(fields);
    forall i | 0 <= i < |rows| ensures SingleLine(rows[i]) {
      FieldRowIsSingleLine(fields[i], fields[i].name);
    }
    if |rows| == 0 {
      EmptyFieldTableLines([], NoDataLine);
    } else {
      FilledFieldTableLines([], rows, NoDataLine);
      assert [""] + [] + [FieldTableHeader, FourColumnSeparator] == ["", FieldTableHeader, FourColumnSeparator];
    }
  }

  /**
   * The additional parameters say that none are included when the message has no fields, and
   * otherwise hold the heading, the column header, the separator and one row per field, in
   * field order, each showing the field's snake-case name.
   */
  lemma AdditionalParametersSectionLines(fields: seq<Field>, snakeCase: string -> string)
    requires forall i :: 0 <= i < |fields| ==>
      FieldIsSingleLine(fields[i]) && SingleLine(snakeCase(fields[i].name))
    ensures Lines(AdditionalParametersSection(fields, snakeCase)) ==
      if |fields| == 0 then ["", NoAdditionalParametersLine, ""]
      else ["", AdditionalParametersHeading, FieldTableHeader, FourColumnSeparator]
             + AdditionalRows(fields, snakeCase) + [""]
  {
    var rows := AdditionalRows(fields, snakeCase);
    forall i | 0 <= i < |rows| ensures SingleLine(rows[i]) {
      FieldRowIsSingleLine(fields[i], snakeCase(fields[i].name));
    }
    if |rows| == 0 {
      EmptyFieldTableLines([AdditionalParametersHeading], NoAdditionalParametersLine);
    } else {
      FilledFieldTableLines([AdditionalParametersHeading], rows, NoAdditionalParametersLine);
      assert [""] + [AdditionalParametersHeading] + [FieldTableHeader, FourColumnSeparator] ==
        ["", AdditionalParametersHeading, FieldTableHeader, FourColumnSeparator];
    }
  }

  // ---------------------------------------------------------------------------------------
  // Metric properties
  // ---------------------------------------------------------------------------------------

  const MetricPropertiesHeader := "| Square One Property | Value |"

  /** The rows of each variant's property table, as (property, value), in the template's order. */
  function PropertyRows(m: MetricEvent): seq<(string, string)> {
    match m
    case LoadFeature(featureName, featureId, featureFormat, eventDescription, featureParentId) =>
      [("feature_name", featureName), ("feature_id", featureId), ("feature_format", featureFormat),
       ("event_description", eventDescription), ("feature_parent_id", featureParentId.GetOr(""))]
    case ClickFeature(featureName, featureId, featureFormat, eventDescription, actionItem, subActionItem,
                      featureParentId) =>
      [("feature_name", featureName), ("feature_id", featureId), ("feature_format", featureFormat),
       ("event_description", eventDescription), ("action_item", actionItem),
       ("sub_action_item", subActionItem.GetOr("")), ("feature_parent_id", featureParentId.GetOr(""))]
    case EncounterError(featureName, featureId, featureParentId, featureFormat, eventDescription,
                        eventCalled, errorType, errorMessage) =>
      [("feature_name", featureName), ("feature_id", featureId),
       ("feature_parent_id", featureParentId.GetOr("")), ("feature_format", featureFormat),
       ("event_description", eventDescription), ("event_called", eventCalled),
       ("error_type", errorType), ("error_message", errorMessage)]
    case ViewFeature(featureName, featureId, featureFormat, eventDescription, featureParentId, isDefaultView) =>
      [("feature_name", featureName), ("feature_id", featureId), ("feature_format", featureFormat),
       ("event_description", eventDescription), ("feature_parent_id", featureParentId.GetOr("")),
       ("is_default_view", BoolString(isDefaultView))]
  }

  /** One `` `property` | value | `` line per row. */
  function PropertyLines(rows: seq<(string, string)>): (r: seq<string>)
    ensures |r| == |rows|
  {
    seq(|rows|, i requires 0 <= i < |rows| => "`" + rows[i].0 + "` | " + rows[i].1 + " |")
  }

  /** `toMetricPropertiesSection()`: the variant's own `to…PropertiesSection()`. */
  function MetricPropertiesTable(m: MetricEvent): string {
    TrimIndent(Template([MetricPropertiesHeader, TwoColumnSeparator] + PropertyLines(PropertyRows(m))))
  }

  /** `addMetricProperties()` for a Metric event. */
  function MetricProperties(m: MetricEvent, fields: seq<Field>, snakeCase: string -> string): string {
    TrimIndent(Template([MetricPropertiesTable(m), AdditionalParametersSection(fields, snakeCase)]))
  }

  /** The values a variant's table shows hold no line break. */
  predicate MetricValuesAreSingleLines(m: MetricEvent) {
    forall i :: 0 <= i < |PropertyRows(m)| ==> SingleLine(PropertyRows(m)[i].1)
  }

  lemma FeatureNameIsSingleLine() ensures SingleLine("feature_name") { }
  lemma FeatureIdIsSingleLine() ensures SingleLine("feature_id") { }
  lemma FeatureFormatIsSingleLine() ensures SingleLine("feature_format") { }
  lemma EventDescriptionIsSingleLine() ensures SingleLine("event_description") { }
  lemma FeatureParentIdIsSingleLine() ensures SingleLine("feature_parent_id") { }
  lemma ActionItemIsSingleLine() ensures SingleLine("action_item") { }
  lemma SubActionItemIsSingleLine() ensures SingleLine("sub_action_item") { }
  lemma EventCalledIsSingleLine() ensures SingleLine("event_called") { }
  lemma ErrorTypeIsSingleLine() ensures SingleLine("error_type") { }
  lemma ErrorMessageIsSingleLine() ensures SingleLine("error_message") { }
  lemma IsDefaultViewIsSingleLine() ensures SingleLine("is_default_view") { }

  lemma SharedPropertyNamesAreSingleLines()
    ensures SingleLine("feature_name") && SingleLine("feature_id") && SingleLine("feature_format")
    ensures SingleLine("event_description") && SingleLine("feature_parent_id")
  {
    FeatureNameIsSingleLine();
    FeatureIdIsSingleLine();
    FeatureFormatIsSingleLine();
    EventDescriptionIsSingleLine();
    FeatureParentIdIsSingleLine();
  }

  lemma VariantPropertyNamesAreSingleLines()
    ensures SingleLine("action_item") && SingleLine("sub_action_item") && SingleLine("event_called")
    ensures SingleLine("error_type") && SingleLine("error_message") && SingleLine("is_default_view")
  {
    ActionItemIsSingleLine();
    SubActionItemIsSingleLine();
    EventCalledIsSingleLine();
    ErrorTypeIsSingleLine();
    ErrorMessageIsSingleLine();
    IsDefaultViewIsSingleLine();
  }

  lemma MetricPropertiesHeaderIsSingleLine() ensures SingleLine(MetricPropertiesHeader) { }

  lemma PropertyLinesAreSingleLines(m: MetricEvent)
    requires MetricValuesAreSingleLines(m)
    ensures forall i :: 0 <= i < |PropertyRows(m)| ==> SingleLine(PropertyLines(PropertyRows(m))[i])
  {
    var rows := PropertyRows(m);
    SharedPropertyNamesAreSingleLines();
    VariantPropertyNamesAreSingleLines();
    assert forall i :: 0 <= i < |rows| ==> SingleLine(rows[i].0);
    assert SingleLine("`") && SingleLine("` | ") && SingleLine(" |");
  }

  /**
   * A variant's property table is its header, the separator and one `` `property` | value | ``
   * line per property of the variant, in the template's order; absent optional values show
   * as empty.
   */
  lemma MetricPropertiesTableLines(m: MetricEvent)
    requires MetricValuesAreSingleLines(m)
    ensures Lines(MetricPropertiesTable(m)) ==
      [MetricPropertiesHeader, TwoColumnSeparator] + PropertyLines(PropertyRows(m))
  {
    var ls := [MetricPropertiesHeader, TwoColumnSeparator] + PropertyLines(PropertyRows(m));
    PropertyLinesAreSingleLines(m);
    MetricPropertiesHeaderIsSingleLine();
    TwoColumnSeparatorIsSingleLine();
    assert ls[0][0] == '|';
    TrimIndentTemplateLines(ls, 0);
  }

  lemma MetricPropertiesTableStart(m: MetricEvent)
    requires MetricValuesAreSingleLines(m)
    ensures MetricPropertiesTable(m) != "" && MetricPropertiesTable(m)[0] == '|'
    ensures !IsWhitespace(MetricPropertiesTable(m)[0]) && '\r' !in MetricPropertiesTable(m)
  {
    var ls := [MetricPropertiesHeader, TwoColumnSeparator] + PropertyLines(PropertyRows(m));
    PropertyLinesAreSingleLines(m);
    MetricPropertiesHeaderIsSingleLine();
    TwoColumnSeparatorIsSingleLine();
    assert ls[0][0] == '|';
    TrimIndentTemplate(ls, 0);
    JoinStartsWithFirst("\n", ls);
    TrimIndentHasNoCarriageReturn(Template(ls));
  }

  /** The metric properties are the variant's table, a line break, and the additional parameters. */
  lemma MetricPropertiesShape(m: MetricEvent, fields: seq<Field>, snakeCase: string -> string)
    requires MetricValuesAreSingleLines(m)
    ensures MetricProperties(m, fields, snakeCase) ==
      MetricPropertiesTable(m) + "\n" + AdditionalParametersSection(fields, snakeCase)
  {
    MetricPropertiesTableStart(m);
    AdditionalParametersSectionHasNoCarriageReturn(fields, snakeCase);
    TrimIndentOfTwo(MetricPropertiesTable(m), AdditionalParametersSection(fields, snakeCase));
  }

  lemma AdditionalParametersSectionHasNoCarriageReturn(fields: seq<Field>, snakeCase: string -> string)
    ensures '\r' !in AdditionalParametersSection(fields, snakeCase)
  {
    TrimIndentHasNoCarriageReturn(Template([FieldTable([AdditionalParametersHeading],
      AdditionalRows(fields, snakeCase), NoAdditionalParametersLine)]));
  }

  /** `addPropertiesSection()`: nothing without a kind, the metric tables for Metric, else the RUM table. */
  function PropertiesSection(kind: Option<EventType>, m: MetricEvent, fields: seq<Field>,
                             snakeCase: string -> string): string {
    match kind
    case None => ""
    case Some(k) => if k == Metric then MetricProperties(m, fields, snakeCase) else RumProperties(fields)
  }

  // ---------------------------------------------------------------------------------------
  // Destinations
  // ---------------------------------------------------------------------------------------

  datatype Environment = Staging | Production

  /**
   * The Datadog query a link opens: `toDatadogLink()` chooses one per kind, and for Metric
   * events one per variant. The URL text itself is built outside the model.
   */
  datatype DatadogLink =
    | RumActionLink(eventName: string, environment: Environment)
    | RumErrorLink(eventName: string, environment: Environment)
    | LogLink(eventName: string, environment: Environment)
    | MetricClickLink(featureName: string, actionItem: string, environment: Environment)
    | MetricFeatureLink(featureName: string, eventDescription: string, environment: Environment)

  /** The helpers the handler calls that are not part of this model. */
  datatype Externals = Externals(camelToSnakeCase: string -> string, datadogUrl: DatadogLink -> string)

  /** `toDatadogLink()`: which query each kind and variant links to. */
  function DatadogLinkFor(k: EventType, eventName: string, m: MetricEvent, env: Environment): (r: DatadogLink)
    ensures r.environment == env
  {
    match k
    case ActionTap => RumActionLink(eventName, env)
    case ActionCustom => RumActionLink(eventName, env)
    case Error => RumErrorLink(eventName, env)
    case Log => LogLink(eventName, env)
    case Metric =>
      if m.ClickFeature? then MetricClickLink(m.featureName, m.actionItem, env)
      else MetricFeatureLink(m.featureName, m.eventDescription, env)
  }

  predicate IsRumAction(k: EventType) {
    k == ActionTap || k == ActionCustom
  }

  /** Two kinds share a Datadog query exactly when they are the same kind or both RUM actions. */
  lemma DatadogLinkKinds(k1: EventType, k2: EventType, eventName: string, m: MetricEvent, env: Environment)
    ensures DatadogLinkFor(k1, eventName, m, env) == DatadogLinkFor(k2, eventName, m, env) <==>
      k1 == k2 || (IsRumAction(k1) && IsRumAction(k2))
  {
  }

  const DataDogTitle := "**Data Dog**"
  const DataDogIntro := "View events the last seven days."
  const AnchorOpen := "* <a href=\""
  const StagingAnchorClose := "\" target=\"_blank\">Staging</a>"
  const ProductionAnchorClose := "\" target=\"_blank\">Production</a>"

  function DataDogLines(k: EventType, eventName: string, m: MetricEvent, url: DatadogLink -> string): seq<string> {
    [DataDogTitle, "", DataDogIntro, "",
     AnchorOpen + url(DatadogLinkFor(k, eventName, m, Staging)) + StagingAnchorClose,
     AnchorOpen + url(DatadogLinkFor(k, eventName, m, Production)) + ProductionAnchorClose]
  }

  /** `addDataDogSection()`. */
  function DataDogSection(k: EventType, eventName: string, m: MetricEvent, url: DatadogLink -> string): string {
    TrimIndent(Template(DataDogLines(k, eventName, m, url)))
  }

  /** `addMetricDestinations()`. */
  function MetricDestinations(eventName: string, m: MetricEvent, fields: seq<Field>, ext: Externals): string {
    TrimIndent(Template([DataDogSection(Metric, eventName, m, ext.datadogUrl), "",
                         SnowflakeSection(m, fields, ext.camelToSnakeCase)]))
  }

  /** `addDestinationsSection()`. */
  function DestinationsSection(k: EventType, eventName: string, m: MetricEvent, fields: seq<Field>,
                               ext: Externals): string {
    if k == Metric then MetricDestinations(eventName, m, fields, ext)
    else DataDogSection(k, eventName, m, ext.datadogUrl)
  }

  predicate UrlsAreSingleLines(k: EventType, eventName: string, m: MetricEvent, url: DatadogLink -> string) {
    SingleLine(url(DatadogLinkFor(k, eventName, m, Staging)))
      && SingleLine(url(DatadogLinkFor(k, eventName, m, Production)))
  }

  lemma DataDogTitleIsSingleLine() ensures SingleLine(DataDogTitle) { }
  lemma DataDogIntroIsSingleLine() ensures SingleLine(DataDogIntro) { }
  lemma AnchorOpenIsSingleLine() ensures SingleLine(AnchorOpen) { }
  lemma StagingAnchorCloseIsSingleLine() ensures SingleLine(StagingAnchorClose) { }
  lemma ProductionAnchorCloseIsSingleLine() ensures SingleLine(ProductionAnchorClose) { }

  lemma DataDogTextIsSingleLines()
    ensures SingleLine(DataDogTitle) && SingleLine(DataDogIntro) && SingleLine(AnchorOpen)
    ensures SingleLine(StagingAnchorClose) && SingleLine(ProductionAnchorClose)
  {
    DataDogTitleIsSingleLine();
    DataDogIntroIsSingleLine();
    AnchorOpenIsSingleLine();
    StagingAnchorCloseIsSingleLine();
    ProductionAnchorCloseIsSingleLine();
  }

  /**
   * The Data Dog section is the title, an empty line, the intro, an empty line, then the
   * staging link and the production link, each opening the kind's query in its environment.
   */
  lemma DataDogSectionLines(k: EventType, eventName: string, m: MetricEvent, url: DatadogLink -> string)
    requires UrlsAreSingleLines(k, eventName, m, url)
    ensures Lines(DataDogSection(k, eventName, m, url)) == DataDogLines(k, eventName, m, url)
  {
    var ls := DataDogLines(k, eventName, m, url);
    DataDogTextIsSingleLines();
    assert ls[0][0] == '*';
    TrimIndentTemplateLines(ls, 0);
  }

  lemma DataDogSectionStart(k: EventType, eventName: string, m: MetricEvent, url: DatadogLink -> string)
    requires UrlsAreSingleLines(k, eventName, m, url)
    ensures DataDogSection(k, eventName, m, url) != "" && DataDogSection(k, eventName, m, url)[0] == '*'
    ensures !IsWhitespace(DataDogSection(k, eventName, m, url)[0]) && '\r' !in DataDogSection(k, eventName, m, url)
  {
    var ls := DataDogLines(k, eventName, m, url);
    DataDogTextIsSingleLines();
    assert ls[0][0] == '*';
    TrimIndentTemplate(ls, 0);
    JoinStartsWithFirst("\n", ls);
    TrimIndentHasNoCarriageReturn(Template(ls));
  }

  /** A Metric event's destinations are its Data Dog links, an empty line, and the Snowflake query. */
  lemma MetricDestinationsShape(eventName: string, m: MetricEvent, fields: seq<Field>, ext: Externals)
    requires UrlsAreSingleLines(Metric, eventName, m, ext.datadogUrl)
    ensures MetricDestinations(eventName, m, fields, ext) ==
      DataDogSection(Metric, eventName, m, ext.datadogUrl) + "\n\n" + SnowflakeSection(m, fields, ext.camelToSnakeCase)
  {
    var d := DataDogSection(Metric, eventName, m, ext.datadogUrl);
    var q := SnowflakeSection(m, fields, ext.camelToSnakeCase);
    DataDogSectionStart(Metric, eventName, m, ext.datadogUrl);
    SnowflakeSectionHasNoCarriageReturn(m, fields, ext.camelToSnakeCase);
    TrimIndentOfTwoApart(d, q);
  }

  /**
   * Every kind but Metric lists only the Data Dog links; a Metric event lists them and then,
   * after an empty line, the Snowflake query.
   */
  lemma DestinationsSectionShape(k: EventType, eventName: string, m: MetricEvent, fields: seq<Field>,
                                 ext: Externals)
    requires UrlsAreSingleLines(k, eventName, m, ext.datadogUrl)
    ensures k != Metric ==>
      (DestinationsSection(k, eventName, m, fields, ext) == DataDogSection(k, eventName, m, ext.datadogUrl))
    ensures k == Metric ==>
      (DestinationsSection(k, eventName, m, fields, ext) ==
       DataDogSection(k, eventName, m, ext.datadogUrl) + "\n\n" + SnowflakeSection(m, fields, ext.camelToSnakeCase))
  {
    if k == Metric {
      MetricDestinationsShape(eventName, m, fields, ext);
    }
  }
}
