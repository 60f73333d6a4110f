/**
 * The Snowflake query shown for Metric events: the table of each metric shape, the columns
 * it selects, the filter clauses, and the extra columns contributed by the message's fields.
 */
module MetricQuery {
  import opened Text
  import opened Schema

  const FourSpaces := "    "

  /** `metricTypeSnowflakeTable()`: the table the events of each shape land in. */
  function SnowflakeTable(m: MetricEvent): string {
    match m
    case LoadFeature(_, _, _, _, _) => "merchant_load_feature"
    case ClickFeature(_, _, _, _, _, _, _) => "merchant_click_feature"
    case EncounterError(_, _, _, _, _, _, _, _) => "merchant_encounter_error"
    case ViewFeature(_, _, _, _, _, _) => "merchant_view_feature"
  }

  /** Every shape has a table of its own. */
  lemma SnowflakeTableDeterminesShape(m1: MetricEvent, m2: MetricEvent)
    ensures SnowflakeTable(m1) == SnowflakeTable(m2) <==> VariantName(m1) == VariantName(m2)
  {
    if SnowflakeTable(m1) == SnowflakeTable(m2) {
      var a, b := SnowflakeTable(m1), SnowflakeTable(m2);
      assert |a| == |b| && a[9] == b[9] && a[10] == b[10];
    }
  }

  /** The shape-specific columns of the select list. */
  function SelectColumns(m: MetricEvent): seq<string> {
    match m
    case LoadFeature(_, _, _, _, _) => []
    case ClickFeature(_, _, _, _, _, _, _) => ["properties_action_item", "properties_sub_action_item"]
    case EncounterError(_, _, _, _, _, _, _, _) =>
      ["properties_event_called", "properties_event_type", "properties_error_message"]
    case ViewFeature(_, _, _, _, _, _) => ["properties_is_default_view"]
  }

  /** One indented `column,` line per column. */
  function SelectLines(columns: seq<string>): (r: seq<string>)
    ensures |r| == |columns|
  {
    seq(|columns|, i requires 0 <= i < |columns| => FourSpaces + columns[i] + ",")
  }

  /**
   * `addMetricTypeQueryParameters()`: the shape's columns, one indented `column,` line each;
   * the string literal of each shape is the "\n"-join of these lines.
   */
  function MetricTypeQueryParameters(m: MetricEvent): string {
    Join("\n", SelectLines(SelectColumns(m)))
  }

  lemma ActionItemColumnIsSingleLine() ensures SingleLine("properties_action_item") { }
  lemma SubActionItemColumnIsSingleLine() ensures SingleLine("properties_sub_action_item") { }
  lemma EventCalledColumnIsSingleLine() ensures SingleLine("properties_event_called") { }
  lemma EventTypeColumnIsSingleLine() ensures SingleLine("properties_event_type") { }
  lemma ErrorMessageColumnIsSingleLine() ensures SingleLine("properties_error_message") { }
  lemma IsDefaultViewColumnIsSingleLine() ensures SingleLine("properties_is_default_view") { }
  lemma FeatureNameColumnIsSingleLine() ensures SingleLine("properties_feature_name") { }
  lemma FeatureIdColumnIsSingleLine() ensures SingleLine("properties_feature_id") { }
  lemma EventDescriptionColumnIsSingleLine() ensures SingleLine("properties_event_description") { }

  /** No column name holds a line break. */
  lemma SelectColumnsAreSingleLines(m: MetricEvent)
    ensures forall i :: 0 <= i < |SelectLines(SelectColumns(m))| ==>
      '\n' !in SelectLines(SelectColumns(m))[i] && '\r' !in SelectLines(SelectColumns(m))[i]
  {
    var cs := SelectColumns(m);
    match m {
      case LoadFeature(_, _, _, _, _) =>
      case ClickFeature(_, _, _, _, _, _, _) =>
        ActionItemColumnIsSingleLine();
        SubActionItemColumnIsSingleLine();
      case EncounterError(_, _, _, _, _, _, _, _) =>
        EventCalledColumnIsSingleLine();
        EventTypeColumnIsSingleLine();
        ErrorMessageColumnIsSingleLine();
      case ViewFeature(_, _, _, _, _, _) =>
        IsDefaultViewColumnIsSingleLine();
    }
    assert forall i :: 0 <= i < |cs| ==> SingleLine(cs[i]);
    assert SingleLine(FourSpaces) && SingleLine(",");
  }

  /**
   * Only LoadFeature selects no shape-specific columns; every other shape selects its columns,
   * one per line, in order.
   */
  lemma MetricTypeQueryParametersLines(m: MetricEvent)
    ensures MetricTypeQueryParameters(m) == "" <==> m.LoadFeature?
    ensures !m.LoadFeature? ==> Lines(MetricTypeQueryParameters(m)) == SelectLines(SelectColumns(m))
  {
    var ls := SelectLines(SelectColumns(m));
    if !m.LoadFeature? {
      JoinNonEmpty("\n", ls);
      SelectColumnsAreSingleLines(m);
      LinesOfJoin(ls);
    }
  }

  /** The filter of each shape, as (column, value) pairs, in the order of the query. */
  function FilterClauses(m: MetricEvent): seq<(string, string)> {
    match m
    case LoadFeature(featureName, featureId, _, eventDescription, _) =>
      [("properties_feature_name", featureName), ("properties_feature_id", featureId),
       ("properties_event_description", eventDescription)]
    case ClickFeature(featureName, featureId, _, _, actionItem, _, _) =>
      [("properties_action_item", actionItem), ("properties_feature_name", featureName),
       ("properties_feature_id", featureId)]
    case EncounterError(featureName, featureId, _, _, eventDescription, _, _, _) =>
      [("properties_feature_name", featureName), ("properties_feature_id", featureId),
       ("properties_event_description", eventDescription)]
    case ViewFeature(featureName, featureId, _, eventDescription, _, isDefaultView) =>
      [("properties_feature_name", featureName), ("properties_feature_id", featureId),
       ("properties_event_description", eventDescription),
       ("properties_is_default_view", BoolString(isDefaultView))]
  }

  /** The first clause is `column = 'value'`, every later one `and column = 'value'`. */
  function ClauseLines(clauses: seq<(string, string)>): (r: seq<string>)
    ensures |r| == |clauses|
  {
    seq(|clauses|, i requires 0 <= i < |clauses| =>
      FourSpaces + (if i == 0 then "" else "and ") + clauses[i].0 + " = '" + clauses[i].1 + "'")
  }

  /**
   * `addMetricEventFilter()`: the shape's clauses, one per line; only the LoadFeature filter
   * ends with a line break. The string literal of each shape is this join.
   */
  function MetricEventFilter(m: MetricEvent): string {
    Join("\n", ClauseLines(FilterClauses(m))) + (if m.LoadFeature? then "\n" else "")
  }

  /** The values that the filter of a shape interpolates. */
  predicate SingleLineValues(m: MetricEvent) {
    forall i :: 0 <= i < |FilterClauses(m)| ==>
      '\n' !in FilterClauses(m)[i].1 && '\r' !in FilterClauses(m)[i].1
  }

  /**
   * When the interpolated values hold no line break, the filter has one line per clause of the
   * shape, in order, followed by an empty line for LoadFeature only.
   */
  lemma MetricEventFilterLines(m: MetricEvent)
    requires SingleLineValues(m)
    ensures Lines(MetricEventFilter(m)) ==
      ClauseLines(FilterClauses(m)) + (if m.LoadFeature? then [""] else [])
  {
    var cs := FilterClauses(m);
    var ls := ClauseLines(cs);
    FilterColumnsAreSingleLines(m);
    assert forall i :: 0 <= i < |ls| ==> '\n' !in ls[i] && '\r' !in ls[i];
    var j := Join("\n", ls);
    LinesOfJoin(ls);
    if m.LoadFeature? {
      CharNotInJoin("\n", ls, '\r');
      LinesOfNewlineEnded(j);
      assert MetricEventFilter(m) == j + "\n";
    } else {
      assert MetricEventFilter(m) == j;
    }
  }

  /** No filter column holds a line break. */
  lemma FilterColumnsAreSingleLines(m: MetricEvent)
    ensures forall i :: 0 <= i < |FilterClauses(m)| ==>
      '\n' !in FilterClauses(m)[i].0 && '\r' !in FilterClauses(m)[i].0
  {
    FeatureNameColumnIsSingleLine();
    FeatureIdColumnIsSingleLine();
    EventDescriptionColumnIsSingleLine();
    ActionItemColumnIsSingleLine();
    IsDefaultViewColumnIsSingleLine();
  }

  /** One `properties_additional_parameters_<snake name>,` line per field, in field order. */
  function AdditionalParameterLines(fields: seq<Field>, snakeCase: string -> string): (r: seq<string>)
    ensures |r| == |fields|
  {
    seq(|fields|, i requires 0 <= i < |fields| =>
      FourSpaces + "properties_additional_parameters_" + snakeCase(fields[i].name) + ",")
  }

  lemma AdditionalParametersColumnIsSingleLine() ensures SingleLine("properties_additional_parameters_") { }

  /** `addAdditionalParametersQuery()`. */
  function AdditionalParametersQuery(fields: seq<Field>, snakeCase: string -> string): string {
    Join("\n", AdditionalParameterLines(fields, snakeCase))
  }

  /**
   * The additional-parameters selection is empty exactly when there are no fields, and
   * otherwise has one line per field, in field order.
   */
  lemma AdditionalParametersQueryLines(fields: seq<Field>, snakeCase: string -> string)
    ensures AdditionalParametersQuery(fields, snakeCase) == "" <==> fields == []
    ensures fields != [] && (forall i :: 0 <= i < |fields| ==>
              '\n' !in snakeCase(fields[i].name) && '\r' !in snakeCase(fields[i].name))
      ==> Lines(AdditionalParametersQuery(fields, snakeCase)) == AdditionalParameterLines(fields, snakeCase)
  {
    var ls := AdditionalParameterLines(fields, snakeCase);
    if fields != [] {
      JoinNonEmpty("\n", ls);
      if forall i :: 0 <= i < |fields| ==>
           '\n' !in snakeCase(fields[i].name) && '\r' !in snakeCase(fields[i].name) {
        AdditionalParametersColumnIsSingleLine();
        assert SingleLine(FourSpaces) && SingleLine(",");
        forall i | 0 <= i < |ls| ensures '\n' !in ls[i] && '\r' !in ls[i] {
          assert SingleLine(snakeCase(fields[i].name));
        }
        LinesOfJoin(ls);
      }
    }
  }

  /** `addMetricTypeSelection()`: a newline separates the two parts only when fields exist. */
  function MetricTypeSelection(m: MetricEvent, fields: seq<Field>, snakeCase: string -> string): (r: string)
    ensures fields == [] ==> r == MetricTypeQueryParameters(m)
    ensures fields != [] ==> r == MetricTypeQueryParameters(m) + "\n" + AdditionalParametersQuery(fields, snakeCase)
  {
    var additionalParametersQuery := AdditionalParametersQuery(fields, snakeCase);
    AdditionalParametersQueryLines(fields, snakeCase);
    var additionalParametersQueryOrEmpty :=
      if additionalParametersQuery != "" then "\n" + additionalParametersQuery else "";
    MetricTypeQueryParameters(m) + additionalParametersQueryOrEmpty
  }

  /**
   * The lines of the selection: the shape's column lines (an empty line for LoadFeature), then
   * one line per field, when there are fields.
   */
  lemma MetricTypeSelectionLines(m: MetricEvent, fields: seq<Field>, snakeCase: string -> string)
    requires forall i :: 0 <= i < |fields| ==>
      '\n' !in snakeCase(fields[i].name) && '\r' !in snakeCase(fields[i].name)
    ensures Lines(MetricTypeSelection(m, fields, snakeCase)) ==
      (if m.LoadFeature? then [""] else SelectLines(SelectColumns(m))) +
      (if fields == [] then [] else AdditionalParameterLines(fields, snakeCase))
  {
    var p := MetricTypeQueryParameters(m);
    var cols := SelectLines(SelectColumns(m));
    MetricTypeQueryParametersLines(m);
    SelectColumnsAreSingleLines(m);
    CharNotInJoin("\n", cols, '\r');
    LinesAreSplit(p);
    if fields != [] {
      var q := AdditionalParametersQuery(fields, snakeCase);
      var ls := AdditionalParameterLines(fields, snakeCase);
      AdditionalParametersQueryLines(fields, snakeCase);
      CharNotInJoin("\n", ls, '\r');
      LinesAreSplit(q);
      LinesAreSplit(p + "\n" + q);
      SplitConcat(p, q, '\n');
      assert p + "\n" + q == p + ['\n'] + q;
    } else {
      assert (if fields == [] then [] else AdditionalParameterLines(fields, snakeCase)) == [];
    }
  }

  /** The lines of the Snowflake template; two of them are interpolated selections. */
  function SnowflakeLines(m: MetricEvent, fields: seq<Field>, snakeCase: string -> string): seq<string> {
    ["**Snowflake**",
     "",
     "Enter the following Snowflake query to view the last seven days of events in staging or production.",
     "",
     "* <a href=\"https://go/snowflakestaging\" target=\"_blank\">Staging</a>",
     "* <a href=\"https://go/snowflake\" target=\"_blank\">Production</a>",
     "",
     "```sql",
     "select",
     FourSpaces + "to_char(timestamp, 'YYYY-MM-DD HH24:MI:SS') as time,",
     FourSpaces + "properties_event_description,",
     MetricTypeSelection(m, fields, snakeCase),
     FourSpaces + "context_application_name,",
     FourSpaces + "context_application_version,",
     FourSpaces + "context_os_name,",
     FourSpaces + "context_subject_merchant_token",
     "from",
     FourSpaces + "customer_data.square_mobile." + SnowflakeTable(m),
     "where",
     MetricEventFilter(m),
     FourSpaces + "and to_date(timestamp) >= dateadd(day, -7, current_date)",
     "order by",
     FourSpaces + "time desc;",
     "```"]
  }

  /** `addSnowflakeSection()`. */
  function SnowflakeSection(m: MetricEvent, fields: seq<Field>, snakeCase: string -> string): string {
    TrimIndent(Template(SnowflakeLines(m, fields, snakeCase)))
  }

  lemma SnowflakeSectionHasNoCarriageReturn(m: MetricEvent, fields: seq<Field>, snakeCase: string -> string)
    ensures '\r' !in SnowflakeSection(m, fields, snakeCase)
  {
    TrimIndentHasNoCarriageReturn(Template(SnowflakeLines(m, fields, snakeCase)));
  }
}
