/**
 * The parts of the parsed protocol-buffer schema that the documentation handler reads. Wire's
 * `MessageType`, `EnumType` and other types become one datatype. The options the handler
 * reads through extension helpers (event type, team, metric shape, version availability,
 * the "ignore" flag and the file's `tags` option) are plain fields.
 */
module Schema {
  import opened Wrappers

  /** The five event kinds. */
  datatype EventType = ActionTap | ActionCustom | Log | Error | Metric

  /** `EventType.entries`, in the order of the `when` branches of `handle`. */
  const AllEventTypes: seq<EventType> := [ActionTap, ActionCustom, Log, Error, Metric]

  /** The enum constant's `name`, which is also its `toString()`. */
  function EventTypeName(e: EventType): string {
    match e
    case ActionTap => "ActionTap"
    case ActionCustom => "ActionCustom"
    case Log => "Log"
    case Error => "Error"
    case Metric => "Metric"
  }

  /**
   * The payload shapes of a Metric event. Each field holds its rendered (string) form;
   * a nullable attribute is an Option.
   */
  datatype MetricEvent =
    | LoadFeature(featureName: string, featureId: string, featureFormat: string,
                  eventDescription: string, featureParentId: Option<string>)
    | ClickFeature(featureName: string, featureId: string, featureFormat: string,
                   eventDescription: string, actionItem: string, subActionItem: Option<string>,
                   featureParentId: Option<string>)
    | EncounterError(featureName: string, featureId: string, featureParentId: Option<string>,
                     featureFormat: string, eventDescription: string, eventCalled: string,
                     errorType: string, errorMessage: string)
    | ViewFeature(featureName: string, featureId: string, featureFormat: string,
                  eventDescription: string, featureParentId: Option<string>, isDefaultView: bool)

  /** `metricEvent.name`, the key of the metric-variant counter. */
  function VariantName(m: MetricEvent): string {
    match m
    case LoadFeature(_, _, _, _, _) => "LoadFeature"
    case ClickFeature(_, _, _, _, _, _, _) => "ClickFeature"
    case EncounterError(_, _, _, _, _, _, _, _) => "EncounterError"
    case ViewFeature(_, _, _, _, _, _) => "ViewFeature"
  }

  /** A Kotlin `Boolean` interpolated into a string. */
  function BoolString(b: bool): string {
    if b then "true" else "false"
  }

  /** `VersionAvailability`: the first version on a platform and, optionally, the last one. */
  datatype VersionAvailability =
    | AndroidVersionAvailability(firstVersion: string, lastVersion: Option<string>)
    | IosVersionAvailability(firstVersion: string, lastVersion: Option<string>)

  /**
   * A reference to a field's type: its simple name and whether
   * `MetronEventKotlinGenerator.builtInType` holds for it.
   */
  datatype TypeRef = TypeRef(simpleName: string, builtIn: bool)

  /** A message field; `labelName` holds the name of Wire's label constant, if any. */
  datatype Field = Field(name: string, labelName: Option<string>, fieldType: Option<TypeRef>, documentation: string)

  datatype EnumConstant = EnumConstant(name: string, documentation: string)

  /** What the handler reads from a type's options and from its file's options. */
  datatype TypeOptions = TypeOptions(
    ignoreDocsGeneration: bool,
    eventType: Option<EventType>,
    team: string,
    metricEvent: MetricEvent,
    versionAvailability: seq<VersionAvailability>,
    tags: Option<string>)

  datatype Type =
    | MessageType(name: string, documentation: string, fields: seq<Field>, options: TypeOptions)
    | EnumType(name: string, documentation: string, constants: seq<EnumConstant>, options: TypeOptions)
    | EnclosingType(name: string, options: TypeOptions)
}
