# Metron events documentation handler, in Dafny

This project models the core of two Kotlin classes that generate mkdocs documentation.

`MetronEventsMarkdownSchemaHandler` is the Wire schema handler called once for each type of a
protocol-buffer schema:

- an event message gets a Markdown page at `docs/event/<name>.md`;
- an enum gets a page at `docs/type/<name>.md`;
- after every event it rewrites the summary page, `docs/home/event_summary.md`, from three
  frequency tables: events per kind, Metric events per variant and events per team;
- it adds each page it writes to one of two mkdocs navigation lists.

`MkdocsGenerator` writes the pages of an event catalogue. The model covers its computable
parts: the audit counts (`countFromEvents`), the choice of template and resources for each
organisation, and the page paths.

How the model is built:

- **Module `Handler`.** The handler is a class, `MarkdownSchemaHandler`:
  - the three tables are `CountTable` objects, mutated in place by `IncrementCount`;
  - the navigation lists are `seq` fields that only ever grow;
  - the file system is a map `written` from a path to the `Page` last written there;
  - a ghost history `recorded` holds the events counted so far. `Valid()` ties each table to
    the tally of that history, and each navigation list to the pages written.
- **Module `CountTables`.** A table is a Kotlin `LinkedHashMap`, so its entries keep insertion
  order. It is modelled as a sequence of `(key, count)` pairs.
- **Modules `Sections`, `MetricQuery` and `Pages`.** The page text is defined exactly: each
  Kotlin raw-string template is the list of its lines.
- **Module `Text`.** Kotlin's `trimIndent()` is modelled exactly:
  - `lines()` splits at `\r\n`, `\n` and `\r`;
  - the smallest indent of the non-blank lines is removed;
  - a blank first line and a blank last line are dropped.

  Most page lemmas state the page's lines, in order, when the interpolated values hold no
  line break.
- **Module `MkdocsGenerator`.** It models the nested fold of `countFromEvents`, the
  `isSquare` choices and the page paths, as functions.

## Model

| member | source | states |
|---|---|---|
| CountTables.Incremented | tasks/MetronEventsMarkdownSchemaHandler.kt:108-115 | After `incrementCount(k)` the count under `k` is the old count plus one (one for an absent key). The keys keep their order, and an absent key is appended at the end. The total grows by one and the keys stay distinct. |
| CountTables.IncrementedLookup | tasks/MetronEventsMarkdownSchemaHandler.kt:108-115 | An absent key is counted once, and every other key keeps its count. |
| CountTables.CountTable.IncrementCount | tasks/MetronEventsMarkdownSchemaHandler.kt:108-115 | The in-place `incrementCount`: the `contains` branch stores `this[key] + 1` and the other branch stores 1. The new entries are `Incremented(old, key)`, every other key is unchanged, and the table stays valid. |
| CountTables.LookupFindsKeys | tasks/MetronEventsMarkdownSchemaHandler.kt:109-110 | `this[key]` has a value exactly when `contains(key)`, so the `requireNotNull` never fails. |
| CountTables.PutKeys | tasks/MetronEventsMarkdownSchemaHandler.kt:111 | Storing under a present key keeps the key order, and storing under a new key appends it, as in a LinkedHashMap. |
| CountTables.PutLookup | tasks/MetronEventsMarkdownSchemaHandler.kt:111 | After a store the key holds the stored value, and every other key keeps its value. |
| CountTables.TallyCount | tasks/MetronEventsMarkdownSchemaHandler.kt:70-72 | After a series of increments, each key's count is its initial count plus the number of times it was incremented. |
| CountTables.TallySum | tasks/MetronEventsMarkdownSchemaHandler.kt:73 | Each increment adds exactly one to `values.sum()`. |
| CountTables.TallyKeepsKeys | tasks/MetronEventsMarkdownSchemaHandler.kt:27 | A table that already holds every key that gets incremented keeps its keys and their order. |
| CountTables.TallyKeysFrom | tasks/MetronEventsMarkdownSchemaHandler.kt:28-29 | Every key of a tallied table was there at the start or was incremented. |
| Handler.InitialEventTypeCountsShape | tasks/MetronEventsMarkdownSchemaHandler.kt:27 | The event-type table starts with every `EventType` at 0, each key once, with total 0. |
| Handler.EventTypeTableCounts | tasks/MetronEventsMarkdownSchemaHandler.kt:70-73 | After any sequence of events, the event-type table lists the five kinds in order. Each count is the number of events of that kind, and the total is the number of events. |
| Handler.TeamTableCounts | tasks/MetronEventsMarkdownSchemaHandler.kt:72 | Each team's count is the number of its events, and the team counts add up to all events. |
| Handler.MetricVariantsCount | tasks/MetronEventsMarkdownSchemaHandler.kt:117-124 | There is one variant name per Metric event. |
| Handler.MetricTableCounts | tasks/MetronEventsMarkdownSchemaHandler.kt:117-124 | Each variant's count is the number of Metric events of that variant. The variant counts add up to the number of Metric events. |
| Handler.MetricTableStep | tasks/MetronEventsMarkdownSchemaHandler.kt:117-124 | One more event changes the metric-variant table if and only if it is a Metric event. When it changes, it gains one under `metricEvent.name`. |
| Handler.EventStep | tasks/MetronEventsMarkdownSchemaHandler.kt:70-72 | One more event adds one to its kind's count and one to its team's count. |
| Handler.SummaryRowsAreSingleLines | tasks/MetronEventsMarkdownSchemaHandler.kt:74-76 | When team names hold no line break, every row of the three summary tables is one line. |
| Handler.SummaryShowsCounts | tasks/MetronEventsMarkdownSchemaHandler.kt:73-90 | Lines 8 to 12 of the summary page are the rows of the five kinds in order, each showing the number of events of that kind. Line 13 is the total row, whose total is the number of events. |
| Handler.HandlerCounts | tasks/MetronEventsMarkdownSchemaHandler.kt:27-29 | In any valid handler state, the event-type table holds the five kinds with the per-kind counts of the recorded events, and its total is their number. The team total equals it too, and the metric total is the number of Metric events. |
| Handler.MarkdownSchemaHandler.constructor | tasks/MetronEventsMarkdownSchemaHandler.kt:16-29 | The docs path is `<projectDirectory>/docs`. The three tables are fresh and separate, the event-type table is pre-seeded with zeros, and both navigation lists are empty. |
| Handler.MarkdownSchemaHandler.MaybeIncrementMetricEventTypeCount | tasks/MetronEventsMarkdownSchemaHandler.kt:117-124 | A Metric event increments its variant's name in the metric table. Any other event leaves the table as it was. |
| Handler.MarkdownSchemaHandler.IncrementCounts | tasks/MetronEventsMarkdownSchemaHandler.kt:70-72 | The three increments record the event in the history and keep every table equal to the tally of the history. Pages and navigation lists are unchanged. |
| Handler.MarkdownSchemaHandler.WriteSummaryPage | tasks/MetronEventsMarkdownSchemaHandler.kt:73-105 | The summary path now holds the summary rendered from the three tables. Nothing else changes. |
| Handler.MarkdownSchemaHandler.UpdateEventSummaryPage | tasks/MetronEventsMarkdownSchemaHandler.kt:66-106 | The event is recorded, and the summary page is rewritten from the tallies of the whole history. The navigation lists are unchanged. |
| Handler.MarkdownSchemaHandler.WriteEventPage | tasks/MetronEventsMarkdownSchemaHandler.kt:130-143 | Writes the event page to `docs/event/<name>.md` and returns that path. Appends exactly the event's name to the event list, keeping duplicates. The type list and the history are unchanged. |
| Handler.MarkdownSchemaHandler.WriteTypePage | tasks/MetronEventsMarkdownSchemaHandler.kt:151-164 | Writes the type page to `docs/type/<name>.md` and returns that path. Appends exactly the enum's name to the type list. The event list and the history are unchanged. |
| Handler.MarkdownSchemaHandler.HandleType | tasks/MetronEventsMarkdownSchemaHandler.kt:39-54 | An ignored type yields no path and changes nothing. A type with a kind that is not a message, or with no kind that is not an enum, is the matching error and changes nothing. An event message updates the summary, writes its page and returns its path. An enum writes its page and returns its path. Every call keeps `Valid()`: the tables tally the recorded events and the navigation lists name exactly the pages written. |
| Handler.NavigationAfterEventPage | tasks/MetronEventsMarkdownSchemaHandler.kt:130-143 | Writing an event page at `docs/event/<name>.md` and appending its name to the event list keeps the navigation invariant: every listed name has its page at its path, and every written event or type page is at its own path and listed. |
| Handler.NavigationAfterTypePage | tasks/MetronEventsMarkdownSchemaHandler.kt:151-164 | Writing a type page at `docs/type/<name>.md` and appending its name to the type list keeps the navigation invariant. |
| Handler.NavigationAfterSummary | tasks/MetronEventsMarkdownSchemaHandler.kt:78-105 | Rewriting the summary page never overwrites an event or type page, so the navigation invariant holds after it. |
| Handler.NavigationRoundTrip | tasks/MetronEventsMarkdownSchemaHandler.kt:130-164 | In any valid handler state, a written path holds the event page named `n` exactly when `n` is in the event navigation list and the path is `docs/event/<n>.md`; likewise for types. Each navigation entry therefore has exactly one page, at its expected path, even when a name is listed twice. |
| Pages.PathsAreDistinct | tasks/MetronEventsMarkdownSchemaHandler.kt:132-153 | Event pages and type pages are keyed by name: equal paths mean equal names, and the reverse. An event page, a type page and the summary page never share a path. |
| Pages.EventTemplateTrimmed | tasks/MetronEventsMarkdownSchemaHandler.kt:204-231 | The heading line starts in column 0, so `trimIndent()` leaves the event template's lines as they are. |
| Pages.EventPageShape | tasks/MetronEventsMarkdownSchemaHandler.kt:204-231 | The event page is its template's lines joined, in order, with every interpolated section verbatim: tags, heading, description, event type, owners, properties, availability, destinations. |
| Pages.TypePageLines_ | tasks/MetronEventsMarkdownSchemaHandler.kt:187-198 | The type page's lines are the heading, the documentation, the properties heading, the table header, the separator and one row per constant, in order. With no constants the page ends in an empty line. |
| Pages.SummaryPageLines_ | tasks/MetronEventsMarkdownSchemaHandler.kt:80-103 | The summary's lines are the title and intro, then the event-type rows, the total row, the metric rows and the team rows, each under its heading and header, in table order. An empty table leaves one empty line. |
| Sections.FindFirst | tasks/MetronEventsMarkdownSchemaHandler.kt:388-389 | `find` returns nothing exactly when no record is on the platform, and otherwise a record of that platform. |
| Sections.FindFirstIsFirst | tasks/MetronEventsMarkdownSchemaHandler.kt:388-389 | `find` returns the record at the first index on the platform. |
| Sections.VersionsColumnCases | tasks/MetronEventsMarkdownSchemaHandler.kt:399-403 | The cell of the first record on a platform is `first - last` when it has a last version, and exactly `first` otherwise. |
| Sections.AvailabilityTable | tasks/MetronEventsMarkdownSchemaHandler.kt:386-397 | The availability table has exactly four lines: the header, the separator, the Android row and the iOS row. A row shows `:warning:` without a record. |
| Sections.TagsBlockLines | tasks/MetronEventsMarkdownSchemaHandler.kt:233-246 | A null or empty tags option gives an empty block. Otherwise the block's lines are `---`, `tags:`, one `- <trimmed piece>` line per piece in order, and `---`. |
| Sections.EventTypeLabelInjective | tasks/MetronEventsMarkdownSchemaHandler.kt:373-378 | Two event-type labels are equal exactly when the kinds are equal and, for Metric, the variant names too. |
| Sections.DescriptionFallback | tasks/MetronEventsMarkdownSchemaHandler.kt:209-211 | Documentation wins when there is any. Without it, a Metric event shows its `eventDescription` and any other kind shows nothing. Both directions of "the description is empty". |
| Sections.FieldTableLines | tasks/MetronEventsMarkdownSchemaHandler.kt:405-423 | A field table with no rows is its note between empty lines. Otherwise it is its heading, the column header, the separator and the rows in order, between empty lines. |
| Sections.RumPropertiesLines | tasks/MetronEventsMarkdownSchemaHandler.kt:405-423 | No fields gives "No data included with event". Otherwise the table holds the header, the separator and one row per field, in field order. |
| Sections.AdditionalParametersSectionLines | tasks/MetronEventsMarkdownSchemaHandler.kt:472-491 | No fields gives the "no additional parameters" note. Otherwise the section holds the heading, the header, the separator and one row per field with its snake-case name, in order. |
| Sections.MetricPropertiesTableLines | tasks/MetronEventsMarkdownSchemaHandler.kt:441-517 | A variant's property table is its header, the separator, and one line per property of that variant in the template's order. An absent optional value shows as empty. |
| Sections.MetricPropertiesShape | tasks/MetronEventsMarkdownSchemaHandler.kt:431-437 | The Metric properties are the variant's table, a line break, then the additional-parameters section. |
| Sections.DatadogLinkKinds | tasks/MetronEventsMarkdownSchemaHandler.kt:272-281 | Two kinds open the same Datadog query exactly when they are the same kind or both RUM actions (`ActionTap`, `ActionCustom`). |
| Sections.DataDogSectionLines | tasks/MetronEventsMarkdownSchemaHandler.kt:253-261 | The Data Dog section's lines are the title, the intro, the staging link and the production link, with empty lines between. |
| Sections.MetricDestinationsShape | tasks/MetronEventsMarkdownSchemaHandler.kt:263-268 | A Metric event's destinations are its Data Dog section, an empty line, and its Snowflake section. |
| Sections.DestinationsSectionShape | tasks/MetronEventsMarkdownSchemaHandler.kt:248-251 | Every kind but Metric lists only the Data Dog section. Metric adds the Snowflake section after an empty line. |
| MetricQuery.SnowflakeTableDeterminesShape | tasks/MetronEventsMarkdownSchemaHandler.kt:343-348 | Two metric events share a Snowflake table exactly when they are the same variant. |
| MetricQuery.MetricTypeQueryParametersLines | tasks/MetronEventsMarkdownSchemaHandler.kt:326-337 | Only LoadFeature selects no variant-specific column. Every other variant selects its fixed columns, one `column,` line each, in order. |
| MetricQuery.MetricEventFilterLines | tasks/MetronEventsMarkdownSchemaHandler.kt:350-367 | The filter has one line per fixed clause of the variant: the first is `column = 'value'` and every later one starts with `and`. Only LoadFeature adds a final empty line. |
| MetricQuery.AdditionalParametersQueryLines | tasks/MetronEventsMarkdownSchemaHandler.kt:339-341 | The additional-parameters selection is empty exactly when there are no fields. Otherwise it has one line per field, in field order. |
| MetricQuery.MetricTypeSelection | tasks/MetronEventsMarkdownSchemaHandler.kt:314-324 | A newline joins the variant columns and the additional parameters only when the message has fields. |
| MetricQuery.MetricTypeSelectionLines | tasks/MetronEventsMarkdownSchemaHandler.kt:314-324 | The selection's lines are the variant's column lines (one empty line for LoadFeature), then one line per field. |
| Text.NatToStringRoundTrip | tasks/MetronEventsMarkdownSchemaHandler.kt:73-76 | The decimal text of a count reads back as that count. |
| MkdocsGenerator.FoldActionsIsSum | tasks/MkdocsGenerator.kt:158 | The inner fold over actions adds `sum` of each action's events to the accumulator. |
| MkdocsGenerator.FoldEntitiesIsSum | tasks/MkdocsGenerator.kt:158 | The outer fold over entities adds each entity's inner fold to the accumulator. |
| MkdocsGenerator.CountFromEventsIsSum | tasks/MkdocsGenerator.kt:157-158 | `countFromEvents(sum)` is `sum` over every action of every entity, added up. |
| MkdocsGenerator.CountFromNoEntities | tasks/MkdocsGenerator.kt:157-158 | No entities count 0. |
| MkdocsGenerator.CountFromEventsAppend | tasks/MkdocsGenerator.kt:157-158 | Counting over two concatenated entity lists is counting over each and adding. |
| MkdocsGenerator.CountFromActionsAppend | tasks/MkdocsGenerator.kt:158 | Counting over an entity whose actions are two concatenated lists is counting over each and adding. |
| MkdocsGenerator.CountWhere | tasks/MkdocsGenerator.kt:121-122 | `events.count { … }` never exceeds the number of events. |
| MkdocsGenerator.CountWhereAppend | tasks/MkdocsGenerator.kt:121-122 | Counting is additive over concatenated event lists. |
| MkdocsGenerator.SizeOverEntities | tasks/MkdocsGenerator.kt:120 | Adding up `it.size` over all actions gives the number of all events. |
| MkdocsGenerator.TrackedOverEntities | tasks/MkdocsGenerator.kt:121-122 | Adding up a per-action count over all actions gives that count over all events. |
| MkdocsGenerator.Audit | tasks/MkdocsGenerator.kt:120-122 | `event_count` is the number of all events. `ios_event_tracked_count` and `android_event_tracked_count` count the events with an iOS or an Android usage, so each lies between 0 and `event_count`. |
| MkdocsGenerator.OrganisationChoice | tasks/MkdocsGenerator.kt:132-139 | Square gets the template `sq_mkdocs.yml.mustache` and the location `square`; Cash gets `mkdocs.yml.mustache` and `cash` (the template choice is made at `MkdocsGenerator.kt:38`). So the template is the Square one exactly when the location is `square`, and the two organisations never share a template, an image directory or a static directory. |
| MkdocsGenerator.EventPagePaths | tasks/MkdocsGenerator.kt:91 | Within an action, different events get different pages. An event page is the action's own `index.md` exactly when the event is named `index`. |
| MkdocsGenerator.EntityAndActionPagesDiffer | tasks/MkdocsGenerator.kt:56-77 | An entity's `index.md` is never one of its actions' pages. |
| MkdocsGenerator.ActionAndTagPagesAreDistinct | tasks/MkdocsGenerator.kt:67-101 | Different actions of an entity get different pages, and so do different tag groups. |

## Left out

- File-system I/O (`fileSystem.write`, `createDirectories`, reading the mkdocs template, `copyResource`, `FileSystem.RESOURCES.list`). The handler's writes are modelled as the `written` map from path to `Page`. The static-file copying in `MkdocsGenerator.generate` is not modelled beyond the resource paths.
- `updateMkDocsConfig` and every Mustache template execution. These run an external templating engine with the current time. The navigation lists they read are modelled.
- `handle(schema)`, which sets the `lateinit` file options and template text. The per-file `tags` option is a field of each type's options instead.
- `handle(extend, …)` and `handle(service, …)`. They return null or fail, and hold no logic.
- The Datadog URL strings and `URLEncoder.encode`. The model chooses which query each kind and variant links to (`DatadogLink`). The text of the URL comes from an external function `datadogUrl`.
- `camelToSnakeCase` and `MetronEventKotlinGenerator.builtInType` are not shown in the source. The first is a function parameter, and the second is a flag on each type reference.
- `ignoreDocsGeneration` is a flag on the type's options.
- The `error("… is not a Metric")` branch of `addMetricProperties`. It is unreachable, because the function is only called for Metric events.
- The declaration order of `EventType` is not shown. It is taken to be the order of the `when` in `handle` (ActionTap, ActionCustom, Log, Error, Metric), which is the order of the summary rows.
- `metricEvent.name` is taken to be the variant's name (`LoadFeature`, `ClickFeature`, `EncounterError`, `ViewFeature`).
- The team is modelled as a string. Its `toString()` in the summary rows is that string.
- The handler's `Int` counters and the `Int` audit counts do not overflow in the model.
- `okio` path normalisation is not modelled. Paths are plain string concatenation with `/`.
- `lowercase()` of a label name is ASCII-only.
- `metricEvent` is modelled as always present, as its non-null type requires.
- The Snowflake section has no lines lemma, only its template (`SnowflakeLines`). Its pieces, the selection and the filter, have lines lemmas of their own.
- Sections.AvailabilityTable, Sections.TagsBlockLines, Sections.RumPropertiesLines, Sections.AdditionalParametersSectionLines, Sections.MetricPropertiesTableLines, Sections.DataDogSectionLines, Pages.TypePageLines_, Pages.SummaryPageLines_ and Handler.SummaryShowsCounts: these state the page's lines only when the interpolated values hold no line break. A value with a line break adds lines of its own and can change what `trimIndent()` removes.
- Pages.EventPageShape and Pages.EventTemplateTrimmed: these require that the name, documentation, team and event description hold no carriage return, because `trimIndent()` rewrites `\r` line endings as `\n`.
- MetricQuery.MetricEventFilterLines, MetricQuery.AdditionalParametersQueryLines and MetricQuery.MetricTypeSelectionLines: the lines lemma holds when the interpolated values hold no line break.
