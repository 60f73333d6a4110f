/**
 * The computable parts of `MkdocsGenerator.generate`: the event-audit counts, which
 * organisation's template and static files are used, and where the entity, action, event and
 * tag pages are written. Rendering and copying go through Mustache and the file system and
 * are not modelled.
 */
module MkdocsGenerator {
  import opened Wrappers
  import opened Text

  /** Where an event is tracked: the name of the iOS and of the Android usage, if any. */
  datatype EventUsage = EventUsage(ios: Option<string>, android: Option<string>)
  datatype Event = Event(eventName: string, eventUsage: EventUsage)
  datatype Action = Action(name: string, events: seq<Event>)
  /** `name` is the entity name's `default` form. */
  datatype Entity = Entity(name: string, actions: seq<Action>)

  // ---------------------------------------------------------------------------------------
  // countFromEvents
  // ---------------------------------------------------------------------------------------

  /** `actions.fold(acc) { count, action -> count + sum(action.events) }`. */
  function FoldActions(acc: int, actions: seq<Action>, sum: seq<Event> -> int): int
    decreases |actions|
  {
    if |actions| == 0 then acc else FoldActions(acc + sum(actions[0].events), actions[1..], sum)
  }

  /** `entities.fold(acc) { acc, entity -> acc + entity.actions.fold(0) { … } }`. */
  function FoldEntities(acc: int, entities: seq<Entity>, sum: seq<Event> -> int): int
    decreases |entities|
  {
    if |entities| == 0 then acc
    else FoldEntities(acc + FoldActions(0, entities[0].actions, sum), entities[1..], sum)
  }

  /** `countFromEvents(sum)`. */
  function CountFromEvents(entities: seq<Entity>, sum: seq<Event> -> int): int {
    FoldEntities(0, entities, sum)
  }

  /** The events of all actions, in order. */
  function ActionEvents(actions: seq<Action>): seq<Event> {
    if |actions| == 0 then [] else actions[0].events + ActionEvents(actions[1..])
  }

  /** The events of all entities' actions, in order. */
  function AllEvents(entities: seq<Entity>): seq<Event> {
    if |entities| == 0 then [] else ActionEvents(entities[0].actions) + AllEvents(entities[1..])
  }

  /** The reference definition: `sum` applied to each action's events, added up. */
  function SumOverActions(actions: seq<Action>, sum: seq<Event> -> int): int {
    if |actions| == 0 then 0 else sum(actions[0].events) + SumOverActions(actions[1..], sum)
  }

  function SumOverEntities(entities: seq<Entity>, sum: seq<Event> -> int): int {
    if |entities| == 0 then 0
    else SumOverActions(entities[0].actions, sum) + SumOverEntities(entities[1..], sum)
  }

  lemma {:induction false} FoldActionsIsSum(acc: int, actions: seq<Action>, sum: seq<Event> -> int)
    ensures FoldActions(acc, actions, sum) == acc + SumOverActions(actions, sum)
    decreases |actions|
  {
    if |actions| > 0 {
      FoldActionsIsSum(acc + sum(actions[0].events), actions[1..], sum);
    }
  }

  lemma {:induction false} FoldEntitiesIsSum(acc: int, entities: seq<Entity>, sum: seq<Event> -> int)
    ensures FoldEntities(acc, entities, sum) == acc + SumOverEntities(entities, sum)
    decreases |entities|
  {
    if |entities| > 0 {
      FoldActionsIsSum(0, entities[0].actions, sum);
      FoldEntitiesIsSum(acc + FoldActions(0, entities[0].actions, sum), entities[1..], sum);
    }
  }

  /** The nested fold adds up `sum` over every action of every entity. */
  lemma CountFromEventsIsSum(entities: seq<Entity>, sum: seq<Event> -> int)
    ensures CountFromEvents(entities, sum) == SumOverEntities(entities, sum)
  {
    FoldEntitiesIsSum(0, entities, sum);
  }

  /** No entities, no events counted. */
  lemma CountFromNoEntities(sum: seq<Event> -> int)
    ensures CountFromEvents([], sum) == 0
  {
  }

  lemma {:induction false} SumOverActionsAppend(a: seq<Action>, b: seq<Action>, sum: seq<Event> -> int)
    ensures SumOverActions(a + b, sum) == SumOverActions(a, sum) + SumOverActions(b, sum)
  {
    if |a| > 0 {
      assert (a + b)[1..] == a[1..] + b;
      SumOverActionsAppend(a[1..], b, sum);
    } else {
      assert a + b == b;
    }
  }

  lemma {:induction false} SumOverEntitiesAppend(a: seq<Entity>, b: seq<Entity>, sum: seq<Event> -> int)
    ensures SumOverEntities(a + b, sum) == SumOverEntities(a, sum) + SumOverEntities(b, sum)
  {
    if |a| > 0 {
      assert (a + b)[1..] == a[1..] + b;
      SumOverEntitiesAppend(a[1..], b, sum);
    } else {
      assert a + b == b;
    }
  }

  /** Counting over two lists of entities is counting over each and adding. */
  lemma CountFromEventsAppend(a: seq<Entity>, b: seq<Entity>, sum: seq<Event> -> int)
    ensures CountFromEvents(a + b, sum) == CountFromEvents(a, sum) + CountFromEvents(b, sum)
  {
    CountFromEventsIsSum(a + b, sum);
    CountFromEventsIsSum(a, sum);
    CountFromEventsIsSum(b, sum);
    SumOverEntitiesAppend(a, b, sum);
  }

  /** Counting over an entity whose actions are two lists is counting over each and adding. */
  lemma CountFromActionsAppend(name: string, a: seq<Action>, b: seq<Action>, sum: seq<Event> -> int)
    ensures CountFromEvents([Entity(name, a + b)], sum) ==
      CountFromEvents([Entity(name, a)], sum) + CountFromEvents([Entity(name, b)], sum)
  {
    CountFromEventsIsSum([Entity(name, a + b)], sum);
    CountFromEventsIsSum([Entity(name, a)], sum);
    CountFromEventsIsSum([Entity(name, b)], sum);
    SumOverActionsAppend(a, b, sum);
  }

  /** `events.count { p(it) }`. */
  function CountWhere(events: seq<Event>, p: Event -> bool): (n: nat)
    ensures n <= |events|
  {
    if |events| == 0 then 0
    else CountWhere(events[..|events| - 1], p) + (if p(events[|events| - 1]) then 1 else 0)
  }

  lemma {:induction false} CountWhereAppend(a: seq<Event>, b: seq<Event>, p: Event -> bool)
    ensures CountWhere(a + b, p) == CountWhere(a, p) + CountWhere(b, p)
    decreases |b|
  {
    if |b| > 0 {
      assert (a + b)[..|a + b| - 1] == a + b[..|b| - 1];
      CountWhereAppend(a, b[..|b| - 1], p);
    } else {
      assert a + b == a;
    }
  }

  /** `event_usage.ios != null`. */
  predicate TrackedOnIos(e: Event) {
    e.eventUsage.ios.Some?
  }

  /** `event_usage.android != null`. */
  predicate TrackedOnAndroid(e: Event) {
    e.eventUsage.android.Some?
  }

  /** `{ it.size }`. */
  function EventsSize(events: seq<Event>): int {
    |events|
  }

  function IosTracked(events: seq<Event>): int {
    CountWhere(events, TrackedOnIos)
  }

  function AndroidTracked(events: seq<Event>): int {
    CountWhere(events, TrackedOnAndroid)
  }

  lemma {:induction false} SizeOverActions(actions: seq<Action>)
    ensures SumOverActions(actions, EventsSize) == |ActionEvents(actions)|
  {
    if |actions| > 0 {
      SizeOverActions(actions[1..]);
    }
  }

  lemma {:induction false} SizeOverEntities(entities: seq<Entity>)
    ensures SumOverEntities(entities, EventsSize) == |AllEvents(entities)|
  {
    if |entities| > 0 {
      SizeOverActions(entities[0].actions);
      SizeOverEntities(entities[1..]);
    }
  }

  lemma {:induction false} TrackedOverActions(actions: seq<Action>, p: Event -> bool,
                                              tracked: seq<Event> -> int)
    requires forall es :: tracked(es) == CountWhere(es, p)
    ensures SumOverActions(actions, tracked) == CountWhere(ActionEvents(actions), p)
  {
    if |actions| > 0 {
      TrackedOverActions(actions[1..], p, tracked);
      CountWhereAppend(actions[0].events, ActionEvents(actions[1..]), p);
    }
  }

  lemma {:induction false} TrackedOverEntities(entities: seq<Entity>, p: Event -> bool,
                                               tracked: seq<Event> -> int)
    requires forall es :: tracked(es) == CountWhere(es, p)
    ensures SumOverEntities(entities, tracked) == CountWhere(AllEvents(entities), p)
  {
    if |entities| > 0 {
      TrackedOverActions(entities[0].actions, p, tracked);
      TrackedOverEntities(entities[1..], p, tracked);
      CountWhereAppend(ActionEvents(entities[0].actions), AllEvents(entities[1..]), p);
    }
  }

  /** The three numbers the event-audit page shows. */
  datatype AuditCounts = AuditCounts(eventCount: int, iosEventTrackedCount: int, androidEventTrackedCount: int)

  /**
   * `event_count` is the number of events of all actions of all entities, and the iOS and
   * Android counts are the numbers of those events tracked on each platform, so neither
   * exceeds `event_count`.
   */
  function Audit(entities: seq<Entity>): (r: AuditCounts)
    ensures r.eventCount == |AllEvents(entities)|
    ensures r.iosEventTrackedCount == CountWhere(AllEvents(entities), TrackedOnIos)
    ensures r.androidEventTrackedCount == CountWhere(AllEvents(entities), TrackedOnAndroid)
    ensures 0 <= r.iosEventTrackedCount <= r.eventCount
    ensures 0 <= r.androidEventTrackedCount <= r.eventCount
  {
    var r := AuditCounts(CountFromEvents(entities, EventsSize),
                         CountFromEvents(entities, IosTracked),
                         CountFromEvents(entities, AndroidTracked));
    CountFromEventsIsSum(entities, EventsSize);
    CountFromEventsIsSum(entities, IosTracked);
    CountFromEventsIsSum(entities, AndroidTracked);
    SizeOverEntities(entities);
    TrackedOverEntities(entities, TrackedOnIos, IosTracked);
    TrackedOverEntities(entities, TrackedOnAndroid, AndroidTracked);
    r
  }

  // ---------------------------------------------------------------------------------------
  // Organisation-specific resources
  // ---------------------------------------------------------------------------------------

  /** `MKDOCS_RESOURCES_PATH`. */
  const MkdocsResourcesPath := "/templates/mkdocs"
  /** `MKDOCS_DOCS_PATH`. */
  const MkdocsDocsPath := "docs"

  /** `orgSpecificMkdocsTemplate`. */
  function MkdocsTemplateName(isSquare: bool): string {
    if isSquare then "sq_mkdocs.yml.mustache" else "mkdocs.yml.mustache"
  }

  /** `orgSpecificLoc`. */
  function OrgSpecificLocation(isSquare: bool): string {
    if isSquare then "square" else "cash"
  }

  /** The mkdocs template resource. */
  function MkdocsTemplatePath(isSquare: bool): string {
    MkdocsResourcesPath + "/" + MkdocsTemplateName(isSquare)
  }

  /** The organisation's image directory. */
  function ImagePath(isSquare: bool): string {
    MkdocsResourcesPath + "/img/" + OrgSpecificLocation(isSquare)
  }

  /** The organisation's static-file directory. */
  function StaticOrgPath(isSquare: bool): string {
    MkdocsResourcesPath + "/static/" + OrgSpecificLocation(isSquare)
  }

  /**
   * Square gets the `sq_` template and the `square` resources, Cash the plain template and
   * the `cash` resources; the two organisations never share a template or a resource
   * directory.
   */
  lemma OrganisationChoice(isSquare: bool, other: bool)
    ensures isSquare ==>
      MkdocsTemplateName(isSquare) == "sq_mkdocs.yml.mustache" && OrgSpecificLocation(isSquare) == "square"
    ensures !isSquare ==>
      MkdocsTemplateName(isSquare) == "mkdocs.yml.mustache" && OrgSpecificLocation(isSquare) == "cash"
    ensures MkdocsTemplateName(isSquare) == "sq_mkdocs.yml.mustache" <==> OrgSpecificLocation(isSquare) == "square"
    ensures MkdocsTemplatePath(isSquare) == MkdocsTemplatePath(other) <==> isSquare == other
    ensures ImagePath(isSquare) == ImagePath(other) <==> isSquare == other
    ensures StaticOrgPath(isSquare) == StaticOrgPath(other) <==> isSquare == other
  {
    if isSquare != other {
      assert |MkdocsTemplatePath(isSquare)| != |MkdocsTemplatePath(other)|;
      assert |ImagePath(isSquare)| != |ImagePath(other)|;
      assert |StaticOrgPath(isSquare)| != |StaticOrgPath(other)|;
    }
  }

  // ---------------------------------------------------------------------------------------
  // Page paths
  // ---------------------------------------------------------------------------------------

  /** `output / MKDOCS_DOCS_PATH / entity.name.default`. */
  function EntityDir(output: string, entity: string): string {
    output + "/" + MkdocsDocsPath + "/" + entity
  }

  /** `entityDir / "index.md"`. */
  function EntityPagePath(output: string, entity: string): string {
    EntityDir(output, entity) + "/index.md"
  }

  /** `entityDir / action.name`. */
  function ActionDir(output: string, entity: string, action: string): string {
    EntityDir(output, entity) + "/" + action
  }

  /** `actionDir / "index.md"`. */
  function ActionPagePath(output: string, entity: string, action: string): string {
    ActionDir(output, entity, action) + "/index.md"
  }

  /** `actionDir / "${event.event_name}.md"`. */
  function EventPagePath(output: string, entity: string, action: string, event: string): string {
    ActionDir(output, entity, action) + "/" + event + ".md"
  }

  /** `tagDir / "${tagGroup.identifier}.md"`. */
  function TagPagePath(output: string, identifier: string): string {
    output + "/" + MkdocsDocsPath + "/tags/" + identifier + ".md"
  }

  /**
   * Within an action, different events get different pages, and an event page is the
   * action's own page exactly when the event is named `index`.
   */
  lemma EventPagePaths(output: string, entity: string, action: string, e1: string, e2: string)
    ensures EventPagePath(output, entity, action, e1) == EventPagePath(output, entity, action, e2) <==> e1 == e2
    ensures EventPagePath(output, entity, action, e1) == ActionPagePath(output, entity, action) <==> e1 == "index"
  {
    var dir := ActionDir(output, entity, action);
    if EventPagePath(output, entity, action, e1) == EventPagePath(output, entity, action, e2) {
      Between(dir + "/", ".md", e1, e2);
    }
    assert ActionPagePath(output, entity, action) == dir + "/" + "index" + ".md";
    if EventPagePath(output, entity, action, e1) == ActionPagePath(output, entity, action) {
      Between(dir + "/", ".md", e1, "index");
    }
  }

  /** An entity's page is never one of its actions' pages. */
  lemma EntityAndActionPagesDiffer(output: string, entity: string, action: string)
    ensures EntityPagePath(output, entity) != ActionPagePath(output, entity, action)
  {
    assert |EntityPagePath(output, entity)| < |ActionPagePath(output, entity, action)|;
  }

  /** Different actions of an entity, and different tag groups, get different pages. */
  lemma ActionAndTagPagesAreDistinct(output: string, entity: string, a1: string, a2: string, t1: string, t2: string)
    ensures ActionPagePath(output, entity, a1) == ActionPagePath(output, entity, a2) <==> a1 == a2
    ensures TagPagePath(output, t1) == TagPagePath(output, t2) <==> t1 == t2
  {
    if ActionPagePath(output, entity, a1) == ActionPagePath(output, entity, a2) {
      Between(EntityDir(output, entity) + "/", "/index.md", a1, a2);
    }
    if TagPagePath(output, t1) == TagPagePath(output, t2) {
      Between(output + "/" + MkdocsDocsPath + "/tags/", ".md", t1, t2);
    }
  }
}
