/**
 * The rules of the time series explorer that decide which series is shown
 * and when a load is published: the entity controls of a detector, the
 * `+`/`-` table filter, the criteria fields and the "not chartable" gate, the
 * fallback of an invalid detector index, the normalisation of the job
 * selection and the zoom window around a forecast.
 */
module SeriesRules {
  import opened Wrappers

  /** An entity control: a partitioning field and the value it is filtered on (`''` for all values). */
  datatype Entity = Entity(fieldName: string, fieldValue: string)

  /** The partitioning fields of a detector; `None` is an undefined field name. */
  datatype Detector = Detector(
    partitionFieldName: Option<string>, overFieldName: Option<string>, byFieldName: Option<string>)

  /** A job as the job service holds it: its id, its detectors and its bucket span. */
  datatype Job = Job(jobId: string, detectors: seq<Detector>, bucketSpanSeconds: int)

  /** An entry of the job picker (`{ id, selected, bucketSpanSeconds }`). */
  datatype JobListing = JobListing(id: string, selected: bool, bucketSpanSeconds: int)

  /** The job predicates the explorer calls but that are not modelled. */
  datatype JobRules = JobRules(
    isTimeSeriesViewJob: Job -> bool,
    isTimeSeriesViewDetector: (Job, nat) -> bool,
    isModelPlotEnabled: (Job, int, seq<Entity>) -> bool,
    isSourceDataChartableForDetector: (Job, int) -> bool)

  // ---------------------------------------------------------------- entity controls

  function OptionToSeq(o: Option<string>): seq<string> {
    if o.Some? then [o.value] else []
  }

  /** The detector at an index of a job, `None` when there is none (`detectors[detectorIndex]` is undefined). */
  function DetectorAt(job: Job, detectorIndex: int): Option<Detector> {
    if 0 <= detectorIndex < |job.detectors| then Some(job.detectors[detectorIndex]) else None
  }

  /** The partition field, then the over field, then the by field when there is no over field. */
  function ControlFieldNames(detector: Option<Detector>): seq<string> {
    match detector
    case None => []
    case Some(d) =>
      OptionToSeq(d.partitionFieldName) + OptionToSeq(d.overFieldName)
      + (if d.overFieldName.None? then OptionToSeq(d.byFieldName) else [])
  }

  /** `get(entitiesState, name, '')`. */
  function StateValue(entitiesState: map<string, string>, name: string): string {
    if name in entitiesState then entitiesState[name] else ""
  }

  function EntitiesFor(names: seq<string>, entitiesState: map<string, string>): seq<Entity> {
    seq(|names|, k requires 0 <= k < |names| => Entity(names[k], StateValue(entitiesState, names[k])))
  }

  /** The entity controls `updateControlsForDetector` builds for a detector from the app state's entities. */
  function EntityControls(detector: Option<Detector>, entitiesState: map<string, string>): seq<Entity> {
    EntitiesFor(ControlFieldNames(detector), entitiesState)
  }

  /** Building the controls name by name, as the pushes of `updateControlsForDetector` do. */
  lemma EntitiesForAppend(a: seq<string>, b: seq<string>, entitiesState: map<string, string>)
    ensures EntitiesFor(a + b, entitiesState) == EntitiesFor(a, entitiesState) + EntitiesFor(b, entitiesState)
  {
  }

  /** The field names of a list of entities. */
  function Names(entities: seq<Entity>): seq<string> {
    seq(|entities|, k requires 0 <= k < |entities| => entities[k].fieldName)
  }

  predicate DistinctNames(names: seq<string>) {
    forall i, j :: 0 <= i < j < |names| ==> names[i] != names[j]
  }

  /**
   * The controls: at most two; the partition field first when there is one;
   * the over field last when there is one, otherwise the by field last when
   * there is one; every value read from the app state, `''` when absent.
   */
  lemma EntityControlsOrder(d: Detector, entitiesState: map<string, string>)
    ensures var r := EntityControls(Some(d), entitiesState);
      |r| == (if d.partitionFieldName.Some? then 1 else 0) + (if d.overFieldName.Some? then 1 else 0)
             + (if d.overFieldName.None? && d.byFieldName.Some? then 1 else 0)
      && |r| <= 2
      && (d.partitionFieldName.Some? ==> r[0].fieldName == d.partitionFieldName.value)
      && (d.overFieldName.Some? ==> r[|r| - 1].fieldName == d.overFieldName.value)
      && (d.overFieldName.None? && d.byFieldName.Some? ==> r[|r| - 1].fieldName == d.byFieldName.value)
      && (d.partitionFieldName.None? && d.overFieldName.None? && d.byFieldName.None? ==> r == [])
      && (forall k :: 0 <= k < |r| ==> r[k].fieldValue == StateValue(entitiesState, r[k].fieldName))
      && (forall k :: 0 <= k < |r| && r[k].fieldName !in entitiesState ==> r[k].fieldValue == "")
  {
  }

  /** Without a detector at the index there are no controls. */
  lemma NoDetectorNoControls(job: Job, detectorIndex: int, entitiesState: map<string, string>)
    requires !(0 <= detectorIndex < |job.detectors|)
    ensures EntityControls(DetectorAt(job, detectorIndex), entitiesState) == []
  {
  }

  /** The `reduce` of `saveSeriesPropertiesAndRefresh`: field name to value, a later entity overwriting an earlier one. */
  function EntitiesToState(entities: seq<Entity>): (r: map<string, string>)
    ensures forall k :: 0 <= k < |entities| ==> entities[k].fieldName in r
    ensures forall n :: n in r ==> n in Names(entities)
    decreases |entities|
  {
    if entities == [] then map[]
    else
      var n := |entities| - 1;
      var init := entities[..n];
      var r := EntitiesToState(init)[entities[n].fieldName := entities[n].fieldValue];
      assert forall k :: 0 <= k < n ==> init[k] == entities[k];
      assert forall m :: m in Names(init) ==> m in Names(entities) by {
        forall m | m in Names(init) ensures m in Names(entities) {
          var k :| 0 <= k < n && Names(init)[k] == m;
          assert Names(entities)[k] == m;
        }
      }
      assert Names(entities)[n] == entities[n].fieldName;
      r
  }

  /** With distinct names, the state holds each entity's own value. */
  lemma {:induction false} EntitiesToStateValues(entities: seq<Entity>)
    requires DistinctNames(Names(entities))
    ensures forall k :: 0 <= k < |entities| ==> EntitiesToState(entities)[entities[k].fieldName] == entities[k].fieldValue
    decreases |entities|
  {
    if entities != [] {
      var n := |entities| - 1;
      var init := entities[..n];
      assert Names(init) == Names(entities)[..n];
      EntitiesToStateValues(init);
      forall k | 0 <= k < |entities|
        ensures EntitiesToState(entities)[entities[k].fieldName] == entities[k].fieldValue
      {
        if k < n {
          assert init[k] == entities[k];
          assert Names(entities)[k] != Names(entities)[n];
        }
      }
    }
  }

  /** Every value the state holds is the value the entities give its name. */
  lemma {:induction false} EntitiesToStateConsistent(entities: seq<Entity>, entitiesState: map<string, string>)
    requires forall k :: 0 <= k < |entities| ==> entities[k].fieldValue == StateValue(entitiesState, entities[k].fieldName)
    ensures forall n :: n in EntitiesToState(entities) ==> EntitiesToState(entities)[n] == StateValue(entitiesState, n)
    decreases |entities|
  {
    if entities != [] {
      var n := |entities| - 1;
      var init := entities[..n];
      assert forall k :: 0 <= k < n ==> init[k] == entities[k];
      EntitiesToStateConsistent(init, entitiesState);
      var prev := EntitiesToState(init);
      var last := entities[n];
      assert EntitiesToState(entities) == prev[last.fieldName := last.fieldValue];
      forall m | m in prev[last.fieldName := last.fieldValue]
        ensures prev[last.fieldName := last.fieldValue][m] == StateValue(entitiesState, m)
      {
        if m != last.fieldName {
          assert m in prev;
        }
      }
    }
  }

  /** Controls read from a state agree on every control when the two states agree on every control's name. */
  lemma ControlsAgree(detector: Option<Detector>, s1: map<string, string>, s2: map<string, string>)
    requires forall k :: 0 <= k < |ControlFieldNames(detector)| ==>
      StateValue(s1, ControlFieldNames(detector)[k]) == StateValue(s2, ControlFieldNames(detector)[k])
    ensures EntityControls(detector, s1) == EntityControls(detector, s2)
  {
  }

  /** Saving the controls to the app state and building them again gives the same controls. */
  lemma ControlsRoundTrip(detector: Option<Detector>, entitiesState: map<string, string>)
    ensures EntityControls(detector, EntitiesToState(EntityControls(detector, entitiesState)))
         == EntityControls(detector, entitiesState)
  {
    var es := EntityControls(detector, entitiesState);
    var names := ControlFieldNames(detector);
    EntitiesToStateConsistent(es, entitiesState);
    var s2 := EntitiesToState(es);
    forall k | 0 <= k < |names| ensures StateValue(s2, names[k]) == StateValue(entitiesState, names[k]) {
      assert es[k].fieldName == names[k];
    }
    ControlsAgree(detector, s2, entitiesState);
  }

  /** Entities with the names of a detector's controls, all distinct, survive saving and rebuilding. */
  lemma SavedEntitiesRebuild(detector: Option<Detector>, entities: seq<Entity>)
    requires Names(entities) == ControlFieldNames(detector) && DistinctNames(Names(entities))
    ensures EntityControls(detector, EntitiesToState(entities)) == entities
  {
    EntitiesToStateValues(entities);
    var r := EntityControls(detector, EntitiesToState(entities));
    assert |r| == |entities|;
    forall k | 0 <= k < |r| ensures r[k] == entities[k] {
      assert Names(entities)[k] == entities[k].fieldName;
    }
  }

  // ---------------------------------------------------------------- table filter

  /** `find(entities, { fieldName })`: the index of the first entity with that field name. */
  function FirstIndexOf(entities: seq<Entity>, fieldName: string): (r: Option<nat>)
    ensures r.None? <==> forall k :: 0 <= k < |entities| ==> entities[k].fieldName != fieldName
    ensures r.Some? ==> r.value < |entities| && entities[r.value].fieldName == fieldName
    ensures r.Some? ==> forall k :: 0 <= k < r.value ==> entities[k].fieldName != fieldName
    decreases |entities|
  {
    if entities == [] then None
    else if entities[0].fieldName == fieldName then Some(0)
    else
      var rest := FirstIndexOf(entities[1..], fieldName);
      assert forall k :: 1 <= k < |entities| ==> entities[1..][k - 1] == entities[k];
      if rest.Some? then Some(rest.value + 1) else None
  }

  /** The entities after a table filter, and whether the series is saved and refreshed. */
  datatype FilterOutcome = FilterOutcome(entities: seq<Entity>, refresh: bool)

  /** `tableFilter`: `+` sets the entity's value, `-` clears it, each only when that changes the filter's condition. */
  function TableFilter(entities: seq<Entity>, field: string, value: string, operator: string): FilterOutcome {
    match FirstIndexOf(entities, field)
    case None => FilterOutcome(entities, false)
    case Some(i) =>
      if operator == "+" && entities[i].fieldValue != value then FilterOutcome(entities[i := Entity(field, value)], true)
      else if operator == "-" && entities[i].fieldValue == value then FilterOutcome(entities[i := Entity(field, "")], true)
      else FilterOutcome(entities, false)
  }

  /**
   * The filter touches only the first entity named `field`: the names stay,
   * every other entity stays, and it refreshes exactly when such an entity
   * exists and the operator is `+` with a new value or `-` with the current one.
   */
  lemma TableFilterChangesOneEntity(entities: seq<Entity>, field: string, value: string, operator: string)
    ensures var r := TableFilter(entities, field, value, operator);
      |r.entities| == |entities| && Names(r.entities) == Names(entities)
      && (r.refresh <==>
            exists i :: (0 <= i < |entities| && entities[i].fieldName == field
              && (forall k :: 0 <= k < i ==> entities[k].fieldName != field)
              && ((operator == "+" && entities[i].fieldValue != value) || (operator == "-" && entities[i].fieldValue == value))))
      && (!r.refresh ==> r.entities == entities)
      && (r.refresh ==> exists i :: (0 <= i < |entities| && FirstIndexOf(entities, field) == Some(i)
            && r.entities == entities[i := Entity(field, if operator == "+" then value else "")]))
  {
    var r := TableFilter(entities, field, value, operator);
    assert Names(r.entities) == Names(entities) by {
      match FirstIndexOf(entities, field)
      case None =>
      case Some(i) =>
        assert forall k :: 0 <= k < |r.entities| ==> r.entities[k].fieldName == entities[k].fieldName;
    }
    match FirstIndexOf(entities, field)
    case None =>
    case Some(i) =>
      if r.refresh {
        assert FirstIndexOf(entities, field) == Some(i);
      }
      assert forall j :: (0 <= j < |entities| && entities[j].fieldName == field
        && (forall k :: 0 <= k < j ==> entities[k].fieldName != field)) ==> j == i;
  }

  /**
   * Applying the same filter twice: the second application changes nothing
   * and does not refresh, unless it clears with an empty value.
   */
  lemma TableFilterIdempotent(entities: seq<Entity>, field: string, value: string, operator: string)
    requires !(operator == "-" && value == "")
    ensures var once := TableFilter(entities, field, value, operator);
      TableFilter(once.entities, field, value, operator) == FilterOutcome(once.entities, false)
  {
    var once := TableFilter(entities, field, value, operator);
    match FirstIndexOf(entities, field)
    case None =>
    case Some(i) =>
      if once.refresh {
        var e2 := once.entities;
        assert forall k :: 0 <= k < |e2| ==> e2[k].fieldName == entities[k].fieldName;
        assert FirstIndexOf(e2, field) == Some(i);
      }
  }

  /** Clearing an entity that is already blank still saves and refreshes, with the entities unchanged. */
  lemma ClearingBlankEntityRefreshes(entities: seq<Entity>, field: string)
    requires exists k :: (0 <= k < |entities| && entities[k] == Entity(field, "")
      && forall j :: 0 <= j < k ==> entities[j].fieldName != field)
    ensures TableFilter(entities, field, "", "-") == FilterOutcome(entities, true)
  {
    var k :| 0 <= k < |entities| && entities[k] == Entity(field, "") && forall j :: 0 <= j < k ==> entities[j].fieldName != field;
    assert FirstIndexOf(entities, field) == Some(k);
    assert entities[k := Entity(field, "")] == entities;
  }

  // ---------------------------------------------------------------- criteria and chartability

  /** The entities whose value is not blank, in order. */
  function NonBlankEntities(entities: seq<Entity>): (r: seq<Entity>)
    ensures |r| <= |entities|
    ensures forall e :: e in r <==> e in entities && e.fieldValue != ""
    decreases |entities|
  {
    if entities == [] then []
    else
      var rest := NonBlankEntities(entities[1..]);
      assert forall e :: e in entities <==> e == entities[0] || e in entities[1..];
      if entities[0].fieldValue != "" then [entities[0]] + rest else rest
  }

  /** Filtering distributes over concatenation, so the order of the entities is kept. */
  lemma {:induction false} NonBlankEntitiesAppend(a: seq<Entity>, b: seq<Entity>)
    ensures NonBlankEntities(a + b) == NonBlankEntities(a) + NonBlankEntities(b)
    decreases |a|
  {
    if a != [] {
      assert (a + b)[1..] == a[1..] + b;
      NonBlankEntitiesAppend(a[1..], b);
      assert (a + b)[0] == a[0];
    } else {
      assert a + b == b;
    }
  }

  /** An element of `criteriaFields`: the detector index, or an entity. */
  datatype Criterion = DetectorIndexCriterion(detectorIndex: int) | EntityCriterion(entity: Entity)

  function EntityCriteria(entities: seq<Entity>): seq<Criterion> {
    seq(|entities|, k requires 0 <= k < |entities| => EntityCriterion(entities[k]))
  }

  /** `criteriaFields`: the `detector_index` entry followed by the non-blank entities. */
  function CriteriaFields(detectorIndex: int, entities: seq<Entity>): seq<Criterion> {
    [DetectorIndexCriterion(detectorIndex)] + EntityCriteria(NonBlankEntities(entities))
  }

  /** The detector index comes first and only once; each entity criterion is a non-blank entity. */
  lemma CriteriaFieldsShape(detectorIndex: int, entities: seq<Entity>)
    ensures var r := CriteriaFields(detectorIndex, entities);
      |r| >= 1 && r[0] == DetectorIndexCriterion(detectorIndex)
      && (forall k :: 1 <= k < |r| ==> r[k].EntityCriterion? && r[k].entity in entities && r[k].entity.fieldValue != "")
      && (forall e :: e in entities && e.fieldValue != "" ==> EntityCriterion(e) in r)
      && (|r| == 1 <==> forall e :: e in entities ==> e.fieldValue == "")
  {
    var nb := NonBlankEntities(entities);
    var r := CriteriaFields(detectorIndex, entities);
    forall k | 1 <= k < |r| ensures r[k].EntityCriterion? && r[k].entity in entities && r[k].entity.fieldValue != "" {
      assert r[k] == EntityCriterion(nb[k - 1]);
      assert nb[k - 1] in nb;
    }
    forall e | e in entities && e.fieldValue != "" ensures EntityCriterion(e) in r {
      var k :| 0 <= k < |nb| && nb[k] == e;
      assert r[k + 1] == EntityCriterion(e);
    }
    if |r| > 1 {
      assert r[1].entity in entities && r[1].entity.fieldValue != "";
    } else {
      assert nb == [];
    }
  }

  /** The "not chartable" gate: no model plot, source data not chartable, and some entity selected. */
  predicate NotChartable(modelPlotEnabled: bool, sourceDataChartable: bool, entities: seq<Entity>) {
    !modelPlotEnabled && !sourceDataChartable && |NonBlankEntities(entities)| > 0
  }

  lemma NotChartableIff(modelPlotEnabled: bool, sourceDataChartable: bool, entities: seq<Entity>)
    ensures NotChartable(modelPlotEnabled, sourceDataChartable, entities)
        <==> !modelPlotEnabled && !sourceDataChartable && exists k :: 0 <= k < |entities| && entities[k].fieldValue != ""
  {
    var nb := NonBlankEntities(entities);
    if |nb| > 0 {
      assert nb[0] in nb;
      var k :| 0 <= k < |entities| && entities[k] == nb[0];
    }
    if k :| 0 <= k < |entities| && entities[k].fieldValue != "" {
      assert entities[k] in nb;
    }
  }

  // ---------------------------------------------------------------- chart data

  /** A point of a chart series: its time in epoch milliseconds and its value. */
  datatype ChartPoint = ChartPoint(dateMs: int, value: real)

  /** `Array.isArray(data) && data.length > 0`; `None` is a series that was not loaded. */
  predicate NonEmptySeries(data: Option<seq<ChartPoint>>) {
    data.Some? && |data.value| > 0
  }

  /** `hasResults`: the context chart or the context forecast has data. */
  predicate HasResults(contextChartData: Option<seq<ChartPoint>>, contextForecastData: Option<seq<ChartPoint>>) {
    NonEmptySeries(contextChartData) || NonEmptySeries(contextForecastData)
  }

  // ---------------------------------------------------------------- the refresh gate

  /** The queries a refresh awaits. */
  datatype Query = MetricDataQuery | RecordScoreQuery | ChartDetailsQuery | ForecastDataQuery

  /** Metric data, record scores and chart details, plus the forecast data when a forecast is selected. */
  function AwaitedQueries(hasForecast: bool): (r: set<Query>)
    ensures |r| == if hasForecast then 4 else 3
    ensures MetricDataQuery in r && RecordScoreQuery in r && ChartDetailsQuery in r
    ensures ForecastDataQuery in r <==> hasForecast
  {
    var base := {MetricDataQuery, RecordScoreQuery, ChartDetailsQuery};
    assert |base| == 3 by {
      assert base == {MetricDataQuery} + {RecordScoreQuery} + {ChartDetailsQuery};
    }
    if hasForecast then base + {ForecastDataQuery} else base
  }

  /** The result of one query, as its `then` handler stores it in `stateUpdate`. */
  datatype Arrival =
    | MetricDataArrived(contextChartData: seq<ChartPoint>)
    | RecordScoresArrived(swimlaneData: seq<ChartPoint>)
    | ChartDetailsArrived(chartDetails: string)
    | ForecastDataArrived(contextForecastData: seq<ChartPoint>)

  function QueryOf(arrival: Arrival): Query {
    match arrival
    case MetricDataArrived(_) => MetricDataQuery
    case RecordScoresArrived(_) => RecordScoreQuery
    case ChartDetailsArrived(_) => ChartDetailsQuery
    case ForecastDataArrived(_) => ForecastDataQuery
  }

  /** The `stateUpdate` a refresh fills in; `None` is a key that was not set. */
  datatype StateUpdate = StateUpdate(
    criteriaFields: seq<Criterion>,
    contextChartData: Option<seq<ChartPoint>>,
    swimlaneData: Option<seq<ChartPoint>>,
    chartDetails: Option<string>,
    contextForecastData: Option<seq<ChartPoint>>)

  /** Storing one query's result. */
  function Store(update: StateUpdate, arrival: Arrival): StateUpdate {
    match arrival
    case MetricDataArrived(d) => update.(contextChartData := Some(d))
    case RecordScoresArrived(d) => update.(swimlaneData := Some(d))
    case ChartDetailsArrived(d) => update.(chartDetails := Some(d))
    case ForecastDataArrived(d) => update.(contextForecastData := Some(d))
  }

  /** Storing a result sets that query's key to it and leaves the other keys alone. */
  lemma StoreSetsOneKey(update: StateUpdate, arrival: Arrival)
    ensures var r := Store(update, arrival);
      r.criteriaFields == update.criteriaFields
      && (if arrival.MetricDataArrived? then r.contextChartData == Some(arrival.contextChartData) else r.contextChartData == update.contextChartData)
      && (if arrival.RecordScoresArrived? then r.swimlaneData == Some(arrival.swimlaneData) else r.swimlaneData == update.swimlaneData)
      && (if arrival.ChartDetailsArrived? then r.chartDetails == Some(arrival.chartDetails) else r.chartDetails == update.chartDetails)
      && (if arrival.ForecastDataArrived? then r.contextForecastData == Some(arrival.contextForecastData)
          else r.contextForecastData == update.contextForecastData)
  {
  }

  /**
   * The closure state of one refresh: the `loadCounter` it captured, its
   * `awaitingCount`, the queries still unanswered, those that failed (their
   * `catch` never calls `finish`) and its `stateUpdate`.
   */
  datatype PendingLoad = PendingLoad(
    closureLoadCounter: nat, awaitingCount: nat, outstanding: set<Query>, failed: set<Query>, update: StateUpdate)

  /**
   * The bookkeeping of a load is consistent: `awaitingCount` counts the
   * unanswered and the failed queries, no query is both, and once the metric
   * data has answered, `stateUpdate` holds it.
   */
  predicate ConsistentLoad(load: PendingLoad) {
    load.awaitingCount == |load.outstanding| + |load.failed| && load.outstanding !! load.failed
    && (MetricDataQuery in load.outstanding || MetricDataQuery in load.failed || load.update.contextChartData.Some?)
  }

  /** The closure a refresh starts: every awaited query unanswered, `stateUpdate` holding the criteria fields. */
  function StartLoad(loadCounter: nat, criteriaFields: seq<Criterion>, hasForecast: bool): (r: PendingLoad)
    ensures ConsistentLoad(r) && r.outstanding != {} && r.failed == {}
    ensures r.closureLoadCounter == loadCounter && r.awaitingCount == if hasForecast then 4 else 3
    ensures r.update == StateUpdate(criteriaFields, None, None, None, None)
  {
    var awaited := AwaitedQueries(hasForecast);
    PendingLoad(loadCounter, |awaited|, awaited, {}, StateUpdate(criteriaFields, None, None, None, None))
  }

  /** A query answers: its `then` stores the result and calls `finish`, which decrements the count. */
  function Answer(load: PendingLoad, arrival: Arrival): (r: PendingLoad)
    requires ConsistentLoad(load) && QueryOf(arrival) in load.outstanding
    ensures ConsistentLoad(r) && r.closureLoadCounter == load.closureLoadCounter
    ensures r.awaitingCount == load.awaitingCount - 1 && r.outstanding == load.outstanding - {QueryOf(arrival)}
    ensures r.failed == load.failed && r.update == Store(load.update, arrival)
  {
    var q := QueryOf(arrival);
    assert |load.outstanding - {q}| == |load.outstanding| - 1;
    load.(awaitingCount := load.awaitingCount - 1, outstanding := load.outstanding - {q},
          update := Store(load.update, arrival))
  }

  /** A query fails: its `catch` only logs, so the count stays and the query can never answer. */
  function Fail(load: PendingLoad, q: Query): (r: PendingLoad)
    requires ConsistentLoad(load) && q in load.outstanding
    ensures ConsistentLoad(r) && r.closureLoadCounter == load.closureLoadCounter
    ensures r.awaitingCount == load.awaitingCount && r.outstanding == load.outstanding - {q}
    ensures r.failed == load.failed + {q} && r.update == load.update
  {
    assert |load.outstanding - {q}| == |load.outstanding| - 1;
    assert |load.failed + {q}| == |load.failed| + 1;
    load.(outstanding := load.outstanding - {q}, failed := load.failed + {q})
  }

  /** After a failure the count can no longer reach zero: no later answer publishes. */
  lemma FailureBlocksPublish(load: PendingLoad, q: Query, arrival: Arrival, counterVar: nat, currentLoadCounter: nat)
    requires ConsistentLoad(load) && q in load.outstanding
    requires QueryOf(arrival) in Fail(load, q).outstanding
    ensures !FinishPublishes(Fail(load, q), counterVar, currentLoadCounter)
    ensures !FinishPublishesAsWritten(Fail(load, q), counterVar)
  {
    var f := Fail(load, q);
    assert q in f.failed && QueryOf(arrival) in f.outstanding;
    assert |f.failed| >= 1 && |f.outstanding| >= 1;
  }

  /** A load in flight: started under its own counter, consistent, and still awaiting a query. */
  predicate LiveLoad(counter: nat, load: PendingLoad) {
    counter >= 1 && load.closureLoadCounter == counter && ConsistentLoad(load) && load.outstanding != {}
  }

  /** The loads in flight, by counter: each was started by a refresh so far. */
  predicate LoadsInFlight(pending: map<nat, PendingLoad>, loadCounter: nat) {
    forall c :: c in pending ==> c <= loadCounter && LiveLoad(c, pending[c])
  }

  /** A refresh moves the counter on and starts the load of the new counter. */
  lemma StartKeepsLoadsInFlight(pending: map<nat, PendingLoad>, loadCounter: nat, criteriaFields: seq<Criterion>, hasForecast: bool)
    requires LoadsInFlight(pending, loadCounter)
    ensures LoadsInFlight(pending, loadCounter + 1)
    ensures LoadsInFlight(pending[loadCounter + 1 := StartLoad(loadCounter + 1, criteriaFields, hasForecast)], loadCounter + 1)
    ensures loadCounter + 1 !in pending
  {
  }

  /** An answer or failure that leaves queries outstanding keeps the load in flight; the last one ends it. */
  lemma StepKeepsLoadsInFlight(pending: map<nat, PendingLoad>, loadCounter: nat, counter: nat, next: PendingLoad)
    requires LoadsInFlight(pending, loadCounter) && counter in pending
    requires next.closureLoadCounter == counter && ConsistentLoad(next)
    ensures LoadsInFlight(pending - {counter}, loadCounter)
    ensures next.outstanding != {} ==> LoadsInFlight(pending[counter := next], loadCounter)
  {
  }

  /** `setState(stateUpdate)` sets a key only when `stateUpdate` has it. */
  function Merge<T>(key: Option<T>, current: Option<T>): (r: Option<T>)
    ensures key.Some? ==> r == key
    ensures key.None? ==> r == current
  {
    if key.Some? then key else current
  }

  /**
   * `finish(counterVar)` as written: after the decrement it publishes when
   * the count is zero and `counterVar` equals the `loadCounter` of the same
   * closure, which is where every query of that closure took `counterVar` from.
   */
  predicate FinishPublishesAsWritten(load: PendingLoad, counterVar: nat) {
    load.awaitingCount - 1 == 0 && counterVar == load.closureLoadCounter
  }

  /** The gate as intended: also the load must still be the latest one. */
  predicate FinishPublishes(load: PendingLoad, counterVar: nat, currentLoadCounter: nat) {
    load.awaitingCount - 1 == 0 && counterVar == currentLoadCounter
  }

  /** As written, a consistent load publishes on its last answer whatever refreshes came after it. */
  lemma AsWrittenIgnoresLaterRefreshes(load: PendingLoad, q: Query, currentLoadCounter: nat)
    requires ConsistentLoad(load) && load.outstanding == {q} && load.failed == {}
    ensures FinishPublishesAsWritten(load, load.closureLoadCounter)
  {
  }

  /** A load started by the first refresh, answered after a second refresh started, still publishes as written. */
  lemma StaleLoadPublishesAsWritten()
    ensures var load := PendingLoad(1, 1, {ChartDetailsQuery}, {}, StateUpdate([], Some([]), None, None, None));
      ConsistentLoad(load)
      && FinishPublishesAsWritten(load, load.closureLoadCounter)
      && !FinishPublishes(load, load.closureLoadCounter, 2)
  {
    var load := PendingLoad(1, 1, {ChartDetailsQuery}, {}, StateUpdate([], Some([]), None, None, None));
    assert |load.outstanding| == 1;
  }

  /**
   * With the intended gate, a load publishes only on the answer that takes
   * its count to zero, so only when none of its queries failed, and only
   * when it is the latest load.
   */
  lemma FinishPublishesOnlyComplete(load: PendingLoad, q: Query, counterVar: nat, currentLoadCounter: nat)
    requires ConsistentLoad(load) && q in load.outstanding
    ensures FinishPublishes(load, counterVar, currentLoadCounter)
        <==> load.outstanding == {q} && load.failed == {} && counterVar == currentLoadCounter
  {
    if load.outstanding == {q} && load.failed == {} {
      assert |load.outstanding| == 1;
    }
    if |load.outstanding| + |load.failed| == 1 {
      assert |load.failed| == 0;
      assert load.outstanding - {q} == {} by {
        assert |load.outstanding - {q}| == |load.outstanding| - 1;
      }
    }
  }

  // ---------------------------------------------------------------- the detector index

  /** The detector index a job is shown with, and whether it is written back to the app state. */
  datatype DetectorChoice = DetectorChoice(index: int, writeBack: bool)

  /**
   * The check of `loadForJobId`: the requested index when it is viewable,
   * otherwise the first viewable one, written back when an index had been
   * requested. `None` when the job has no viewable detector
   * (`viewableDetectors[0]` is undefined and the method throws).
   */
  function CheckDetectorIndex(requested: Option<int>, viewable: seq<int>): (r: Option<DetectorChoice>)
    ensures r.None? <==> viewable == []
    ensures r.Some? ==> r.value.index in viewable
    ensures r.Some? ==> (r.value.writeBack <==> requested.Some? && requested.value !in viewable)
    ensures r.Some? && requested.Some? && requested.value in viewable ==> r.value.index == requested.value
    ensures r.Some? && !(requested.Some? && requested.value in viewable) ==> r.value.index == viewable[0]
  {
    if viewable == [] then None
    else
      var detectorIndex := if requested.Some? then requested.value else viewable[0];
      if detectorIndex !in viewable then Some(DetectorChoice(viewable[0], true))
      else Some(DetectorChoice(detectorIndex, false))
  }

  /** The indices below `n` of the detectors the predicate accepts, in order. */
  function ViewableIndices(job: Job, isViewable: (Job, nat) -> bool, n: nat): seq<nat>
    decreases n
  {
    if n == 0 then []
    else
      var rest := ViewableIndices(job, isViewable, n - 1);
      if isViewable(job, n - 1) then rest + [n - 1] else rest
  }

  /** The viewable indices are exactly the accepted ones below `n`, each once, in increasing order. */
  lemma {:induction false} ViewableIndicesSpec(job: Job, isViewable: (Job, nat) -> bool, n: nat)
    ensures var r := ViewableIndices(job, isViewable, n);
      (forall k: nat :: k in r <==> k < n && isViewable(job, k))
      && (forall i, j :: 0 <= i < j < |r| ==> r[i] < r[j])
      && (forall i :: 0 <= i < |r| ==> r[i] < n)
    decreases n
  {
    if n > 0 {
      ViewableIndicesSpec(job, isViewable, n - 1);
      var rest := ViewableIndices(job, isViewable, n - 1);
      if isViewable(job, n - 1) {
        var r := rest + [n - 1];
        assert forall i :: 0 <= i < |rest| ==> r[i] == rest[i];
        assert forall k: nat :: k in r <==> k in rest || k == n - 1;
      }
    }
  }

  // ---------------------------------------------------------------- jobs

  /** The picker entry of a job. */
  function ListingOf(job: Job): JobListing {
    JobListing(job.jobId, false, job.bucketSpanSeconds)
  }

  /** The picker entries `loadForJobId` builds: one per time series job, in order. */
  function TimeSeriesJobListings(allJobs: seq<Job>, isTimeSeriesViewJob: Job -> bool): seq<JobListing>
    decreases |allJobs|
  {
    if allJobs == [] then []
    else
      var n := |allJobs| - 1;
      TimeSeriesJobListings(allJobs[..n], isTimeSeriesViewJob)
      + (if isTimeSeriesViewJob(allJobs[n]) then [ListingOf(allJobs[n])] else [])
  }

  /** The picker lists every time series job, and nothing else. */
  lemma {:induction false} TimeSeriesJobListingsMembers(allJobs: seq<Job>, isTimeSeriesViewJob: Job -> bool)
    ensures |TimeSeriesJobListings(allJobs, isTimeSeriesViewJob)| <= |allJobs|
    ensures forall l :: l in TimeSeriesJobListings(allJobs, isTimeSeriesViewJob)
                   <==> exists j :: j in allJobs && isTimeSeriesViewJob(j) && l == ListingOf(j)
    decreases |allJobs|
  {
    if allJobs != [] {
      var n := |allJobs| - 1;
      var init := allJobs[..n];
      TimeSeriesJobListingsMembers(init, isTimeSeriesViewJob);
      assert forall j :: j in allJobs <==> j in init || j == allJobs[n];
    }
  }

  /** `find(jobs, { id })` finds an entry. */
  predicate HasListing(jobs: seq<JobListing>, id: string) {
    exists k :: 0 <= k < |jobs| && jobs[k].id == id
  }

  /** `mlJobService.getJob(jobId)`: the first job with that id. */
  function FindJob(allJobs: seq<Job>, jobId: string): Option<Job>
    decreases |allJobs|
  {
    if allJobs == [] then None
    else if allJobs[0].jobId == jobId then Some(allJobs[0])
    else FindJob(allJobs[1..], jobId)
  }

  /** The job found is the first with that id; none is found only when no job has it. */
  lemma {:induction false} FindJobSpec(allJobs: seq<Job>, jobId: string)
    ensures var r := FindJob(allJobs, jobId);
      (r.None? <==> forall k :: 0 <= k < |allJobs| ==> allJobs[k].jobId != jobId)
      && (r.Some? ==> exists k :: 0 <= k < |allJobs| && allJobs[k] == r.value && r.value.jobId == jobId
                                  && forall m :: 0 <= m < k ==> allJobs[m].jobId != jobId)
    decreases |allJobs|
  {
    if allJobs != [] && allJobs[0].jobId != jobId {
      FindJobSpec(allJobs[1..], jobId);
      assert forall k :: 1 <= k < |allJobs| ==> allJobs[1..][k - 1] == allJobs[k];
      var r := FindJob(allJobs, jobId);
      if r.Some? {
        var k :| 0 <= k < |allJobs[1..]| && allJobs[1..][k] == r.value && r.value.jobId == jobId
                 && forall m :: 0 <= m < k ==> allJobs[1..][m].jobId != jobId;
        assert allJobs[k + 1] == r.value;
        assert forall m :: 0 <= m < k + 1 ==> allJobs[m].jobId != jobId by {
          forall m | 0 <= m < k + 1 ensures allJobs[m].jobId != jobId {
            if m > 0 { assert allJobs[m] == allJobs[1..][m - 1]; }
          }
        }
      }
    } else if allJobs != [] {
      assert allJobs[0] == FindJob(allJobs, jobId).value;
    }
  }

  /** `jobs.map(j => j.id)`. */
  function ListingIds(jobs: seq<JobListing>): seq<string> {
    seq(|jobs|, k requires 0 <= k < |jobs| => jobs[k].id)
  }

  // ---------------------------------------------------------------- job selection

  /** lodash `difference(a, b)`: the elements of `a` not in `b`, in order. */
  function Difference(a: seq<string>, b: seq<string>): (r: seq<string>)
    ensures forall x :: x in r <==> x in a && x !in b
    decreases |a|
  {
    if a == [] then []
    else
      assert forall x :: x in a <==> x == a[0] || x in a[1..];
      (if a[0] in b then [] else [a[0]]) + Difference(a[1..], b)
  }

  /**
   * lodash `without(a, ...values)`: `a` without any of `values`, in order.
   * With the values spread from a list this is `difference(a, values)`.
   */
  function Without(a: seq<string>, values: seq<string>): seq<string> {
    Difference(a, values)
  }

  /** The elements of `a` that are in `b`, in order. */
  function KeepIn(a: seq<string>, b: seq<string>): seq<string>
    decreases |a|
  {
    if a == [] then [] else (if a[0] in b then [a[0]] else []) + KeepIn(a[1..], b)
  }

  /** Removing the ids that are not time series jobs keeps exactly the time series ones, in order. */
  lemma {:induction false} WithoutInvalidKeepsValid(selected: seq<string>, timeSeriesJobIds: seq<string>)
    ensures Without(selected, Difference(selected, timeSeriesJobIds)) == KeepIn(selected, timeSeriesJobIds)
  {
    WithoutDifferenceFrom(selected, selected, timeSeriesJobIds);
  }

  lemma {:induction false} WithoutDifferenceFrom(a: seq<string>, all: seq<string>, b: seq<string>)
    requires forall x :: x in a ==> x in all
    ensures Without(a, Difference(all, b)) == KeepIn(a, b)
    decreases |a|
  {
    if a != [] {
      assert forall x :: x in a[1..] ==> x in a;
      WithoutDifferenceFrom(a[1..], all, b);
      assert a[0] in a;
    }
  }

  /** What the job-selection subscriber does with a selection. */
  datatype SelectionAction =
    | SelectOnly(id: string)   // rewrite the URL selection to this one id and emit it again
    | LoadJob(id: string)      // load this job
    | NoJobs                   // no time series job exists: stop loading

  /** The subscriber's branches, with the valid ids `without` the invalid ones. */
  function JobSelectionAction(selectedJobIds: seq<string>, timeSeriesJobIds: seq<string>): (r: SelectionAction)
    ensures var valid := KeepIn(selectedJobIds, timeSeriesJobIds);
      var invalid := Difference(selectedJobIds, timeSeriesJobIds);
      (r.NoJobs? <==> valid == [] && timeSeriesJobIds == [])
      && (r.LoadJob? <==> |valid| == 1 && invalid == [])
      && (|valid| > 0 ==> r.id == valid[0])
      && (valid == [] && timeSeriesJobIds != [] ==> r == SelectOnly(timeSeriesJobIds[0]))
  {
    var invalidIds := Difference(selectedJobIds, timeSeriesJobIds);
    var ids := Without(selectedJobIds, invalidIds);
    WithoutInvalidKeepsValid(selectedJobIds, timeSeriesJobIds);
    if |ids| > 1 then
      if |ids| > 1 then SelectOnly(ids[0])
      else assert false; NoJobs
    else if |invalidIds| > 0 && |ids| > 0 then SelectOnly(ids[0])
    else if |ids| > 0 then LoadJob(ids[0])
    else if |timeSeriesJobIds| > 0 then SelectOnly(timeSeriesJobIds[0])
    else NoJobs
  }

  lemma KeepInMembers(a: seq<string>, b: seq<string>)
    ensures forall x :: x in KeepIn(a, b) <==> x in a && x in b
    decreases |a|
  {
    if a != [] {
      KeepInMembers(a[1..], b);
      assert forall x :: x in a <==> x == a[0] || x in a[1..];
    }
  }

  /** Every id the subscriber selects or loads is a time series job. */
  lemma SelectionIsTimeSeriesJob(selectedJobIds: seq<string>, timeSeriesJobIds: seq<string>)
    ensures var r := JobSelectionAction(selectedJobIds, timeSeriesJobIds);
      !r.NoJobs? ==> r.id in timeSeriesJobIds
  {
    var valid := KeepIn(selectedJobIds, timeSeriesJobIds);
    KeepInMembers(selectedJobIds, timeSeriesJobIds);
    if |valid| > 0 {
      assert valid[0] in valid;
    }
  }

  /** A rewritten selection is loaded when it is emitted again. */
  lemma SelectOnlyConverges(selectedJobIds: seq<string>, timeSeriesJobIds: seq<string>)
    ensures var r := JobSelectionAction(selectedJobIds, timeSeriesJobIds);
      r.SelectOnly? ==> JobSelectionAction([r.id], timeSeriesJobIds) == LoadJob(r.id)
  {
    var r := JobSelectionAction(selectedJobIds, timeSeriesJobIds);
    if r.SelectOnly? {
      SelectionIsTimeSeriesJob(selectedJobIds, timeSeriesJobIds);
      assert [r.id][1..] == [];
      assert KeepIn([r.id], timeSeriesJobIds) == [r.id];
      assert Difference([r.id], timeSeriesJobIds) == [];
    }
  }

  // ---------------------------------------------------------------- forecast zoom

  /** The time range the forecast service reports; a missing or zero end falls back to the time filter. */
  datatype ForecastRange = ForecastRange(earliest: Option<int>, latest: Option<int>)

  /** `resp.earliest || fallback`: `undefined` and `0` are falsy. */
  function OrFallback(value: Option<int>, fallback: int): (r: int)
    ensures r == fallback || (value.Some? && r == value.value && r != 0)
    ensures value.Some? && value.value != 0 ==> r == value.value
  {
    if value.Some? && value.value != 0 then value.value else fallback
  }

  function MinReal(a: real, b: real): real { if a <= b then a else b }

  function MaxReal(a: real, b: real): real { if a >= b then a else b }

  /** The zoom window, in milliseconds, centred on the start of the forecast (`[zoomEarliestMs, zoomLatestMs]`). */
  datatype ZoomWindow = ZoomWindow(fromMs: real, toMs: real)

  /**
   * The zoom arithmetic of `loadForForecastId`: the window ends half an auto
   * zoom after the forecast starts, but not after it ends, and starts one auto
   * zoom before that, but not before the first data point.
   */
  function ForecastZoom(earliest: int, latest: int, autoZoomDuration: int, earliestDataDate: int): (r: ZoomWindow)
    ensures r.toMs <= earliest as real + autoZoomDuration as real / 2.0 && r.toMs <= latest as real
    ensures r.toMs == earliest as real + autoZoomDuration as real / 2.0 || r.toMs == latest as real
    ensures r.fromMs >= r.toMs - autoZoomDuration as real && r.fromMs >= earliestDataDate as real
    ensures r.fromMs == r.toMs - autoZoomDuration as real || r.fromMs == earliestDataDate as real
  {
    var zoomLatestMs := MinReal(earliest as real + autoZoomDuration as real / 2.0, latest as real);
    var zoomEarliestMs := MaxReal(zoomLatestMs - autoZoomDuration as real, earliestDataDate as real);
    ZoomWindow(zoomEarliestMs, zoomLatestMs)
  }

  /** The window is at most one auto zoom long; it is exactly that long when the first data point does not cut it. */
  lemma ForecastZoomLength(earliest: int, latest: int, autoZoomDuration: int, earliestDataDate: int)
    ensures var r := ForecastZoom(earliest, latest, autoZoomDuration, earliestDataDate);
      r.toMs - r.fromMs <= autoZoomDuration as real
      && (r.toMs - autoZoomDuration as real >= earliestDataDate as real ==> r.toMs - r.fromMs == autoZoomDuration as real)
  {
  }

  /** A millisecond time as a date keeps it: fractions are cut toward zero. */
  function TruncMs(x: real): (r: int)
    ensures x >= 0.0 ==> r as real <= x < r as real + 1.0
    ensures x < 0.0 ==> r as real - 1.0 < x <= r as real
  {
    if x >= 0.0 then x.Floor else -((-x).Floor)
  }

  /**
   * The time filter after a forecast is selected: widened to cover both the
   * forecast and the current bounds when the forecast starts before or ends
   * after them; `None` when it lies within them (then the page refreshes).
   */
  function ForecastTimeRange(earliest: int, latest: int, boundsMin: int, boundsMax: int): (r: Option<(int, int)>)
    ensures r.None? <==> boundsMin <= earliest && latest <= boundsMax
    ensures r.Some? ==> r.value.0 <= earliest && r.value.0 <= boundsMin && r.value.1 >= latest && r.value.1 >= boundsMax
    ensures r.Some? ==> (r.value.0 == earliest || r.value.0 == boundsMin) && (r.value.1 == latest || r.value.1 == boundsMax)
  {
    if earliest < boundsMin || latest > boundsMax then
      Some((if earliest <= boundsMin then earliest else boundsMin, if latest >= boundsMax then latest else boundsMax))
    else None
  }
}
