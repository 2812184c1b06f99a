/**
 * The stateful part of the single metric viewer page (`TimeSeriesExplorer`):
 * the component state its handlers update, the URL app state behind
 * `appStateHandler`, the global URL selection, the time filter, and the
 * refreshes whose queries are still in flight. The data services are not
 * called: a query's answer or failure is an event (`QueryArrived`,
 * `QueryFailed`), and a service result a method needs is a parameter.
 */
module Explorer {
  import opened Wrappers
  import opened SeriesRules

  /** The zoom kept in the app state; `InvalidZoom` is what an undefined auto zoom duration writes. */
  datatype AppZoom = AppZoom(fromMs: int, toMs: int) | InvalidZoom

  /** What `loadForForecastId` reads from the page when it asks for a forecast's time range. */
  datatype ForecastRequest =
    ForecastRequest(forecastId: string, autoZoomDuration: Option<int>, contextChartData: Option<seq<ChartPoint>>)

  /** The chart and data fields of the page state that a refresh sets. */
  datatype ChartState = ChartState(
    chartDetails: Option<string>, contextChartData: Option<seq<ChartPoint>>, contextForecastData: Option<seq<ChartPoint>>,
    loading: bool, modelPlotEnabled: bool, hasResults: bool, dataNotChartable: bool, criteriaFields: seq<Criterion>)

  class TimeSeriesExplorer {
    /** The job and detector rules of the ML plugin the page consults. */
    const rules: JobRules

    // component state
    var jobs: seq<JobListing>
    var selectedJob: Option<Job>
    var detectors: seq<int>       // the viewable detector indices of the selected job
    var detectorId: int           // `+detectorId`; it is read only once a job is selected
    var entities: seq<Entity>
    var loadCounter: nat
    var loading: bool
    var hasResults: bool
    var dataNotChartable: bool
    var modelPlotEnabled: bool
    var criteriaFields: seq<Criterion>
    var contextChartData: Option<seq<ChartPoint>>
    var contextForecastData: Option<seq<ChartPoint>>
    var swimlaneData: Option<seq<ChartPoint>>
    var chartDetails: Option<string>
    var autoZoomDuration: Option<int>
    var zoomFrom: Option<int>
    var zoomTo: Option<int>
    var showForecast: bool
    var showForecastCheckbox: bool

    // the app state (URL)
    var appDetectorIndex: Option<int>
    var appEntities: map<string, string>
    var appForecastId: Option<string>
    var appZoom: Option<AppZoom>

    // the global state's job selection (URL)
    var selectedIds: seq<string>

    // the time filter, in epoch milliseconds
    var timeFrom: int
    var timeTo: int

    /** The refreshes still awaiting answers, by the `loadCounter` each captured. */
    var pending: map<nat, PendingLoad>

    /** Every load in flight was started by a refresh so far, under its own counter, and still awaits a query. */
    ghost predicate Valid()
      reads this
    {
      LoadsInFlight(pending, loadCounter)
    }

    /** The page as it mounts: the default state, over the app state and time filter in the URL. */
    constructor (rules: JobRules, appDetectorIndex: Option<int>, appEntities: map<string, string>,
                 appForecastId: Option<string>, selectedIds: seq<string>, timeFrom: int, timeTo: int)
      ensures Valid() && this.rules == rules
      ensures jobs == [] && selectedJob.None? && detectors == [] && entities == [] && loadCounter == 0
      ensures !loading && !hasResults && !dataNotChartable && !modelPlotEnabled && showForecast && !showForecastCheckbox
      ensures criteriaFields == [] && contextChartData.None? && contextForecastData.None? && swimlaneData.None?
      ensures chartDetails.None? && autoZoomDuration.None? && zoomFrom.None? && zoomTo.None?
      ensures this.appDetectorIndex == appDetectorIndex && this.appEntities == appEntities
      ensures this.appForecastId == appForecastId && appZoom.None? && this.selectedIds == selectedIds
      ensures this.timeFrom == timeFrom && this.timeTo == timeTo && pending == map[]
    {
      this.rules := rules;
      jobs := [];
      selectedJob := None;
      detectors := [];
      detectorId := 0;
      entities := [];
      loadCounter := 0;
      loading := false;
      hasResults := false;
      dataNotChartable := false;
      modelPlotEnabled := false;
      criteriaFields := [];
      contextChartData := None;
      contextForecastData := None;
      swimlaneData := None;
      chartDetails := None;
      autoZoomDuration := None;
      zoomFrom := None;
      zoomTo := None;
      showForecast := true;
      showForecastCheckbox := false;
      this.appDetectorIndex := appDetectorIndex;
      this.appEntities := appEntities;
      this.appForecastId := appForecastId;
      appZoom := None;
      this.selectedIds := selectedIds;
      this.timeFrom := timeFrom;
      this.timeTo := timeTo;
      pending := map[];
    }

    // ---------------------------------------------------------------- entity controls

    /**
     * `updateControlsForDetector`: the entity controls of the selected
     * detector, valued from the app state. Without a selected job the source
     * throws on `selectedJob.analysis_config`; nothing changes then.
     */
    method UpdateControlsForDetector()
      modifies this`entities
      ensures selectedJob.Some? ==> entities == EntityControls(DetectorAt(selectedJob.value, detectorId), appEntities)
      ensures selectedJob.None? ==> entities == old(entities)
    {
      if selectedJob.None? {
        return;
      }
      var detector := DetectorAt(selectedJob.value, detectorId);
      var controls: seq<Entity> := [];
      var names: seq<string> := [];
      if detector.Some? {
        var d := detector.value;
        if d.partitionFieldName.Some? {
          var name := d.partitionFieldName.value;
          EntitiesForAppend(names, [name], appEntities);
          controls := controls + [Entity(name, StateValue(appEntities, name))];
          names := names + [name];
        }
        if d.overFieldName.Some? {
          var name := d.overFieldName.value;
          EntitiesForAppend(names, [name], appEntities);
          controls := controls + [Entity(name, StateValue(appEntities, name))];
          names := names + [name];
        }
        if d.byFieldName.Some? && d.overFieldName.None? {
          var name := d.byFieldName.value;
          EntitiesForAppend(names, [name], appEntities);
          controls := controls + [Entity(name, StateValue(appEntities, name))];
          names := names + [name];
        }
      }
      assert names == ControlFieldNames(detector);
      entities := controls;
    }

    // ---------------------------------------------------------------- refresh

    /**
     * What `refresh` leaves for a selected job, from the load counter, the
     * loads and the criteria fields it started with: the counter moves on,
     * the context data are cleared and the model plot flag is recomputed;
     * then either the not-chartable state is published with the criteria
     * fields, or a new load starts for the awaited queries.
     */
    ghost predicate RefreshedFrom(counter0: nat, pending0: map<nat, PendingLoad>, criteria0: seq<Criterion>,
                                  job: Job, detectorIndex: int, currentEntities: seq<Entity>, hasForecast: bool)
      reads this`loadCounter, this`modelPlotEnabled, this`chartDetails, this`contextChartData, this`contextForecastData, this`hasResults, this`dataNotChartable, this`loading, this`criteriaFields, this`pending
    {
      var notChartable := NotChartable(modelPlotEnabled, rules.isSourceDataChartableForDetector(job, detectorIndex), currentEntities);
      var criteria := CriteriaFields(detectorIndex, currentEntities);
      loadCounter == counter0 + 1
      && modelPlotEnabled == rules.isModelPlotEnabled(job, detectorIndex, currentEntities)
      && chartDetails.None? && contextChartData.None? && contextForecastData.None?
      && !hasResults && dataNotChartable == notChartable && loading == !notChartable
      && (if notChartable then criteriaFields == criteria && pending == pending0
          else criteriaFields == criteria0 && pending == pending0[loadCounter := StartLoad(loadCounter, criteria, hasForecast)])
    }

    /** `refresh`: starts loading the selected job's charts, or shows that its data cannot be charted. */
    method Refresh()
      requires Valid()
      modifies this`chartDetails, this`contextChartData, this`contextForecastData, this`loadCounter, this`loading,
               this`modelPlotEnabled, this`hasResults, this`dataNotChartable, this`criteriaFields, this`pending
      ensures Valid()
      ensures selectedJob.None? ==> unchanged(this)
      ensures selectedJob.Some? ==>
        RefreshedFrom(old(loadCounter), old(pending), old(criteriaFields), selectedJob.value, detectorId, entities, appForecastId.Some?)
    {
      if selectedJob.None? {
        return;
      }
      StartRefresh(selectedJob.value, detectorId, entities, appForecastId.Some?);
    }

    /** The `setState` of `refresh` for a selected job, then its callback. */
    method StartRefresh(job: Job, detectorIndex: int, currentEntities: seq<Entity>, hasForecast: bool)
      requires Valid()
      modifies this`chartDetails, this`contextChartData, this`contextForecastData, this`loadCounter, this`loading,
               this`modelPlotEnabled, this`hasResults, this`dataNotChartable, this`criteriaFields, this`pending
      ensures Valid()
      ensures RefreshedFrom(old(loadCounter), old(pending), old(criteriaFields), job, detectorIndex, currentEntities, hasForecast)
    {
      ghost var counter0 := loadCounter;
      chartDetails := None;
      contextChartData := None;
      contextForecastData := None;
      loadCounter := loadCounter + 1;
      loading := true;
      modelPlotEnabled := rules.isModelPlotEnabled(job, detectorIndex, currentEntities);
      hasResults := false;
      dataNotChartable := false;
      LoadContextData(counter0, job, detectorIndex, currentEntities, hasForecast);
    }

    /**
     * The callback of `refresh`'s `setState`, which reads the state just set:
     * with the criteria fields, either publishes that the data cannot be
     * charted, or starts the load of the current counter.
     */
    method LoadContextData(ghost counter0: nat, job: Job, detectorIndex: int, currentEntities: seq<Entity>, hasForecast: bool)
      requires Valid() && loadCounter == counter0 + 1 && loadCounter !in pending
      requires chartDetails.None? && contextChartData.None? && contextForecastData.None? && !hasResults && !dataNotChartable
      requires loading && modelPlotEnabled == rules.isModelPlotEnabled(job, detectorIndex, currentEntities)
      modifies this`loading, this`hasResults, this`dataNotChartable, this`criteriaFields, this`pending
      ensures Valid()
      ensures RefreshedFrom(counter0, old(pending), old(criteriaFields), job, detectorIndex, currentEntities, hasForecast)
    {
      var criteria := CriteriaFields(detectorIndex, currentEntities);
      if NotChartable(modelPlotEnabled, rules.isSourceDataChartableForDetector(job, detectorIndex), currentEntities) {
        criteriaFields := criteria;
        hasResults := false;
        loading := false;
        dataNotChartable := true;
        return;
      }
      StartKeepsLoadsInFlight(pending, loadCounter - 1, criteria, hasForecast);
      pending := pending[loadCounter := StartLoad(loadCounter, criteria, hasForecast)];
    }

    /**
     * One query of load `counter` answers: its result is stored and `finish`
     * runs. When that takes the count to zero and the load is still the
     * latest, the stored keys are published, with the auto zoom duration and
     * the focus range (`autoZoom`, `focusRange`: what the utilities compute)
     * when the metric data are not empty.
     */
    method QueryArrived(counter: nat, arrival: Arrival, autoZoom: int, focusRange: (int, int)) returns (published: bool)
      requires Valid()
      requires counter in pending && QueryOf(arrival) in pending[counter].outstanding
      modifies this`pending, this`criteriaFields, this`contextChartData, this`swimlaneData, this`chartDetails,
               this`contextForecastData, this`hasResults, this`loading, this`autoZoomDuration, this`zoomFrom, this`zoomTo
      ensures Valid()
      ensures var next := Answer(old(pending[counter]), arrival);
        pending == if next.outstanding == {} then old(pending) - {counter} else old(pending)[counter := next]
      ensures published == FinishPublishes(old(pending[counter]), counter, loadCounter)
      ensures published <==> old(pending[counter]).outstanding == {QueryOf(arrival)} && old(pending[counter]).failed == {}
                             && counter == loadCounter
      ensures var upd := Store(old(pending[counter]).update, arrival);
        published ==> upd.contextChartData.Some? && Published(upd, autoZoom, focusRange, old(swimlaneData), old(chartDetails),
                                                              old(contextForecastData), old(autoZoomDuration), old(zoomFrom), old(zoomTo))
      ensures !published ==>
        criteriaFields == old(criteriaFields) && contextChartData == old(contextChartData)
        && swimlaneData == old(swimlaneData) && chartDetails == old(chartDetails)
        && contextForecastData == old(contextForecastData) && hasResults == old(hasResults) && loading == old(loading)
        && autoZoomDuration == old(autoZoomDuration) && zoomFrom == old(zoomFrom) && zoomTo == old(zoomTo)
    {
      var load := pending[counter];
      var q := QueryOf(arrival);
      var next := Answer(load, arrival);
      StepKeepsLoadsInFlight(pending, loadCounter, counter, next);
      FinishPublishesOnlyComplete(load, q, counter, loadCounter);
      published := FinishPublishes(load, counter, loadCounter);
      if next.outstanding == {} {
        pending := pending - {counter};
      } else {
        pending := pending[counter := next];
      }
      if published {
        StoreSetsOneKey(load.update, arrival);
        assert next.update.contextChartData.Some? by {
          if q != MetricDataQuery {
            assert MetricDataQuery !in load.outstanding && MetricDataQuery !in load.failed;
          }
        }
        Publish(next.update, autoZoom, focusRange);
      }
    }

    /**
     * The state `finish` publishes from `stateUpdate`, over the values the
     * keys it does not set keep.
     */
    ghost predicate Published(upd: StateUpdate, autoZoom: int, focusRange: (int, int),
                              swimlane0: Option<seq<ChartPoint>>, chartDetails0: Option<string>,
                              forecast0: Option<seq<ChartPoint>>, autoZoom0: Option<int>, zoomFrom0: Option<int>, zoomTo0: Option<int>)
      requires upd.contextChartData.Some?
      reads this
    {
      criteriaFields == upd.criteriaFields && contextChartData == upd.contextChartData
      && swimlaneData == Merge(upd.swimlaneData, swimlane0)
      && chartDetails == Merge(upd.chartDetails, chartDetails0)
      && contextForecastData == Merge(upd.contextForecastData, forecast0)
      && hasResults == HasResults(upd.contextChartData, upd.contextForecastData) && !loading
      && if |upd.contextChartData.value| > 0
         then autoZoomDuration == Some(autoZoom) && zoomFrom == Some(focusRange.0) && zoomTo == Some(focusRange.1)
         else autoZoomDuration == autoZoom0 && zoomFrom == zoomFrom0 && zoomTo == zoomTo0
    }

    /** The publishing half of `finish`: `hasResults`, `loading`, the zoom, and `setState(stateUpdate)`. */
    method Publish(upd: StateUpdate, autoZoom: int, focusRange: (int, int))
      requires upd.contextChartData.Some?
      modifies this`criteriaFields, this`contextChartData, this`swimlaneData, this`chartDetails,
               this`contextForecastData, this`hasResults, this`loading, this`autoZoomDuration, this`zoomFrom, this`zoomTo
      ensures Published(upd, autoZoom, focusRange, old(swimlaneData), old(chartDetails),
                        old(contextForecastData), old(autoZoomDuration), old(zoomFrom), old(zoomTo))
    {
      criteriaFields := upd.criteriaFields;
      contextChartData := upd.contextChartData;
      swimlaneData := Merge(upd.swimlaneData, swimlaneData);
      chartDetails := Merge(upd.chartDetails, chartDetails);
      contextForecastData := Merge(upd.contextForecastData, contextForecastData);
      hasResults := HasResults(upd.contextChartData, upd.contextForecastData);
      loading := false;
      if |upd.contextChartData.value| > 0 {
        autoZoomDuration := Some(autoZoom);
        zoomFrom := Some(focusRange.0);
        zoomTo := Some(focusRange.1);
      }
    }

    /** One query of load `counter` fails: its `catch` only logs, so the load can no longer publish. */
    method QueryFailed(counter: nat, q: Query)
      requires Valid()
      requires counter in pending && q in pending[counter].outstanding
      modifies this`pending
      ensures Valid()
      ensures var next := Fail(old(pending[counter]), q);
        pending == if next.outstanding == {} then old(pending) - {counter} else old(pending)[counter := next]
    {
      var next := Fail(pending[counter], q);
      StepKeepsLoadsInFlight(pending, loadCounter, counter, next);
      if next.outstanding == {} {
        pending := pending - {counter};
      } else {
        pending := pending[counter := next];
      }
    }

    // ---------------------------------------------------------------- saving and filtering

    /** `saveSeriesPropertiesAndRefresh`: writes the detector index and the entities to the app state, then refreshes. */
    method SaveSeriesPropertiesAndRefresh()
      requires Valid()
      modifies this`appDetectorIndex, this`appEntities,
               this`chartDetails, this`contextChartData, this`contextForecastData, this`loadCounter, this`loading,
               this`modelPlotEnabled, this`hasResults, this`dataNotChartable, this`criteriaFields, this`pending
      ensures Valid()
      ensures appDetectorIndex == Some(detectorId) && appEntities == EntitiesToState(entities)
      ensures selectedJob.None? ==> loadCounter == old(loadCounter) && pending == old(pending) && Charts() == old(Charts())
      ensures selectedJob.Some? ==>
        RefreshedFrom(old(loadCounter), old(pending), old(criteriaFields), selectedJob.value, detectorId, entities, appForecastId.Some?)
    {
      appDetectorIndex := Some(detectorId);
      appEntities := EntitiesToState(entities);
      Refresh();
    }

    /**
     * `tableFilter`: a click on the anomalies table's filter icons. The first
     * entity control of that field is set to the value ("+") or cleared when
     * it holds the value ("-"); when it changed, the series is saved and
     * refreshed.
     */
    method TableFilter(field: string, value: string, operator: string) returns (changed: bool)
      requires Valid()
      modifies this`entities, this`appDetectorIndex, this`appEntities,
               this`chartDetails, this`contextChartData, this`contextForecastData, this`loadCounter, this`loading,
               this`modelPlotEnabled, this`hasResults, this`dataNotChartable, this`criteriaFields, this`pending
      ensures Valid()
      ensures var outcome := SeriesRules.TableFilter(old(entities), field, value, operator);
        entities == outcome.entities && changed == outcome.refresh
      ensures changed ==> appDetectorIndex == Some(detectorId) && appEntities == EntitiesToState(entities)
      ensures changed && selectedJob.Some? ==>
        RefreshedFrom(old(loadCounter), old(pending), old(criteriaFields), selectedJob.value, detectorId, entities, appForecastId.Some?)
      ensures !changed ==>
        appDetectorIndex == old(appDetectorIndex) && appEntities == old(appEntities)
        && loadCounter == old(loadCounter) && pending == old(pending) && Charts() == old(Charts())
    {
      changed := false;
      var found := FirstIndexOf(entities, field);
      if found.None? {
        return;
      }
      var i := found.value;
      if operator == "+" && entities[i].fieldValue != value {
        entities := entities[i := Entity(field, value)];
        changed := true;
        SaveSeriesPropertiesAndRefresh();
      } else if operator == "-" && entities[i].fieldValue == value {
        entities := entities[i := Entity(field, "")];
        changed := true;
        SaveSeriesPropertiesAndRefresh();
      }
    }

    // ---------------------------------------------------------------- loading a job

    /** The picker entries of the time series jobs, as the `each` loop of `loadForJobId` pushes them. */
    method TimeSeriesJobs(allJobs: seq<Job>) returns (newJobs: seq<JobListing>)
      ensures newJobs == TimeSeriesJobListings(allJobs, rules.isTimeSeriesViewJob)
    {
      newJobs := [];
      var k := 0;
      while k < |allJobs|
        invariant 0 <= k <= |allJobs|
        invariant newJobs == TimeSeriesJobListings(allJobs[..k], rules.isTimeSeriesViewJob)
      {
        assert allJobs[..k + 1][..k] == allJobs[..k];
        if rules.isTimeSeriesViewJob(allJobs[k]) {
          newJobs := newJobs + [ListingOf(allJobs[k])];
        }
        k := k + 1;
      }
      assert allJobs[..|allJobs|] == allJobs;
    }

    /** The indices of the detectors the time series view can show, as the `each` loop of `loadForJobId` pushes them. */
    method ViewableDetectors(job: Job) returns (viewable: seq<nat>)
      ensures viewable == ViewableIndices(job, rules.isTimeSeriesViewDetector, |job.detectors|)
    {
      viewable := [];
      var index := 0;
      while index < |job.detectors|
        invariant 0 <= index <= |job.detectors|
        invariant viewable == ViewableIndices(job, rules.isTimeSeriesViewDetector, index)
      {
        if rules.isTimeSeriesViewDetector(job, index) {
          viewable := viewable + [index];
        }
        index := index + 1;
      }
    }

    /**
     * `loadForJobId`: selects a job of the picker. When the picker list does
     * not have it, the list is rebuilt from all jobs. The source throws, and
     * nothing more changes, when the job is unknown; otherwise it goes on
     * as `LoadJob`.
     */
    method LoadForJobId(jobId: string, pickerJobs: seq<JobListing>, allJobs: seq<Job>) returns (loaded: bool)
      requires Valid()
      modifies this`jobs, this`selectedJob, this`detectors, this`detectorId, this`appDetectorIndex, this`entities,
               this`chartDetails, this`contextChartData, this`contextForecastData, this`loadCounter, this`loading,
               this`modelPlotEnabled, this`hasResults, this`dataNotChartable, this`criteriaFields, this`pending
      ensures Valid()
      ensures JobIdLoaded(jobId, pickerJobs, allJobs, loaded, old(jobs), old(selectedJob), old(detectors), old(detectorId),
                          old(appDetectorIndex), old(appEntities), old(entities), old(loadCounter), old(pending), old(Charts()))
    {
      loaded := false;
      if !HasListing(pickerJobs, jobId) {
        jobs := TimeSeriesJobs(allJobs);
      }
      var found := FindJob(allJobs, jobId);
      if found.None? {
        return;
      }
      loaded := LoadJob(found.value);
    }

    /**
     * What `loadForJobId` leaves: the picker list, rebuilt when it lacked
     * the job; an unknown job loads nothing and changes nothing more; a
     * known one is handled as `LoadJob` says.
     */
    ghost predicate JobIdLoaded(jobId: string, pickerJobs: seq<JobListing>, allJobs: seq<Job>, loaded: bool,
                                jobs0: seq<JobListing>, job0: Option<Job>, detectors0: seq<int>, detectorId0: int,
                                appDetectorIndex0: Option<int>, appEntities0: map<string, string>, entities0: seq<Entity>,
                                counter0: nat, pending0: map<nat, PendingLoad>, charts0: ChartState)
      reads this
    {
      jobs == (if HasListing(pickerJobs, jobId) then jobs0 else TimeSeriesJobListings(allJobs, rules.isTimeSeriesViewJob))
      && (loaded ==> selectedJob == FindJob(allJobs, jobId))
      && (FindJob(allJobs, jobId).None? ==>
            !loaded && SameSelection(job0, detectors0, detectorId0, appDetectorIndex0, entities0, counter0, pending0, charts0))
      && (FindJob(allJobs, jobId).Some? ==>
            JobLoaded(FindJob(allJobs, jobId).value, loaded, job0, detectors0, detectorId0, appDetectorIndex0,
                      appEntities0, entities0, counter0, pending0, charts0))
    }

    /** The chart and data fields a refresh sets. */
    ghost function Charts(): ChartState
      reads this`chartDetails, this`contextChartData, this`contextForecastData, this`loading, this`modelPlotEnabled,
            this`hasResults, this`dataNotChartable, this`criteriaFields
    {
      ChartState(chartDetails, contextChartData, contextForecastData, loading, modelPlotEnabled,
                 hasResults, dataNotChartable, criteriaFields)
    }

    /** The selection, the charts and the loads are as they were. */
    ghost predicate SameSelection(job0: Option<Job>, detectors0: seq<int>, detectorId0: int, appDetectorIndex0: Option<int>,
                                  entities0: seq<Entity>, counter0: nat, pending0: map<nat, PendingLoad>, charts0: ChartState)
      reads this`selectedJob, this`detectors, this`detectorId, this`appDetectorIndex, this`entities, this`loadCounter, this`pending,
            this`chartDetails, this`contextChartData, this`contextForecastData, this`loading, this`modelPlotEnabled,
            this`hasResults, this`dataNotChartable, this`criteriaFields
    {
      selectedJob == job0 && detectors == detectors0 && detectorId == detectorId0
      && appDetectorIndex == appDetectorIndex0 && entities == entities0 && loadCounter == counter0 && pending == pending0
      && Charts() == charts0
    }

    /**
     * `job` is loaded exactly when it has a viewable detector; it is then
     * shown and refreshed, and otherwise nothing changes (the source throws
     * on `viewableDetectors[0]`).
     */
    ghost predicate JobLoaded(job: Job, loaded: bool, job0: Option<Job>, detectors0: seq<int>, detectorId0: int,
                              appDetectorIndex0: Option<int>, appEntities0: map<string, string>, entities0: seq<Entity>,
                              counter0: nat, pending0: map<nat, PendingLoad>, charts0: ChartState)
      reads this
    {
      (loaded <==> ViewableIndices(job, rules.isTimeSeriesViewDetector, |job.detectors|) != [])
      && (loaded ==> selectedJob == Some(job) && JobShown(job, appDetectorIndex0, appEntities0)
                     && RefreshedFrom(counter0, pending0, charts0.criteriaFields, job, detectorId, entities, appForecastId.Some?))
      && (!loaded ==> SameSelection(job0, detectors0, detectorId0, appDetectorIndex0, entities0, counter0, pending0, charts0))
    }

    /** The rest of `loadForJobId` once the job is found: the detector check, the controls and the refresh. */
    method LoadJob(job: Job) returns (loaded: bool)
      requires Valid()
      modifies this`selectedJob, this`detectors, this`detectorId, this`appDetectorIndex, this`entities,
               this`chartDetails, this`contextChartData, this`contextForecastData, this`loadCounter, this`loading,
               this`modelPlotEnabled, this`hasResults, this`dataNotChartable, this`criteriaFields, this`pending
      ensures Valid()
      ensures JobLoaded(job, loaded, old(selectedJob), old(detectors), old(detectorId), old(appDetectorIndex),
                        old(appEntities), old(entities), old(loadCounter), old(pending), old(Charts()))
    {
      loaded := false;
      var viewable := ViewableDetectors(job);
      var choice := CheckDetectorIndex(appDetectorIndex, viewable);
      if choice.None? {
        return;
      }
      ShowAndRefresh(job, viewable, choice.value);
      loaded := true;
    }

    /** The job with a viewable detector is shown, then refreshed once its controls are built. */
    method ShowAndRefresh(job: Job, viewable: seq<nat>, choice: DetectorChoice)
      requires Valid()
      requires viewable == ViewableIndices(job, rules.isTimeSeriesViewDetector, |job.detectors|)
      requires CheckDetectorIndex(appDetectorIndex, viewable) == Some(choice)
      modifies this`selectedJob, this`detectors, this`detectorId, this`appDetectorIndex, this`entities,
               this`chartDetails, this`contextChartData, this`contextForecastData, this`loadCounter, this`loading,
               this`modelPlotEnabled, this`hasResults, this`dataNotChartable, this`criteriaFields, this`pending
      ensures Valid()
      ensures selectedJob == Some(job) && JobShown(job, old(appDetectorIndex), appEntities)
      ensures RefreshedFrom(old(loadCounter), old(pending), old(criteriaFields), job, detectorId, entities, appForecastId.Some?)
    {
      ShowJob(job, viewable, choice);
      Refresh();
    }

    /**
     * The job is shown with its viewable detectors, the detector the index
     * check chose (written back to the app state when the requested one was
     * not viewable), and that detector's entity controls.
     */
    ghost predicate JobShown(job: Job, requested: Option<int>, entitiesState: map<string, string>)
      reads this`detectors, this`detectorId, this`appDetectorIndex, this`entities
    {
      var viewable := ViewableIndices(job, rules.isTimeSeriesViewDetector, |job.detectors|);
      var choice := CheckDetectorIndex(requested, viewable);
      choice.Some?
      && detectors == viewable && detectorId == choice.value.index
      && appDetectorIndex == (if choice.value.writeBack then Some(choice.value.index) else requested)
      && entities == EntityControls(DetectorAt(job, detectorId), entitiesState)
    }

    /** The write-back of the index check, the `setState` of the job and its detectors, and `updateControlsForDetector`. */
    method ShowJob(job: Job, viewable: seq<nat>, choice: DetectorChoice)
      requires viewable == ViewableIndices(job, rules.isTimeSeriesViewDetector, |job.detectors|)
      requires CheckDetectorIndex(appDetectorIndex, viewable) == Some(choice)
      modifies this`selectedJob, this`detectors, this`detectorId, this`appDetectorIndex, this`entities
      ensures selectedJob == Some(job) && JobShown(job, old(appDetectorIndex), appEntities)
    {
      if choice.writeBack {
        appDetectorIndex := Some(choice.index);
      }
      detectorId := choice.index;
      detectors := viewable;
      selectedJob := Some(job);
      UpdateControlsForDetector();
    }

    /** `APP_STATE_ACTION.CLEAR`: the detector index, the entities and the forecast leave the app state. */
    method ClearAppState()
      modifies this`appDetectorIndex, this`appEntities, this`appForecastId
      ensures appDetectorIndex.None? && appEntities == map[] && appForecastId.None?
    {
      appDetectorIndex := None;
      appEntities := map[];
      appForecastId := None;
    }

    /**
     * The job-selection subscriber, for the selection `selection` and the
     * time series jobs `pickerJobs` (`createTimeSeriesJobData`). A rewritten
     * selection is stored in the global state and must be emitted again by
     * the caller; a job to load is loaded by `LoadSelectedJob`; with no time
     * series job loading stops. Only a job to load touches the job, the
     * controls, the charts or the app state.
     */
    method JobSelectionChanged(selection: seq<string>, pickerJobs: seq<JobListing>, allJobs: seq<Job>)
      returns (action: SelectionAction, loaded: bool)
      requires Valid()
      modifies this`showForecastCheckbox, this`selectedIds, this`appForecastId, this`appEntities,
               this`jobs, this`selectedJob, this`detectors, this`detectorId, this`appDetectorIndex, this`entities,
               this`chartDetails, this`contextChartData, this`contextForecastData, this`loadCounter, this`loading,
               this`modelPlotEnabled, this`hasResults, this`dataNotChartable, this`criteriaFields, this`pending
      ensures Valid() && !showForecastCheckbox
      ensures action == JobSelectionAction(selection, ListingIds(pickerJobs))
      ensures !action.LoadJob? ==>
        !loaded && jobs == old(jobs) && detectors == old(detectors) && detectorId == old(detectorId) && entities == old(entities)
        && selectedJob == old(selectedJob) && loadCounter == old(loadCounter) && pending == old(pending)
        && appDetectorIndex == old(appDetectorIndex) && appEntities == old(appEntities) && appForecastId == old(appForecastId)
      ensures action.SelectOnly? ==> selectedIds == [action.id] && Charts() == old(Charts())
      ensures action.NoJobs? ==> selectedIds == old(selectedIds) && Charts() == old(Charts()).(loading := false)
      ensures action.LoadJob? ==>
        selectedIds == old(selectedIds)
        && SelectedJobLoaded(action.id, pickerJobs, allJobs, loaded, old(jobs), old(selectedJob), old(detectors), old(detectorId),
                             old(appDetectorIndex), old(appEntities), old(appForecastId), old(entities),
                             old(loadCounter), old(pending), old(Charts()))
    {
      showForecastCheckbox := false;
      loaded := false;
      action := JobSelectionAction(selection, ListingIds(pickerJobs));
      match action {
        case SelectOnly(id) =>
          selectedIds := [id];
        case NoJobs =>
          loading := false;
        case LoadJob(id) =>
          loaded := LoadSelectedJob(id, pickerJobs, allJobs);
      }
    }

    /**
     * The app state is cleared when another job was selected before; then
     * the job is loaded by `loadForJobId` from that (possibly cleared) state.
     */
    ghost predicate SelectedJobLoaded(id: string, pickerJobs: seq<JobListing>, allJobs: seq<Job>, loaded: bool,
                                      jobs0: seq<JobListing>, job0: Option<Job>, detectors0: seq<int>, detectorId0: int,
                                      appDetectorIndex0: Option<int>, appEntities0: map<string, string>,
                                      appForecastId0: Option<string>, entities0: seq<Entity>,
                                      counter0: nat, pending0: map<nat, PendingLoad>, charts0: ChartState)
      reads this
    {
      var cleared := job0.Some? && job0.value.jobId != id;
      appForecastId == (if cleared then None else appForecastId0)
      && appEntities == (if cleared then map[] else appEntities0)
      && JobIdLoaded(id, pickerJobs, allJobs, loaded, jobs0, job0, detectors0, detectorId0,
                     if cleared then None else appDetectorIndex0, if cleared then map[] else appEntities0,
                     entities0, counter0, pending0, charts0)
    }

    /** The subscriber's normal branch: clear the app state when the job changes, then `loadForJobId`. */
    method LoadSelectedJob(id: string, pickerJobs: seq<JobListing>, allJobs: seq<Job>) returns (loaded: bool)
      requires Valid()
      modifies this`appForecastId, this`appEntities,
               this`jobs, this`selectedJob, this`detectors, this`detectorId, this`appDetectorIndex, this`entities,
               this`chartDetails, this`contextChartData, this`contextForecastData, this`loadCounter, this`loading,
               this`modelPlotEnabled, this`hasResults, this`dataNotChartable, this`criteriaFields, this`pending
      ensures Valid()
      ensures SelectedJobLoaded(id, pickerJobs, allJobs, loaded, old(jobs), old(selectedJob), old(detectors), old(detectorId),
                                old(appDetectorIndex), old(appEntities), old(appForecastId), old(entities),
                                old(loadCounter), old(pending), old(Charts()))
    {
      if selectedJob.Some? && selectedJob.value.jobId != id {
        ClearAppState();
      }
      loaded := LoadForJobId(id, pickerJobs, allJobs);
    }

    // ---------------------------------------------------------------- forecasts

    /**
     * `loadForForecastId` as it calls the forecast service: it reads the
     * auto zoom duration and the context chart data of the page then, and
     * the answer uses what it read (the selected job goes only to the
     * service).
     */
    method RequestForecast(forecastId: string) returns (request: ForecastRequest)
      ensures request.forecastId == forecastId
      ensures request.autoZoomDuration == autoZoomDuration && request.contextChartData == contextChartData
    {
      request := ForecastRequest(forecastId, autoZoomDuration, contextChartData);
    }

    /**
     * `loadForForecastId` once the forecast service has answered `request`
     * with `response` (`None`: the request failed and is only logged). The
     * forecast id is stored, the zoom is centred on the forecast start,
     * the forecast is shown, and then the time filter is widened to the
     * forecast, or the page refreshes when it already covers it. A context
     * chart that was empty or missing at the request makes
     * `first(contextChartData).date` throw right after the forecast id is
     * stored. The time filter's range is read at the answer.
     */
    method LoadForForecastId(request: ForecastRequest, response: Option<ForecastRange>, boundsMin: int, boundsMax: int)
      returns (refreshed: bool)
      requires Valid()
      modifies this`appForecastId, this`appZoom, this`showForecast, this`timeFrom, this`timeTo,
               this`chartDetails, this`contextChartData, this`contextForecastData, this`loadCounter, this`loading,
               this`modelPlotEnabled, this`hasResults, this`dataNotChartable, this`criteriaFields, this`pending
      ensures Valid()
      ensures response.None? ==> appForecastId == old(appForecastId)
      ensures response.Some? ==> appForecastId == Some(request.forecastId)
      ensures var chart := request.contextChartData;
        response.None? || chart.None? || chart.value == [] ==>
          appZoom == old(appZoom) && showForecast == old(showForecast) && timeFrom == old(timeFrom) && timeTo == old(timeTo)
          && !refreshed && loadCounter == old(loadCounter) && pending == old(pending) && Charts() == old(Charts())
      ensures var chart := request.contextChartData;
        response.Some? && chart.Some? && chart.value != [] ==>
          var earliest := OrFallback(response.value.earliest, old(timeFrom));
          var latest := OrFallback(response.value.latest, old(timeTo));
          showForecast && appZoom == Some(ForecastAppZoom(earliest, latest, request.autoZoomDuration, chart.value[0].dateMs))
          && RangeApplied(ForecastTimeRange(earliest, latest, boundsMin, boundsMax), refreshed,
                          old(timeFrom), old(timeTo), old(loadCounter), old(pending), old(Charts()))
    {
      refreshed := false;
      if response.None? {
        return;
      }
      var earliest := OrFallback(response.value.earliest, timeFrom);
      var latest := OrFallback(response.value.latest, timeTo);
      appForecastId := Some(request.forecastId);
      var chart := request.contextChartData;
      if chart.None? || chart.value == [] {
        return;
      }
      appZoom := Some(ForecastAppZoom(earliest, latest, request.autoZoomDuration, chart.value[0].dateMs));
      showForecast := true;
      refreshed := ApplyForecastRange(ForecastTimeRange(earliest, latest, boundsMin, boundsMax));
    }

    /**
     * The zoom `SET_ZOOM` stores: the forecast zoom window as dates, or
     * invalid dates when the auto zoom duration is undefined.
     */
    function ForecastAppZoom(earliest: int, latest: int, autoZoom: Option<int>, earliestDataDate: int): AppZoom {
      match autoZoom
      case None => InvalidZoom
      case Some(d) =>
        var w := ForecastZoom(earliest, latest, d, earliestDataDate);
        AppZoom(TruncMs(w.fromMs), TruncMs(w.toMs))
    }

    /**
     * A widened range is set on the time filter and the charts stay; with
     * none the page refreshes (with the forecast id now stored), which
     * without a job changes nothing.
     */
    ghost predicate RangeApplied(range: Option<(int, int)>, refreshed: bool, timeFrom0: int, timeTo0: int,
                                 counter0: nat, pending0: map<nat, PendingLoad>, charts0: ChartState)
      reads this
    {
      refreshed == range.None?
      && (range.Some? ==> timeFrom == range.value.0 && timeTo == range.value.1 && loadCounter == counter0 && pending == pending0
                          && Charts() == charts0)
      && (range.None? ==> timeFrom == timeFrom0 && timeTo == timeTo0)
      && (range.None? && selectedJob.Some? ==>
            RefreshedFrom(counter0, pending0, charts0.criteriaFields, selectedJob.value, detectorId, entities, appForecastId.Some?))
      && (range.None? && selectedJob.None? ==> loadCounter == counter0 && pending == pending0 && Charts() == charts0)
    }

    /** The end of `loadForForecastId`: `timefilter.setTime` with the widened range, or `refresh`. */
    method ApplyForecastRange(range: Option<(int, int)>) returns (refreshed: bool)
      requires Valid()
      modifies this`timeFrom, this`timeTo,
               this`chartDetails, this`contextChartData, this`contextForecastData, this`loadCounter, this`loading,
               this`modelPlotEnabled, this`hasResults, this`dataNotChartable, this`criteriaFields, this`pending
      ensures Valid()
      ensures RangeApplied(range, refreshed, old(timeFrom), old(timeTo), old(loadCounter), old(pending), old(Charts()))
    {
      if range.Some? {
        timeFrom := range.value.0;
        timeTo := range.value.1;
        refreshed := false;
      } else {
        Refresh();
        refreshed := true;
      }
    }
  }
}
