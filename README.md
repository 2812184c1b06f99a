# Timeline query builder and single metric viewer, modelled in Dafny

This project models two parts of Kibana's X-Pack.

**The SIEM timeline's query builder** is
`x-pack/legacy/plugins/siem/public/components/timeline/helpers.tsx`. A timeline filters events with *data providers*. Each provider is a match clause on one field, optionally negated. It can carry AND-clauses of its own. The builder works in two steps:

- It serialises the enabled providers into a KQL string. Clauses are joined with `(…) or …`; AND-clauses are joined with `and`.
- It combines that string with the free-text KQL query and an `@timestamp` range. The result is `None` (the source's `null`) when there is nothing to filter on.

Modules:

- `TimelineHelpers` holds the builder.
- `Text` holds the JavaScript string behaviour the builder relies on: `String.prototype.trim`, number rendering in template literals, and joining.
- `escapeQueryValue` and `new Date(value).valueOf()` are not modelled. They are the two fields of a `KueryEnv` value passed in.

**The ML single metric viewer** is `x-pack/legacy/plugins/ml/public/timeseriesexplorer/timeseriesexplorer.js`, the `TimeSeriesExplorer` React component. It shows one series of one anomaly detection job. Its handlers do the following:

- They build the entity controls of the selected detector from the URL app state.
- They apply the `+`/`-` filter of the anomalies table.
- They validate the requested detector index.
- They normalise the URL's job selection.
- They zoom onto a forecast.
- They refresh the charts. A refresh fires three or four queries. It publishes its results once every query has answered. The source means to drop the results of a refresh that a later one has overtaken, but its check never fails (see "## Findings"). The class `TimeSeriesExplorer` uses the corrected check.

Modules:

- `SeriesRules` holds these rules as functions and lemmas.
- `Explorer` holds the class `TimeSeriesExplorer`. Its fields are:
  - the component state;
  - the URL app state that `appStateHandler` reads and writes;
  - the global job selection;
  - the time filter's range;
  - `pending`, the refreshes whose queries are still in flight, keyed by the load counter each captured.

An answer or a failure of a query is an event: `QueryArrived` or `QueryFailed`. A service result that a handler waits for is a parameter of the method. The job predicates of the ML plugin (`isTimeSeriesViewJob`, `isTimeSeriesViewDetector`, `isModelPlotEnabled`, `isSourceDataChartableForDetector`) are the fields of the class's `rules` constant.

The class invariant `Valid` says three things about every load in `pending`:

- it was started by a refresh so far;
- it is keyed by its own counter;
- it still awaits at least one query.

The invariant also says that the number of queries it awaits is exactly its outstanding plus its failed queries.

## Model

| member | source | states |
|---|---|---|
| Text.TrimIsTrimmed | x-pack/legacy/plugins/siem/public/components/timeline/helpers.tsx:59 | `trim` leaves no whitespace at either end, and yields `''` exactly when the text is blank |
| Text.TrimmedIsFixpoint | x-pack/legacy/plugins/siem/public/components/timeline/helpers.tsx:89 | trimming text that is already trimmed changes nothing (the outer `.trim()` of `buildGlobalQuery`) |
| Text.IntToString | x-pack/legacy/plugins/siem/public/components/timeline/helpers.tsx:17 | a number rendered in a template literal is non-empty and trimmed, starts with `-` exactly when negative, and is digits otherwise |
| Text.NatToStringRoundTrip | x-pack/legacy/plugins/siem/public/components/timeline/helpers.tsx:105 | the decimal rendering of a number reads back as that number |
| TimelineHelpers.FirstSegment | x-pack/legacy/plugins/siem/public/components/timeline/helpers.tsx:28 | `field.split('.')[0]` is the longest dot-free prefix of the field |
| TimelineHelpers.GetBrowserFieldPath | x-pack/legacy/plugins/siem/public/components/timeline/helpers.tsx:19-34 | a field of the `base` category is looked up under `base`; any other field is looked up under the text before its first dot |
| TimelineHelpers.DateTypeLookup | x-pack/legacy/plugins/siem/public/components/timeline/helpers.tsx:36-43 | a field is a date exactly when the catalogue holds it with type `date` under the category its path names |
| TimelineHelpers.MatchBodyShape | x-pack/legacy/plugins/siem/public/components/timeline/helpers.tsx:50-58 | every match body is the field name followed by `:` or ` :`, for exists, date and other fields alike |
| TimelineHelpers.BuildQueryMatch | x-pack/legacy/plugins/siem/public/components/timeline/helpers.tsx:45-59 | a match clause is non-empty and trimmed; an excluded provider's clause is `NOT ` before the trimmed body; an included one's is the trimmed body |
| TimelineHelpers.MatchStartsWithNotIffExcluded | x-pack/legacy/plugins/siem/public/components/timeline/helpers.tsx:49 | unless the field name itself starts with `NOT`, a clause starts with `NOT ` exactly when its provider is excluded |
| TimelineHelpers.MatchExists | x-pack/legacy/plugins/siem/public/components/timeline/helpers.tsx:58 | an exists clause is `field :*`, with the `NOT ` prefix when excluded |
| TimelineHelpers.MatchDateField | x-pack/legacy/plugins/siem/public/components/timeline/helpers.tsx:16-17 | a date field matches as `field: <epoch ms>`; a numeric value is rendered as-is |
| TimelineHelpers.MatchOtherField | x-pack/legacy/plugins/siem/public/components/timeline/helpers.tsx:53-57 | any other field matches as `field : <value>`, with a string value escaped by `escapeQueryValue` |
| TimelineHelpers.AndReduceShape | x-pack/legacy/plugins/siem/public/components/timeline/helpers.tsx:65-71 | the reduction, before its final trim, is `''` or a space followed by the enabled and-clauses joined by ` and  ` |
| TimelineHelpers.BuildQueryForAndProvider | x-pack/legacy/plugins/siem/public/components/timeline/helpers.tsx:61-72 | the and-part is the enabled and-clauses in order, joined by ` and  `; it is empty exactly when no and-clause is enabled |
| TimelineHelpers.EnabledAndMatchesTrimmed | x-pack/legacy/plugins/siem/public/components/timeline/helpers.tsx:68-70 | every enabled and-clause contributes a non-empty trimmed piece |
| TimelineHelpers.AndQueryAppend | x-pack/legacy/plugins/siem/public/components/timeline/helpers.tsx:66-70 | appending an and-clause leaves the query alone when it is disabled; otherwise it becomes the query, or is joined to it by ` and  ` |
| TimelineHelpers.ProviderClauseStart | x-pack/legacy/plugins/siem/public/components/timeline/helpers.tsx:81-86 | a provider's clause starts with a visible character, so trimming it only trims its end |
| TimelineHelpers.GlobalReduceShape | x-pack/legacy/plugins/siem/public/components/timeline/helpers.tsx:75-88 | the provider reduction is the left-nested disjunction `(…(c1) or c2…) or cn` of the enabled providers' trimmed clauses |
| TimelineHelpers.BuildGlobalQuery | x-pack/legacy/plugins/siem/public/components/timeline/helpers.tsx:74-89 | the global query is that disjunction; it is empty exactly when no provider is enabled |
| TimelineHelpers.DisjunctionTrimmed | x-pack/legacy/plugins/siem/public/components/timeline/helpers.tsx:77 | a disjunction of non-empty trimmed clauses is non-empty and trimmed |
| TimelineHelpers.GlobalQueryAppend | x-pack/legacy/plugins/siem/public/components/timeline/helpers.tsx:76-87 | appending a provider leaves the query alone when it is disabled; otherwise it becomes the query, or is joined to it as `(query) or clause` |
| TimelineHelpers.GlobalQueryIgnoresDisabled | x-pack/legacy/plugins/siem/public/components/timeline/helpers.tsx:80-87 | the content of disabled providers has no effect on the query |
| TimelineHelpers.ParenthesesByListIndex | x-pack/legacy/plugins/siem/public/components/timeline/helpers.tsx:78-79 | parentheses depend on the provider's list index, not on its rank among enabled ones: a lone provider at index 0 is bare, the same provider at index 1 is wrapped |
| TimelineHelpers.SingleProviderBare | x-pack/legacy/plugins/siem/public/components/timeline/helpers.tsx:78-86 | a single enabled provider without and-clauses yields exactly its match clause |
| TimelineHelpers.DisabledAndListLeavesTrailingAnd | x-pack/legacy/plugins/siem/public/components/timeline/helpers.tsx:83-85 | a provider whose and-list is non-empty but all disabled leaves a dangling ` and` after its clause |
| TimelineHelpers.CombineQueries | x-pack/legacy/plugins/siem/public/components/timeline/helpers.tsx:91-131 | there is no query exactly when there are no providers, no KQL query and no event viewer; every query ends with the `@timestamp` range |
| TimelineHelpers.CombineQueriesSingleSource | x-pack/legacy/plugins/siem/public/components/timeline/helpers.tsx:104-121 | with only a KQL query, only providers, or only the event viewer, the query is that source in parentheses (or the bare range) ANDed with the range |
| TimelineHelpers.CombineQueriesJoiner | x-pack/legacy/plugins/siem/public/components/timeline/helpers.tsx:123-127 | with both providers and a KQL query, they are joined by `and` exactly in `filter` mode and by `or` in every other mode |
| TimelineHelpers.CalculateBodyHeight | x-pack/legacy/plugins/siem/public/components/timeline/helpers.tsx:144-150 | the body height plus the three header and footer heights is the flyout height |
| TimelineHelpers.BodyHeightDefaults | x-pack/legacy/plugins/siem/public/components/timeline/helpers.tsx:145-148 | a missing height counts as 0, and with no heights given the body height is 0 |
| SeriesRules.EntityControlsOrder | x-pack/legacy/plugins/ml/public/timeseriesexplorer/timeseriesexplorer.js:666-686 | the controls are the partition field, then the over field, or the by field only when there is no over field; each takes its app-state value, or `''` |
| SeriesRules.NoDetectorNoControls | x-pack/legacy/plugins/ml/public/timeseriesexplorer/timeseriesexplorer.js:664-668 | a detector index outside the job gives no controls |
| SeriesRules.EntitiesToStateValues | x-pack/legacy/plugins/ml/public/timeseriesexplorer/timeseriesexplorer.js:764-767 | saving controls with distinct names stores each control's value under its field name |
| SeriesRules.EntitiesToStateConsistent | x-pack/legacy/plugins/ml/public/timeseriesexplorer/timeseriesexplorer.js:764-767 | saving controls read from an app state stores back the values that state gives |
| SeriesRules.ControlsRoundTrip | x-pack/legacy/plugins/ml/public/timeseriesexplorer/timeseriesexplorer.js:659-690 | rebuilding the controls from the state they were saved to gives the same controls |
| SeriesRules.SavedEntitiesRebuild | x-pack/legacy/plugins/ml/public/timeseriesexplorer/timeseriesexplorer.js:759-767 | controls for the detector's fields, once saved, are rebuilt exactly, values included |
| SeriesRules.FirstIndexOf | x-pack/legacy/plugins/ml/public/timeseriesexplorer/timeseriesexplorer.js:210 | `find` yields the first entity with the field name, or none exactly when no entity has it |
| SeriesRules.TableFilterChangesOneEntity | x-pack/legacy/plugins/ml/public/timeseriesexplorer/timeseriesexplorer.js:207-220 | the filter refreshes exactly when the first entity of that field exists and `+` gives it a new value or `-` clears its current one; only that entity changes |
| SeriesRules.TableFilterIdempotent | x-pack/legacy/plugins/ml/public/timeseriesexplorer/timeseriesexplorer.js:207-220 | applying the same filter a second time changes nothing and does not refresh (except `-` with an empty value) |
| SeriesRules.ClearingBlankEntityRefreshes | x-pack/legacy/plugins/ml/public/timeseriesexplorer/timeseriesexplorer.js:215-217 | `-` with an empty value on a blank entity still refreshes and changes nothing |
| SeriesRules.NonBlankEntities | x-pack/legacy/plugins/ml/public/timeseriesexplorer/timeseriesexplorer.js:544 | the filtered entities are exactly those with a non-empty value |
| SeriesRules.NonBlankEntitiesAppend | x-pack/legacy/plugins/ml/public/timeseriesexplorer/timeseriesexplorer.js:544 | the filter keeps order: filtering a concatenation concatenates the filtered parts |
| SeriesRules.CriteriaFieldsShape | x-pack/legacy/plugins/ml/public/timeseriesexplorer/timeseriesexplorer.js:545-548 | the criteria are the detector index followed by exactly the non-blank entities; there is only the index exactly when every entity is blank |
| SeriesRules.NotChartableIff | x-pack/legacy/plugins/ml/public/timeseriesexplorer/timeseriesexplorer.js:550-552 | a series is not chartable exactly when model plot is off, the source data is not chartable, and some entity has a value |
| SeriesRules.AwaitedQueries | x-pack/legacy/plugins/ml/public/timeseriesexplorer/timeseriesexplorer.js:499-631 | a refresh awaits metric data, record scores and chart details, plus forecast data exactly when a forecast id is set: 3 or 4 queries |
| SeriesRules.StoreSetsOneKey | x-pack/legacy/plugins/ml/public/timeseriesexplorer/timeseriesexplorer.js:591-648 | each answering query sets its own key of the pending state update and no other |
| SeriesRules.StartLoad | x-pack/legacy/plugins/ml/public/timeseriesexplorer/timeseriesexplorer.js:496-548 | a started load captures its counter and criteria, awaits 3 or 4 queries with none failed, and has none of the data yet |
| SeriesRules.Answer | x-pack/legacy/plugins/ml/public/timeseriesexplorer/timeseriesexplorer.js:591-593 | an answer (line 506 decrements the count) stores its data, decrements the awaiting count, and removes its query from the outstanding ones; the bookkeeping stays consistent |
| SeriesRules.Fail | x-pack/legacy/plugins/ml/public/timeseriesexplorer/timeseriesexplorer.js:594-596 | a failed query is only logged: the awaiting count stays as it is, and the query moves from outstanding to failed |
| SeriesRules.FailureBlocksPublish | x-pack/legacy/plugins/ml/public/timeseriesexplorer/timeseriesexplorer.js:594-596 | once a query of a load has failed, no later answer to that load publishes, under either gate |
| SeriesRules.StartKeepsLoadsInFlight | x-pack/legacy/plugins/ml/public/timeseriesexplorer/timeseriesexplorer.js:489-490 | a new refresh's counter is fresh, and the loads in flight stay valid under it |
| SeriesRules.StepKeepsLoadsInFlight | x-pack/legacy/plugins/ml/public/timeseriesexplorer/timeseriesexplorer.js:505-507 | an answered or failed load keeps the loads in flight valid, whether it is dropped or kept |
| SeriesRules.AsWrittenIgnoresLaterRefreshes | x-pack/legacy/plugins/ml/public/timeseriesexplorer/timeseriesexplorer.js:496-507 | as written, the last answer of a load without failures always publishes, whatever later refreshes were started |
| SeriesRules.StaleLoadPublishesAsWritten | x-pack/legacy/plugins/ml/public/timeseriesexplorer/timeseriesexplorer.js:496-507 | a load of refresh 1 whose last answer arrives under refresh 2 publishes as written, and is held back by the corrected gate |
| SeriesRules.FinishPublishesOnlyComplete | x-pack/legacy/plugins/ml/public/timeseriesexplorer/timeseriesexplorer.js:505-507 | with the corrected gate, an answer publishes exactly when it is the load's last outstanding query, none failed, and the load is the latest refresh |
| SeriesRules.CheckDetectorIndex | x-pack/legacy/plugins/ml/public/timeseriesexplorer/timeseriesexplorer.js:723-737 | a viewable requested index is kept; otherwise the first viewable detector is chosen, and written back exactly when a requested index was not viewable; with no viewable detector there is no choice |
| SeriesRules.ViewableIndicesSpec | x-pack/legacy/plugins/ml/public/timeseriesexplorer/timeseriesexplorer.js:714-721 | the viewable detectors are exactly the detector indices the predicate accepts, ascending |
| SeriesRules.TimeSeriesJobListingsMembers | x-pack/legacy/plugins/ml/public/timeseriesexplorer/timeseriesexplorer.js:697-708 | the rebuilt picker list holds exactly the listings of the time series jobs |
| SeriesRules.FindJobSpec | x-pack/legacy/plugins/ml/public/timeseriesexplorer/timeseriesexplorer.js:711 | a job lookup finds the first job with the id, or none exactly when no job has it |
| SeriesRules.Difference | x-pack/legacy/plugins/ml/public/timeseriesexplorer/timeseriesexplorer.js:809 | `difference` keeps exactly the selected ids that are not time series jobs |
| SeriesRules.WithoutInvalidKeepsValid | x-pack/legacy/plugins/ml/public/timeseriesexplorer/timeseriesexplorer.js:809-810 | removing the invalid ids keeps exactly the valid ones, in order and with repeats |
| SeriesRules.KeepInMembers | x-pack/legacy/plugins/ml/public/timeseriesexplorer/timeseriesexplorer.js:809-810 | the valid ids are those selected that are time series jobs |
| SeriesRules.JobSelectionAction | x-pack/legacy/plugins/ml/public/timeseriesexplorer/timeseriesexplorer.js:799-884 | loading stops exactly when nothing valid is selected and there is no time series job; a job is loaded exactly when one valid id is selected and none is invalid; otherwise the selection is rewritten to the first valid id, or to the first job |
| SeriesRules.SelectionIsTimeSeriesJob | x-pack/legacy/plugins/ml/public/timeseriesexplorer/timeseriesexplorer.js:799-884 | a job that is loaded or selected is a time series job |
| SeriesRules.SelectOnlyConverges | x-pack/legacy/plugins/ml/public/timeseriesexplorer/timeseriesexplorer.js:827-878 | a rewritten selection, emitted again, loads that job |
| SeriesRules.ForecastZoom | x-pack/legacy/plugins/ml/public/timeseriesexplorer/timeseriesexplorer.js:439-441 | the zoom ends at half the auto zoom duration after the forecast start, or at the forecast end if earlier; it starts one duration before, but not before the first data point |
| SeriesRules.ForecastZoomLength | x-pack/legacy/plugins/ml/public/timeseriesexplorer/timeseriesexplorer.js:439-441 | the zoom is never longer than the auto zoom duration, and is exactly that long unless the first data point cuts it |
| SeriesRules.TruncMs | x-pack/legacy/plugins/ml/public/timeseriesexplorer/timeseriesexplorer.js:443-446 | a fractional millisecond becomes a date by truncation toward zero |
| SeriesRules.ForecastTimeRange | x-pack/legacy/plugins/ml/public/timeseriesexplorer/timeseriesexplorer.js:452-460 | the time filter is widened exactly when the forecast leaves the active bounds, to the smallest range covering both |
| Explorer.TimeSeriesExplorer.constructor | x-pack/legacy/plugins/ml/public/timeseriesexplorer/timeseriesexplorer.js:93-128 | the page starts with no job, no data, load counter 0 and the forecast shown, and with the URL state it was given |
| Explorer.TimeSeriesExplorer.UpdateControlsForDetector | x-pack/legacy/plugins/ml/public/timeseriesexplorer/timeseriesexplorer.js:659-690 | the entities become the selected detector's controls read from the app state |
| Explorer.TimeSeriesExplorer.Refresh | x-pack/legacy/plugins/ml/public/timeseriesexplorer/timeseriesexplorer.js:469-657 | without a job nothing changes; otherwise the charts are cleared, the counter is incremented, and either the series is marked not chartable or a load is started under the new counter; the class invariant holds |
| Explorer.TimeSeriesExplorer.StartRefresh | x-pack/legacy/plugins/ml/public/timeseriesexplorer/timeseriesexplorer.js:483-494 | the first `setState` of a refresh, then the load; the state is a refresh from the previous counter |
| Explorer.TimeSeriesExplorer.LoadContextData | x-pack/legacy/plugins/ml/public/timeseriesexplorer/timeseriesexplorer.js:495-656 | the criteria are computed; a series that is not chartable ends loading with no load pending; otherwise a load awaits its 3 or 4 queries |
| Explorer.TimeSeriesExplorer.QueryArrived | x-pack/legacy/plugins/ml/public/timeseriesexplorer/timeseriesexplorer.js:505-649 | with the corrected gate: an answer updates its load; the page publishes exactly when this was the last outstanding query, none failed, and the load is the latest refresh; otherwise the page state is untouched |
| Explorer.TimeSeriesExplorer.Publish | x-pack/legacy/plugins/ml/public/timeseriesexplorer/timeseriesexplorer.js:508-539 | the published state merges the update, sets `hasResults` from the chart and forecast data, ends loading, and sets the zoom when the chart has data |
| Explorer.TimeSeriesExplorer.QueryFailed | x-pack/legacy/plugins/ml/public/timeseriesexplorer/timeseriesexplorer.js:594-652 | a failure only updates its load's bookkeeping |
| Explorer.TimeSeriesExplorer.SaveSeriesPropertiesAndRefresh | x-pack/legacy/plugins/ml/public/timeseriesexplorer/timeseriesexplorer.js:759-770 | the detector index and the entities are saved to the app state, then the page refreshes; without a selected job the loads and the chart and data fields stay as they were |
| Explorer.TimeSeriesExplorer.TableFilter | x-pack/legacy/plugins/ml/public/timeseriesexplorer/timeseriesexplorer.js:207-220 | the entities become the filter's outcome; a change saves and refreshes; no change leaves the app state, the loads and the chart and data fields alone |
| Explorer.TimeSeriesExplorer.TimeSeriesJobs | x-pack/legacy/plugins/ml/public/timeseriesexplorer/timeseriesexplorer.js:700-707 | the loop builds the picker listings of the time series jobs |
| Explorer.TimeSeriesExplorer.ViewableDetectors | x-pack/legacy/plugins/ml/public/timeseriesexplorer/timeseriesexplorer.js:714-721 | the loop collects the viewable detector indices |
| Explorer.TimeSeriesExplorer.LoadForJobId | x-pack/legacy/plugins/ml/public/timeseriesexplorer/timeseriesexplorer.js:692-757 | the picker list is rebuilt exactly when it lacks the job; an unknown job loads nothing and leaves the selection, the controls, the charts and the loads as they were; a known job loads exactly when it has a viewable detector, and is then shown and refreshed, and otherwise nothing more changes |
| Explorer.TimeSeriesExplorer.LoadJob | x-pack/legacy/plugins/ml/public/timeseriesexplorer/timeseriesexplorer.js:711-757 | the job loads exactly when it has a viewable detector |
| Explorer.TimeSeriesExplorer.ShowAndRefresh | x-pack/legacy/plugins/ml/public/timeseriesexplorer/timeseriesexplorer.js:742-756 | the job is shown with its detectors and controls, then refreshed |
| Explorer.TimeSeriesExplorer.ShowJob | x-pack/legacy/plugins/ml/public/timeseriesexplorer/timeseriesexplorer.js:726-746 | the choice of the index check is written back if needed, and the job, its viewable detectors and the controls are set |
| Explorer.TimeSeriesExplorer.ClearAppState | x-pack/legacy/plugins/ml/public/timeseriesexplorer/timeseriesexplorer.js:868-871 | clearing the app state drops the detector index, the entities and the forecast id |
| Explorer.TimeSeriesExplorer.JobSelectionChanged | x-pack/legacy/plugins/ml/public/timeseriesexplorer/timeseriesexplorer.js:799-884 | the checkbox hides; the action is the selection rule's; a rewrite stores the new selection and changes nothing else; no jobs ends loading and changes nothing else; a job to load is loaded as `LoadSelectedJob` states, refresh included |
| Explorer.TimeSeriesExplorer.LoadSelectedJob | x-pack/legacy/plugins/ml/public/timeseriesexplorer/timeseriesexplorer.js:866-872 | a change of job clears the detector index, the entities and the forecast id of the app state first; then everything `LoadForJobId` states holds from that state: the picker list, load exactly when found and viewable, the refresh, or nothing more changed |
| Explorer.TimeSeriesExplorer.RequestForecast | x-pack/legacy/plugins/ml/public/timeseriesexplorer/timeseriesexplorer.js:422-428 | the request keeps the forecast id and the auto zoom duration and context chart data the page holds when it asks |
| Explorer.TimeSeriesExplorer.LoadForForecastId | x-pack/legacy/plugins/ml/public/timeseriesexplorer/timeseriesexplorer.js:430-463 | on an answer the forecast id is stored; with chart data at the request, the zoom is centred on the forecast using the duration and the first data point read then, the forecast is shown, and the time filter widens or the page refreshes; a failed answer or a missing chart leaves the zoom, the time filter, the loads and the chart and data fields as they were |
| Explorer.TimeSeriesExplorer.ApplyForecastRange | x-pack/legacy/plugins/ml/public/timeseriesexplorer/timeseriesexplorer.js:452-463 | a widened range is set on the time filter and the loads and chart and data fields stay; with none, the page refreshes, which without a selected job changes nothing |

## Left out

- `convertKueryToElasticSearchQuery` (helpers.tsx:107): `CombineQueries` returns the KQL string it would convert. The index pattern is not modelled.
- `escapeQueryValue`, and date parsing by `new Date(value).valueOf()`: parameters in `KueryEnv`. An invalid date renders as `NaN`.
- `memoizeOne` around `getBaseFields`: pure caching, with no effect on the result.
- lodash `get`: modelled only for the paths the builder uses.
- `EXISTS_OPERATOR`: its value `:*` belongs to `data_provider.ts`, which is not part of this model.
- Numbers are integers. JavaScript floating point is not modelled; the forecast zoom's arithmetic is exact, in `real`.
- The asynchronous services: Elasticsearch queries, `mlJobService`, `mlForecastService` and `populateFormats`. They are events or parameters.
- `loadEntityValues`, `loadAnomaliesTableData`, the focus chart, annotations, and the other handlers and `render`: not part of the modelled core.
- `getAutoZoomDuration` and `calculateInitialFocusRange`/`calculateDefaultFocusRange`: their results are the parameters `autoZoom` and `focusRange` of `QueryArrived`.
- `calculateAggregationInterval` and the search bounds.
- `createTimeSeriesJobData`: its result is the parameter `pickerJobs`.
- Toasts, i18n messages and console logging.
- `APP_STATE_ACTION.CLEAR` follows the comment at timeseriesexplorer.js:869: it drops the detector index, the entities and the forecast id. The reducer is not part of this model.
- Explorer.TimeSeriesExplorer.QueryArrived: publishes with the corrected gate `FinishPublishes`, so a completed load that a later refresh has overtaken is not published. The source's own gate is `FinishPublishesAsWritten`, which publishes every completed load without a failure (`AsWrittenIgnoresLaterRefreshes`, `StaleLoadPublishesAsWritten`).
- Explorer.TimeSeriesExplorer.TableFilter: the source changes the entity object in place (timeseriesexplorer.js:213 and 216). The criteria fields of the page and of every load still in flight hold that same object (lines 544-548), so they see the new value at once. The model replaces the entity by value, and leaves those criteria fields as they were until the refresh sets new ones. This aliasing is not modelled.
- Explorer.TimeSeriesExplorer.JobSelectionChanged: `jobSelectService.next` re-emits a rewritten selection. The method only stores it; the caller emits it again, as `SelectOnlyConverges` describes.
- Explorer.TimeSeriesExplorer.ApplyForecastRange: `timefilter.setTime` triggers a refresh through the time filter's subscription, and the method does not.
- The moment/ISO string formatting of dates: dates are epoch milliseconds.
- Explorer.TimeSeriesExplorer.LoadForJobId: the exceptions the source throws for an unknown job or for a job without a viewable detector are modelled as the handler stopping, with nothing more changed.
- Explorer.TimeSeriesExplorer.LoadForForecastId: the exception for an empty or missing context chart is modelled the same way, after the forecast id is stored.
- SeriesRules.TableFilterIdempotent: excludes `-` with an empty value. `ClearingBlankEntityRefreshes` shows that the source refreshes again there.
- The trailing ` and` of a provider whose and-list is all disabled is kept as the source writes it; see `DisabledAndListLeavesTrailingAnd`.
- The initial `detectorId` before a job is selected is not read by any modelled operation.

## Findings

| source | as written | input that shows it | evidently intended | confidence | as-written member | corrected member |
|---|---|---|---|---|---|---|
| x-pack/legacy/plugins/ml/public/timeseriesexplorer/timeseriesexplorer.js:496-507 | `finish(counterVar)` (line 582 passes `counter`) compares `counterVar` with the `loadCounter` read in the same callback, the value `counter` was taken from, so the staleness check always passes | refresh 1 starts; refresh 2 starts before refresh 1's last query answers; that answer then publishes refresh 1's data over refresh 2's | publish only when the load's counter is the page's current `loadCounter` | high, not executed | SeriesRules.StaleLoadPublishesAsWritten | SeriesRules.FinishPublishesOnlyComplete |
