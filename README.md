# k8s_debugger core, modelled in Dafny

k8s_debugger is an MCP server that helps debug Kubernetes workloads. It pulls
pod logs from Loki, metrics from Prometheus (both through Grafana),
Kubernetes events and EKS control-plane events from CloudWatch, and
correlates them. This project models the deterministic core of that server:

- **Resilience primitives** (`server/error_handling.py`). These are classes
  whose fields the methods update:
  - the circuit breaker (Closed / Open / HalfOpen, failure counter, last
    failure time);
  - the sliding-log rate limiter;
  - the service health check (three consecutive failures make a service
    unhealthy);
  - the error aggregator (per-operation logs capped at 1000, oldest dropped
    first, plus their summaries);
  - the `handle_service_error` decorator, which ties the aggregator and the
    health checks together.
- **Correlation tools** (`server/tools.py`):
  - the duration parser;
  - the Loki and Prometheus query text built from a pod name or label
    selector;
  - the log, metric, event and CloudWatch fetches, with the backends as
    function parameters;
  - the plain and the enhanced fan-out merges;
  - the summary counters and the enhanced summary;
  - the window slicing, per-window analysis, anomaly flags and trend
    aggregation of `analyze_time_correlation`.
- **Time utilities** (`utils/time_utils.py`): the duration parser, which also
  accepts an `s` suffix, and the trailing-`Z` timestamp helpers.
- **Configuration** (`config/settings.py`): the `grafana_key` fallback and
  `validate_configuration`, with `Settings` as a plain record.

Modelling conventions:
- Time is integer seconds; CloudWatch instants are integer milliseconds.
  Every `datetime.utcnow()` reading becomes a parameter. It is `now` in
  general. The circuit breaker reads the clock twice per call, so its
  wrapper takes `now` for the admission and `done` for the failure stamp
  taken after the await.
- Python exceptions are values `Exc(cls, bases, message)`. `isinstance`
  is `IsInstance`.
- A call that may raise yields `Outcome<T>`: `Returns(value)` or
  `Raises(exc)`.
- Each backend (Loki/Prometheus query, Kubernetes event list, CloudWatch
  `filter_log_events`) is a function-typed parameter. A missing client is
  `None`.
- Each stateful class has a `View()` of its fields and a pure transition
  function. Each method is proved to move the view by that function, and the
  lemmas state what the source promises about the transitions.
- Most loops in the source become methods whose `ensures` ties their
  result to a specification function. The metric loop of `get_pod_metrics`
  is the recursive function `Sources.MetricSlots` instead, with its own
  lemmas.

Behaviour of the code that the model keeps, including where it differs
from what the names and docstrings suggest:
- A duration with a non-integer prefix before `h`, `m` or `d` (or `s` in
  the time utilities) raises ValueError from `int()`; it does not fall back
  to one hour.
- The `tools.py` parser has no `s` suffix. `"30s"` is a one-hour window
  there (`Queries.TimeRangeParsersAgree`).
- `correlate_pod_data` lets the ValueError of a bad duration or selector
  escape, because both are computed before the `try` of `get_pod_logs`.
- In `analyze_time_correlation` the per-window `except Exception` never
  fires. `get_pod_logs` and `get_pod_metrics` catch every `Exception`
  themselves.
- `metrics_available` is always true: `get_pod_metrics` never returns a
  top-level `error` key.
- The rate limiter's docstring says "token bucket", but the code is a
  sliding log of request instants.
- The 30-minute count of recent CloudWatch issues raises TypeError as
  written (Findings, row 1).

## Model

| member | source | states |
|---|---|---|
| `Config.GrafanaKey` | src/k8s_debugger/config/settings.py:37-42 | The key exists iff the API key or the token is truthy. The API key wins when both are set. Otherwise the result is a ValueError with the source's message. |
| `Config.ValidateConfiguration` | src/k8s_debugger/config/settings.py:133-159 | The returned list holds the text of each failing check, in the order the checks run: the same texts the source appends, one per issue. |
| `Config.IssuesAreFailures` | src/k8s_debugger/config/settings.py:138-157 | A kind of issue is listed exactly when its check fails. |
| `Config.IssuesMeaning` | src/k8s_debugger/config/settings.py:138-159 | Each of the five issues appears iff its check fires. These are: an empty URL; neither key truthy; a non-empty URL without `http://`/`https://`; a port outside [1, 65535]; an upper-cased log level not in the list. The list is empty iff the settings are well configured. |
| `Config.IssuesOrdered` | src/k8s_debugger/config/settings.py:138-157 | Issues appear in check order, each kind at most once. |
| `Config.PortBoundaries` | src/k8s_debugger/config/settings.py:151-152 | Ports 1 and 65535 are accepted; 0 and 65536 are not. |
| `Config.LogLevelIgnoresCase` | src/k8s_debugger/config/settings.py:155-157 | A level whose upper-case form is valid is accepted in lower case too. |
| `TimeUtils.Back` | src/k8s_debugger/utils/time_utils.py:11-22 | With a recognised suffix, the range is defined iff the prefix parses as an integer N. It then spans N units back from `now` to `now`. |
| `TimeUtils.ParseTimeRange` | src/k8s_debugger/utils/time_utils.py:7-27 | The end is always `now`. An empty string or an unknown last character gives exactly one hour. A recognised suffix raises iff its prefix is not an integer. |
| `TimeUtils.ParseTimeRangeScales` | src/k8s_debugger/utils/time_utils.py:11-22 | The decimal text of N followed by `h`, `m`, `d` or `s` gives a range of N times that unit, ending at `now`. |
| `TimeUtils.StartNotAfterEnd` | src/k8s_debugger/utils/time_utils.py:9-27 | For a non-negative N, start is not after end. |
| `TimeUtils.TimestampToGrafanaFormat` | src/k8s_debugger/utils/time_utils.py:35-37 | The result ends in `Z`, and dropping that `Z` gives back the ISO text. |
| `TimeUtils.GrafanaTimestampToIso` | src/k8s_debugger/utils/time_utils.py:40-44 | The text handed to `datetime.fromisoformat`: exactly one trailing `Z` is removed when present; otherwise the text is unchanged. The parse itself is left out. |
| `TimeUtils.GrafanaRoundTrip` | src/k8s_debugger/utils/time_utils.py:35-46 | Converting to Grafana format and back recovers the ISO text. |
| `PyStr.Split` | src/k8s_debugger/server/tools.py:92-93 | `str.split` on one character never returns an empty list, and no piece contains the separator. |
| `PyStr.SplitJoin` | src/k8s_debugger/server/tools.py:92-93 | Splitting the join of separator-free pieces gives the pieces back. |
| `PyStr.SplitNoSep` | src/k8s_debugger/server/tools.py:92-93 | Text without the separator splits into itself alone. |
| `PyStr.ParseInt` | src/k8s_debugger/server/tools.py:62-70 | `int()` of a string: defined only when the stripped text is non-empty. Its round trip with `str(n)` is `PyStr.ParseDecimal`. |
| `PyStr.ParseDecimal` | src/k8s_debugger/server/tools.py:62-70 | `int()` of a natural number's decimal text is that number. |
| `Queries.TimeRangeToTimestamps` | src/k8s_debugger/server/tools.py:57-75 | `_time_range_to_timestamps`, specified by `Queries.TimeRangeToTimestampsMeaning` and `Queries.TimeRangeParsersAgree`. |
| `Queries.TimeRangeParsersAgree` | src/k8s_debugger/server/tools.py:57-75 | The parser in `tools.py` agrees with the utilities' parser, except that an `s` suffix gives the one-hour default. |
| `Queries.MinutesBack` | src/k8s_debugger/server/tools.py:57-75 | `f"{n}m"` names the range from n minutes before `now` to `now`. |
| `Queries.TimeRangeToTimestampsMeaning` | src/k8s_debugger/server/tools.py:57-75 | The end is `now`. Any last character other than h/m/d, or an empty string, gives one hour. For h/m/d, a bad prefix is a ValueError and an integer N gives N units back. |
| `Queries.LabelMatchers` | src/k8s_debugger/server/tools.py:92-93 | The matcher comprehension, specified by `Queries.LabelMatchersMeaning`, `Queries.LabelMatchersOk` and `Queries.LabelMatchersFirstError`. |
| `Queries.LokiQuery` | src/k8s_debugger/server/tools.py:88-96 | The LogQL selector, specified by `Queries.LokiQueryPrecedence`, `Queries.SelectorTranslation` and `Queries.MalformedSelectorRaises`. |
| `Queries.LabelMatchersMeaning` | src/k8s_debugger/server/tools.py:92-93 | The comprehension succeeds iff every entry splits on `=` into exactly two parts, and it then yields one `k="v"` per entry, in order. Otherwise it raises the error of the first malformed entry. |
| `Queries.LabelMatchersOk` | src/k8s_debugger/server/tools.py:92-93 | The comprehension succeeds iff every entry unpacks into two parts, and then translates entry i into matcher i. |
| `Queries.LabelMatchersFirstError` | src/k8s_debugger/server/tools.py:92-93 | A failing comprehension raises the ValueError of its first malformed entry; all entries before it are well formed. |
| `Queries.SelectorTranslation` | src/k8s_debugger/server/tools.py:90-94 | A selector `k1=v1,…,kn=vn` becomes `{namespace="ns", k1="v1", …, kn="vn"}`. |
| `Queries.MalformedSelectorRaises` | src/k8s_debugger/server/tools.py:92-93 | Without a pod name, a selector raises iff some entry is malformed, and the exception is a ValueError. |
| `Queries.LokiQueryPrecedence` | src/k8s_debugger/server/tools.py:88-96 | A truthy pod name overrides the selector and never fails. With neither, the query is `{namespace="ns"}`. |
| `Queries.PromFilter` | src/k8s_debugger/server/tools.py:125-131 | The Prometheus label filter: the pod when a pod name is truthy, otherwise the namespace, whatever the selector. Stated in `Queries.MetricQueriesFiltered`. |
| `Queries.MetricQueries` | src/k8s_debugger/server/tools.py:133-138 | The four PromQL queries, in dict order, specified by `Queries.MetricQueriesFiltered`. |
| `Queries.MetricQueriesFiltered` | src/k8s_debugger/server/tools.py:125-138 | There are four queries, named in dict order, each containing `{filter}`. The filter ignores the label selector. |
| `Sources.GetPodLogs` | src/k8s_debugger/server/tools.py:77-112 | `get_pod_logs`, specified by `Sources.PodLogsMeaning`. |
| `Sources.GetPodMetrics` | src/k8s_debugger/server/tools.py:114-156 | `get_pod_metrics`, specified by `Sources.MetricsForRangeMeaning` and the `Sources.MetricSlots` lemmas. |
| `Sources.PodLogsMeaning` | src/k8s_debugger/server/tools.py:77-112 | A bad duration or selector escapes. A backend reply becomes the logs, query and interval. An `Exception` becomes an error dict. Any other exception escapes. |
| `Sources.MetricsForRangeMeaning` | src/k8s_debugger/server/tools.py:133-156 | The metrics result exists iff no slot lets a non-`Exception` escape. It has exactly the four metric keys, each holding its own query's slot, over the parsed interval. |
| `Sources.MetricSlotsMeaning` | src/k8s_debugger/server/tools.py:140-151 | For distinct names, the loop's dict has exactly those keys, each mapped to its query's slot. It raises iff some slot raises. |
| `Sources.MetricSlotsReturn` | src/k8s_debugger/server/tools.py:141-151 | The metric loop completes iff no slot lets a non-`Exception` escape. |
| `Sources.MetricSlotsKeys` | src/k8s_debugger/server/tools.py:140-151 | A completed metric loop has exactly the query names as keys. |
| `Sources.MetricSlotsValues` | src/k8s_debugger/server/tools.py:140-151 | With distinct names, each name maps to its own query's slot result. |
| `Sources.MetricSlotsEscape` | src/k8s_debugger/server/tools.py:141-151 | Whatever escapes the metric loop is not an `Exception`. |
| `Sources.ClusterEvents` | src/k8s_debugger/server/tools.py:158-200 | `get_cluster_events`, computed by the method `Sources.GetClusterEvents`; its filter is specified by `Sources.KeptEventsMeaning` and `Sources.KeptEventsAppend`. |
| `Sources.GetClusterEvents` | src/k8s_debugger/server/tools.py:158-200 | The filtering loop computes the kept events of the specification (see `Sources.KeptEventsMeaning`). A missing client and an exception each become error dicts. |
| `Sources.KeptEventsMeaning` | src/k8s_debugger/server/tools.py:175-191 | An event is kept iff its first timestamp is set and not before the start. Every kept record is at or after the start, and none are added. |
| `Sources.KeptEventsAppend` | src/k8s_debugger/server/tools.py:175-191 | The filter keeps the order of the listing: the events kept from a concatenation are those kept from the first part, then those from the second. |
| `Sources.GetCloudWatchEvents` | src/k8s_debugger/server/tools.py:270-316 | `get_cloudwatch_events`, specified by `Sources.CloudWatchEventsMeaning`. |
| `Sources.CloudWatchEventsMeaning` | src/k8s_debugger/server/tools.py:270-316 | With no client, the result is the "not available" dict, and a bad duration escapes. On a reply, there is one event per reply event with its instant, message and cluster, and `total_events` is the count. |
| `Summaries.Summarize` | src/k8s_debugger/server/tools.py:232-268 | The `_generate_summary` result, computed by `Summaries.GenerateSummary` and bounded by `Summaries.SummaryBounds`. |
| `Summaries.GenerateSummary` | src/k8s_debugger/server/tools.py:232-268 | The nested counting loops compute the summary specified by `Summarize`; its bounds are in `Summaries.SummaryBounds`. |
| `Summaries.CountErrors` | src/k8s_debugger/server/tools.py:483-493 | The counter loop computes the number of error entries over all streams, or 0 for an error result. |
| `Summaries.ErrorEntriesBounded` | src/k8s_debugger/server/tools.py:254-256 | A stream has no more error entries than entries. |
| `Summaries.ErrorEntryCountBounded` | src/k8s_debugger/server/tools.py:248-256 | Over all streams, error entries are at most entries. |
| `Summaries.TypeCountsBounded` | src/k8s_debugger/server/tools.py:259-264 | Warning plus Error events are at most the event count. |
| `Summaries.SummaryBounds` | src/k8s_debugger/server/tools.py:239-268 | `error_logs <= log_entries`. Warning plus error events are at most the events. The CPU and memory flags are always false. An error dict contributes zeros. |
| `Summaries.CountsAgreeWithSummary` | src/k8s_debugger/server/tools.py:477-493 | `_count_logs` and `_count_errors` equal the summary's `log_entries` and `error_logs`, so errors are at most logs. |
| `Summaries.EntryCountAppend` | src/k8s_debugger/server/tools.py:249-252 | Entry counts add over concatenated stream lists. |
| `Summaries.ErrorEntriesAppend` | src/k8s_debugger/server/tools.py:254-256 | Error entry counts add over concatenated entry lists. |
| `Summaries.QuietEntries` | src/k8s_debugger/server/tools.py:254-256 | Entries none of which mention an error count zero. |
| `Summaries.TwoStreams` | src/k8s_debugger/server/tools.py:249-256 | Two streams count the entries and error entries of both. |
| `Summaries.LeadingError` | src/k8s_debugger/server/tools.py:254-256 | One error entry followed by quiet ones counts one. |
| `Summaries.ScenarioLines` | src/k8s_debugger/server/tools.py:255 | `ERROR: probe` and `Exception raised` are error entries, matched after lower-casing; `ok` is not. |
| `Summaries.FiveAndThreeLines` | src/k8s_debugger/server/tools.py:248-256 | Two streams of five and three lines, one error in each, give 8 log entries and 2 error logs. |
| `Summaries.EnhancedSummaryAsWritten` | src/k8s_debugger/server/tools.py:366-397 | `_generate_enhanced_summary` as written, with the naive/aware comparison; its TypeError is stated by `Summaries.NaiveAwareComparison` and `Summaries.OneEventRaises`. |
| `Summaries.EnhancedSummaryOf` | src/k8s_debugger/server/tools.py:366-397 | The enhanced summary with the recency test on instants, specified by `Summaries.EnhancedSummaryMeaning`. |
| `Summaries.NaiveAwareComparison` | src/k8s_debugger/server/tools.py:389-395 | As written, the enhanced summary raises iff CloudWatch returned a non-empty event list. The exception is a TypeError. Otherwise the result equals the corrected summary. |
| `Summaries.OneEventRaises` | src/k8s_debugger/server/tools.py:389-395 | One current CloudWatch event makes the as-written summary raise. The corrected summary counts 1 event, 0 errors and 1 recent issue. |
| `Summaries.CloudWatchCountsBounded` | src/k8s_debugger/server/tools.py:382-395 | CloudWatch errors and recent issues are each at most the events. None recent gives 0; all recent gives all. |
| `Summaries.EnhancedSummaryMeaning` | src/k8s_debugger/server/tools.py:366-397 | The enhanced summary extends the plain one. It carries CloudWatch counters iff CloudWatch returned events, with `cloudwatch_events` equal to their number and the error and recent counts bounded by it. |
| `Correlation.CorrelatePodData` | src/k8s_debugger/server/tools.py:202-230 | `correlate_pod_data`, specified by `Correlation.CorrelatePodDataMeaning` and `Correlation.BadDurationEscapes`. |
| `Correlation.CorrelatePodDataMeaning` | src/k8s_debugger/server/tools.py:202-230 | The merge returns iff all three fetches return. It keeps each result unchanged and summarises logs and events. The logs' exception wins. |
| `Correlation.BadDurationEscapes` | src/k8s_debugger/server/tools.py:202-217 | A bad duration raises in the logs slot before its `try`, and that ValueError escapes the merge. |
| `Correlation.GetEnhancedCorrelation` | src/k8s_debugger/server/tools.py:318-364 | `get_enhanced_correlation`, specified by `Correlation.EnhancedSlotsSettled`, `Correlation.EnhancedCorrelationMeaning` and `Correlation.EnhancedExtendsPlain`. |
| `Correlation.EnhancedSlotsSettled` | src/k8s_debugger/server/tools.py:327-342 | Each of the logs, metrics and events slots keeps the result it returned, and a slot that raised becomes `{"error": str(e)}`. |
| `Correlation.EnhancedCorrelationMeaning` | src/k8s_debugger/server/tools.py:334-364 | `includes_cloudwatch` holds iff CloudWatch was asked for, a cluster is configured and its slot did not raise. It holds iff `cloudwatch` is present. The summary carries CloudWatch counters iff CloudWatch returned events, and both the error and the recent-issue counts are at most the events. |
| `Correlation.EnhancedExtendsPlain` | src/k8s_debugger/server/tools.py:327-374 | When the plain merge succeeds, the enhanced one holds the same three results, and its base summary is the plain summary. |
| `ErrorAggregation.Retain` | src/k8s_debugger/server/error_handling.py:237-239 | The last `min(n, 1000)` records are kept, as a suffix of the log. |
| `ErrorAggregation.ErrorAggregator.constructor` | src/k8s_debugger/server/error_handling.py:220-221 | A new aggregator has no operations. |
| `ErrorAggregation.ErrorAggregator.RecordError` | src/k8s_debugger/server/error_handling.py:223-239 | Only the named operation's log changes. It gets the new record appended and trimmed to 1000. A new operation is added at the end of the key order. |
| `ErrorAggregation.ErrorAggregator.GetErrorSummary` | src/k8s_debugger/server/error_handling.py:241-253 | A non-empty operation gets the analysis of its log, empty if unknown. Otherwise the overall summary is `total_errors` (the sum of log lengths), `operations_with_errors` (the number of keys) and each operation's analysis. |
| `ErrorAggregation.ErrorAggregator.Overview` | src/k8s_debugger/server/error_handling.py:247-253 | The overall summary: total, key count and per-operation analyses. |
| `ErrorAggregation.Rollup` | src/k8s_debugger/server/error_handling.py:248-252 | The loop sums the log lengths and builds the per-operation analyses. |
| `ErrorAggregation.SummariesFacts` | src/k8s_debugger/server/error_handling.py:252 | The per-operation dict has exactly the listed operations, each with its log's analysis. |
| `ErrorAggregation.SummariesCover` | src/k8s_debugger/server/error_handling.py:252 | When the listed operations are exactly the recorded ones, the per-operation dict has the recorded keys, each with its own log's analysis. |
| `ErrorAggregation.KeysCardinality` | src/k8s_debugger/server/error_handling.py:251 | `len(self.errors)` is the number of distinct recorded operations. |
| `ErrorAggregation.Analysis` | src/k8s_debugger/server/error_handling.py:255-279 | The `_analyze_errors` result, computed by `ErrorAggregation.AnalyzeErrors` and specified by `ErrorAggregation.AnalysisFacts`. |
| `ErrorAggregation.MostCommon` | src/k8s_debugger/server/error_handling.py:278 | `max(error_types.items(), key=...)`, specified by `ErrorAggregation.MostCommonIsMaximal`. |
| `ErrorAggregation.AnalyzeErrors` | src/k8s_debugger/server/error_handling.py:255-279 | The counting loop computes the `_analyze_errors` result. Its facts are in `ErrorAggregation.AnalysisFacts`. |
| `ErrorAggregation.Tally` | src/k8s_debugger/server/error_handling.py:261-272 | The counting loop yields the `error_types` counts and their insertion order, and the number of records less than an hour old. |
| `ErrorAggregation.MostCommonType` | src/k8s_debugger/server/error_handling.py:278 | The scan over `error_types` yields the `max(..., key=count)` entry: the first type in insertion order with the highest count, or None when there are none. |
| `ErrorAggregation.FirstSeenDistinct` | src/k8s_debugger/server/error_handling.py:261-267 | A type is a key of `error_types` iff it is in the insertion order, and that order has no repeats. |
| `ErrorAggregation.FirstSeenCounted` | src/k8s_debugger/server/error_handling.py:261-267 | The `error_types` keys, in insertion order, are distinct and are exactly the counted types. Each count is at least 1. |
| `ErrorAggregation.TypeCountsSum` | src/k8s_debugger/server/error_handling.py:265-267 | The type counts sum to the number of records. |
| `ErrorAggregation.TypeCountsSumStep` | src/k8s_debugger/server/error_handling.py:265-267 | One more record raises the sum of the type counts by exactly one. |
| `ErrorAggregation.RecentAtMostCount` | src/k8s_debugger/server/error_handling.py:269-276 | `recent_count <= count`. |
| `ErrorAggregation.MostCommonIsMaximal` | src/k8s_debugger/server/error_handling.py:278 | `most_common` exists iff some type was counted. It is a counted type with its count, no type has a larger count, and every type before it in insertion order has a strictly smaller count, so ties go to the first. |
| `ErrorAggregation.AnalysisFacts` | src/k8s_debugger/server/error_handling.py:255-279 | A non-empty log gives `count` equal to its length and `recent_count <= count`. The `error_types` keys are the logged types and their counts sum to `count`. `most_common` carries the maximal count. |
| `ErrorAggregation.CountedTypes` | src/k8s_debugger/server/error_handling.py:265-267 | The `error_types` keys are exactly the types in the log. |
| `ErrorAggregation.RetainStep` | src/k8s_debugger/server/error_handling.py:235-239 | Trimming after every append equals trimming once after all of them, for one step. |
| `ErrorAggregation.RetainAll` | src/k8s_debugger/server/error_handling.py:223-239 | Recording a sequence of errors keeps the last 1000 of all of them. |
| `ErrorAggregation.Evicts1001` | src/k8s_debugger/server/error_handling.py:237-239 | The 1001st record evicts exactly the first. |
| `ErrorAggregation.HandleServiceError` | src/k8s_debugger/server/error_handling.py:291-312 | The wrapped result or exception passes through unchanged. An `Exception` is recorded under `service::operation` with its context and counts as one failure of that service's health check. No other check changes. Otherwise nothing changes. |
| `ErrorAggregation.RecordBeside` | src/k8s_debugger/server/error_handling.py:298-303 | `record_error` in the wrapper appends and trims the operation's log and leaves every health check valid. |
| `ErrorAggregation.CountFailure` | src/k8s_debugger/server/error_handling.py:305-307 | The named service's check, if it has one, counts one more failure; by its frame no other check can change. |
| `CircuitBreakers.CircuitBreaker.constructor` | src/k8s_debugger/server/error_handling.py:33-45 | A new breaker is Closed with no failures and no failure time. |
| `CircuitBreakers.CircuitBreaker.OnSuccess` | src/k8s_debugger/server/error_handling.py:73-76 | The failure count is zeroed and the state is Closed. |
| `CircuitBreakers.CircuitBreaker.OnFailure` | src/k8s_debugger/server/error_handling.py:78-84 | The count is incremented and the failure time set to now. At the threshold the state becomes Open. |
| `CircuitBreakers.CircuitBreaker.Call` | src/k8s_debugger/server/error_handling.py:47-65 | The wrapper moves the breaker by the transition function, reading `now` at admission and `done` when a failure is recorded. It invokes the operation exactly when admitted, and it keeps the breaker invariant. |
| `CircuitBreakers.Admit` | src/k8s_debugger/server/error_handling.py:51-55 | The gate of the wrapper, with `_should_attempt_reset`; specified by `CircuitBreakers.OpenRejects` and `CircuitBreakers.OpenAttemptsAfterTimeout`. |
| `CircuitBreakers.Step` | src/k8s_debugger/server/error_handling.py:50-84 | One call through the wrapper, admitted at `now` and failing at `done`; specified by the lemmas below. |
| `CircuitBreakers.StepPreservesConsistency` | src/k8s_debugger/server/error_handling.py:47-84 | Every call preserves the invariant: Open or HalfOpen means the threshold was reached and a failure time is known. |
| `CircuitBreakers.OpenRejects` | src/k8s_debugger/server/error_handling.py:51-55 | An Open breaker not yet due for reset rejects the call with the generic Exception, without invoking the operation or changing state. |
| `CircuitBreakers.OpenAttemptsAfterTimeout` | src/k8s_debugger/server/error_handling.py:51-71 | Once strictly more than the recovery timeout has passed since the last failure, the breaker becomes HalfOpen and invokes the operation. |
| `CircuitBreakers.SuccessCloses` | src/k8s_debugger/server/error_handling.py:57-60 | An admitted success from any state returns its value, zeroes the count and closes. |
| `CircuitBreakers.FailureCounted` | src/k8s_debugger/server/error_handling.py:57-63 | An admitted exception is re-raised. An expected exception counts a failure stamped with the instant it was recorded, after the await, and opens at the threshold. Any other exception leaves the counters unchanged. |
| `CircuitBreakers.HalfOpenFailureReopens` | src/k8s_debugger/server/error_handling.py:78-84 | A failure while HalfOpen opens the breaker again. |
| `CircuitBreakers.ConsecutiveFailuresOpen` | src/k8s_debugger/server/error_handling.py:78-84 | k failures from new give count k and the last failure time. The state is Open exactly at the threshold. |
| `CircuitBreakers.RecoveryCycle` | src/k8s_debugger/server/error_handling.py:51-76 | After tripping, a call within the timeout is rejected. A call after it is admitted HalfOpen, and its success closes the breaker. |
| `CircuitBreakers.TimeoutFromFailure` | src/k8s_debugger/server/error_handling.py:67-84 | The recovery timeout runs from the failure stamp: with threshold 1, a call admitted at any time that fails at `done` opens the breaker, and a call within the timeout of `done` is rejected. |
| `RateLimiting.Prune` | src/k8s_debugger/server/error_handling.py:100-102 | Pruning keeps only instants after the cutoff and never grows the log. |
| `RateLimiting.RateLimiter.constructor` | src/k8s_debugger/server/error_handling.py:91-94 | A new limiter has an empty log. |
| `RateLimiting.RateLimiter.Acquire` | src/k8s_debugger/server/error_handling.py:96-109 | The log is pruned, then `now` is appended exactly when fewer than `max_requests` remain. It grants iff it appended, and the log stays within the cap. |
| `RateLimiting.RateLimiter.Call` | src/k8s_debugger/server/error_handling.py:111-119 | A denied call raises "Rate limit exceeded for f" without running the operation. A granted call returns the operation's outcome. |
| `RateLimiting.Admission` | src/k8s_debugger/server/error_handling.py:96-109 | `acquire` as a transition, computed by `RateLimiting.RateLimiter.Acquire` and specified by `RateLimiting.AcquireBounded` and `RateLimiting.ReplayLog`. |
| `RateLimiting.AcquireBounded` | src/k8s_debugger/server/error_handling.py:104-109 | Acquiring never takes the log above `max_requests`. |
| `RateLimiting.PruneTwice` | src/k8s_debugger/server/error_handling.py:100-102 | Pruning at a later cutoff subsumes an earlier prune. |
| `RateLimiting.PruneAppend` | src/k8s_debugger/server/error_handling.py:100-106 | Pruning after an append equals pruning before it, plus the new instant if it is after the cutoff. |
| `RateLimiting.ReplayLog` | src/k8s_debugger/server/error_handling.py:96-109 | Over non-decreasing instants, the log equals the granted instants inside the last window. |
| `RateLimiting.AtMostMaxPerWindow` | src/k8s_debugger/server/error_handling.py:96-109 | At most `max_requests` grants fall in the window that ends at the latest call. |
| `RateLimiting.ReplayBounded` | src/k8s_debugger/server/error_handling.py:96-109 | The log never exceeds `max_requests` entries. |
| `RateLimiting.PruneKeepsAll` | src/k8s_debugger/server/error_handling.py:100-102 | A log whose instants are all after the cutoff is left unchanged. |
| `RateLimiting.PruneDropsAll` | src/k8s_debugger/server/error_handling.py:100-102 | A log whose instants are all at or before the cutoff is emptied. |
| `RateLimiting.AdmissionKeepsLog` | src/k8s_debugger/server/error_handling.py:96-109 | If the log is the granted instants inside the previous call's window, then after a call no earlier it is the granted instants inside the new window. |
| `RateLimiting.ThreePerWindow` | src/k8s_debugger/server/error_handling.py:96-109 | With 3 per window, three calls inside one window pass. A fourth inside it is denied. A call once the window of all three has passed is granted. |
| `HealthChecks.ServiceHealthCheck.constructor` | src/k8s_debugger/server/error_handling.py:183-188 | A new check is healthy with no failures and no check time. |
| `HealthChecks.ServiceHealthCheck.RecordFailure` | src/k8s_debugger/server/error_handling.py:209-214 | One more consecutive failure; the service is unhealthy from the third. |
| `HealthChecks.ServiceHealthCheck.CheckHealth` | src/k8s_debugger/server/error_handling.py:190-207 | A truthy probe resets. A falsy probe or an exception counts a failure. Only an answered probe sets `last_check`. An exception returns False. |
| `HealthChecks.Checked` | src/k8s_debugger/server/error_handling.py:190-214 | `check_health` as a transition, computed by `HealthChecks.ServiceHealthCheck.CheckHealth` and specified by `HealthChecks.CheckHealthCoherent`. |
| `HealthChecks.CheckHealthCoherent` | src/k8s_debugger/server/error_handling.py:190-214 | Health is coherent with the failure count. An answered probe returns the new health and stamps `now`. An exception leaves `last_check` and returns False. |
| `HealthChecks.FailuresAccumulate` | src/k8s_debugger/server/error_handling.py:209-214 | k failing probes add k to the count. The service is healthy iff the total stays below 3. |
| `HealthChecks.ThreeStrikes` | src/k8s_debugger/server/error_handling.py:190-214 | Falsy, raised, falsy: unhealthy after the third, not the second. A later truthy probe restores health. |
| `TimeWindows.WindowMinutes` | src/k8s_debugger/server/tools.py:411-418 | The window size in minutes, specified by `TimeWindows.WindowMinutesMeaning`. |
| `TimeWindows.WindowMinutesMeaning` | src/k8s_debugger/server/tools.py:411-418 | `Nm` gives N minutes, `Nh` gives 60 N, and any other suffix or an empty size gives 15. A bad number before `m` is a ValueError. |
| `TimeWindows.IntPrefixDecimal` | src/k8s_debugger/server/tools.py:412-415 | The text before the unit of `f"{n}m"` or `f"{n}h"` parses back to n. |
| `TimeWindows.WindowMinutesDefault` | src/k8s_debugger/server/tools.py:412-417 | A size that ends in neither `m` nor `h`, or is empty, gives 15 minutes. |
| `TimeWindows.GenerateWindows` | src/k8s_debugger/server/tools.py:421-431 | The window loop yields the windows specified by `Slices`, whose shape is proved in `TimeWindows.SlicesTile` and `TimeWindows.SlicesCount`. |
| `TimeWindows.SlicesCount` | src/k8s_debugger/server/tools.py:422-431 | There are no windows for an empty range. Otherwise n windows with `(n-1)·d < L <= n·d`, i.e. ceil(L/d). |
| `TimeWindows.SlicesElements` | src/k8s_debugger/server/tools.py:424-431 | Window i starts at `start + i·d`, before `end`, and ends at `min(start + (i+1)·d, end)`. |
| `TimeWindows.SlicesTile` | src/k8s_debugger/server/tools.py:422-431 | The windows start at `start`, are contiguous, and are full steps except the last. The last ends at `end` with a positive length of at most one step. Their lengths sum to the range. |
| `TimeWindows.SlicesAdjacent` | src/k8s_debugger/server/tools.py:424-431 | Each window but the last is a full step and ends where the next starts. |
| `TimeWindows.SlicesLastWindow` | src/k8s_debugger/server/tools.py:424-431 | For a non-empty range, the last window ends at `end` and is at most one step long, with a positive length. |
| `TimeWindows.SlicesLast` | src/k8s_debugger/server/tools.py:425 | The last window is clipped to `end`. |
| `TimeWindows.SlicesLength` | src/k8s_debugger/server/tools.py:422-431 | The window lengths add up to the range. |
| `TimeWindows.NonPositiveStepNeverEnds` | src/k8s_debugger/server/tools.py:419-431 | As written, a step of zero or less never moves the cursor past `start`, so the loop condition holds forever. |
| `TimeWindows.Windows` | src/k8s_debugger/server/tools.py:419-431 | The corrected window list, specified by `TimeWindows.WindowsMeaning`. |
| `TimeWindows.WindowsMeaning` | src/k8s_debugger/server/tools.py:419-431 | The corrected slicing errs iff the step is non-positive and the range non-empty. Otherwise it yields ceil(L/d) windows covering the range. |
| `TimeWindows.TwoHoursInQuarters` | src/k8s_debugger/server/tools.py:403-431 | Two hours in 15-minute windows give 8 windows; the last is [6300, 7200). |
| `TimeCorrelation.Anomalies` | src/k8s_debugger/server/tools.py:495-514 | `_detect_anomalies`, computed by `TimeCorrelation.DetectAnomalies` and specified by `TimeCorrelation.AnomaliesMeaning`. |
| `TimeCorrelation.DetectAnomalies` | src/k8s_debugger/server/tools.py:495-514 | The appending method yields the anomaly list of the specification, whose meaning is `TimeCorrelation.AnomaliesMeaning`. |
| `TimeCorrelation.AnomaliesMeaning` | src/k8s_debugger/server/tools.py:495-514 | High error rate iff `10·errors > logs`, and only with errors present. "No logs" iff `logs == 0`. High volume iff `logs > 1000`. "No logs" never comes with a high error rate, and there are at most two flags. |
| `TimeCorrelation.AnalyzeWindowAsWritten` | src/k8s_debugger/server/tools.py:435-463 | One window analysed as written; its fetch interval is stated by `TimeCorrelation.AsWrittenQueriesLastMinutes` and `TimeCorrelation.FirstWindowMissed`. |
| `TimeCorrelation.AsWrittenQueriesLastMinutes` | src/k8s_debugger/server/tools.py:435-442 | As written, every window's data is fetched for the last `window_minutes` before `now`, not for the window. |
| `TimeCorrelation.ErrorLineCounted` | src/k8s_debugger/server/tools.py:477-493 | A single error line counts as one log and one error. |
| `TimeCorrelation.FirstWindowMissed` | src/k8s_debugger/server/tools.py:435-456 | As written, the first of eight 15-minute windows reports 0 logs and "No logs detected", although its line lies in it. |
| `TimeCorrelation.FirstWindowCounted` | src/k8s_debugger/server/tools.py:435-456 | Corrected, the same window reports one log and one error. |
| `TimeCorrelation.AnalyzeWindowMeaning` | src/k8s_debugger/server/tools.py:433-463 | A window's analysis counts its own logs and errors (errors at most logs), reports metrics available, and flags the specified anomalies. Only a non-`Exception` escapes. |
| `TimeCorrelation.AnalyzeWindowStep` | src/k8s_debugger/server/tools.py:439-463 | One iteration of the window loop yields the corrected window analysis. |
| `TimeCorrelation.ErrorCounts` | src/k8s_debugger/server/tools.py:522-523 | The error counts of valid windows are as many as their log counts. |
| `TimeCorrelation.MaxOfIsMax` | src/k8s_debugger/server/tools.py:531 | `max()` is an element and bounds every element. |
| `TimeCorrelation.MinOfIsMin` | src/k8s_debugger/server/tools.py:532 | `min()` is an element and is below every element. |
| `TimeCorrelation.CountPositiveBounded` | src/k8s_debugger/server/tools.py:538 | `error_windows` is at most the windows and at most the error total. |
| `TimeCorrelation.CountsOfWindows` | src/k8s_debugger/server/tools.py:522-523 | Only valid windows contribute counts, in order. If all failed, there are none. |
| `TimeCorrelation.AnalyzeTrends` | src/k8s_debugger/server/tools.py:516-551 | `_analyze_trends`, specified by `TimeCorrelation.TrendsMeaning`. |
| `TimeCorrelation.CountPositiveIndices` | src/k8s_debugger/server/tools.py:538 | `error_windows` is the number of positions holding a positive error count. |
| `TimeCorrelation.TrendsMeaning` | src/k8s_debugger/server/tools.py:516-551 | `{}` iff there are no windows, and "no valid windows" iff all failed. Otherwise peak and minimum are attained and bound all counts, and `minimum <= peak <= total`. `total_errors` is the sum of the error counts, `peak_errors` is one of them and bounds each, and `error_windows` is the number of windows with a positive error count. Errors stay within logs. |
| `TimeCorrelation.LogStats` | src/k8s_debugger/server/tools.py:528-534 | Peak and minimum of the log counts are among them and bound each count; the peak is at most the total; the two halves add up to the total. |
| `TimeCorrelation.ErrorStats` | src/k8s_debugger/server/tools.py:535-539 | Peak errors is attained and at most the total. `error_windows` is at most the windows and the total. Errors bounded pointwise by logs give totals and peaks bounded by the log ones. |
| `TimeCorrelation.DirectionExamples` | src/k8s_debugger/server/tools.py:542-550 | [10,12,30,35] is increasing, [50,40,10,5] decreasing, four equal counts stable, and any two windows stable. |
| `TimeCorrelation.DirectionOf` | src/k8s_debugger/server/tools.py:541-550 | The trend direction, specified by `TimeCorrelation.DirectionScales`, `TimeCorrelation.FlatDirection` and `TimeCorrelation.DirectionExamples`. |
| `TimeCorrelation.DirectionScales` | src/k8s_debugger/server/tools.py:541-550 | Scaling every log count by the same positive factor does not change the direction. |
| `TimeCorrelation.FlatDirection` | src/k8s_debugger/server/tools.py:541-550 | Because `n//2` gives the second half the extra window, equal positive counts over 3, 5, 7 or 9 windows read as increasing; over an even number, or 11 or more, they are stable. |
| `TimeCorrelation.AnalyzeWindowsMeaning` | src/k8s_debugger/server/tools.py:433-463 | The window loop returns iff every window's analysis does, with one analysis per window, in order. |
| `TimeCorrelation.AnalyzeWindowsStops` | src/k8s_debugger/server/tools.py:444-463 | An exception escaping one window ends the whole analysis with that exception. |
| `TimeCorrelation.SequentiallyMeaning` | src/k8s_debugger/server/tools.py:434-463 | Running a step over each element in order returns iff every step returns, with one result per element, in order. |
| `TimeCorrelation.SequentiallyStops` | src/k8s_debugger/server/tools.py:444-463 | Once a prefix raises, the whole run raises the same exception. |
| `TimeCorrelation.ReportWindows` | src/k8s_debugger/server/tools.py:420-463 | Analysis i covers window i of the slicing and reports errors at most logs. |
| `TimeCorrelation.TimeCorrelationOf` | src/k8s_debugger/server/tools.py:399-475 | The corrected `analyze_time_correlation` report, computed by `TimeCorrelation.AnalyzeTimeCorrelation` and specified by `TimeCorrelation.TimeCorrelationMeaning`. |
| `TimeCorrelation.TimeCorrelationMeaning` | src/k8s_debugger/server/tools.py:399-475 | A bad duration or window size escapes, and a non-positive window is a ValueError. Otherwise `total_windows` is the number of analysed windows, ceil(L/d), and the trends are those of the windows. |
| `TimeCorrelation.ReportMeaning` | src/k8s_debugger/server/tools.py:419-475 | For a parsed range and window size: a non-positive window over a non-empty range is a ValueError; otherwise `total_windows` is the window count, ceil(L/d), the analyses are those of the slicing, and the trends are those of the analyses. |
| `TimeCorrelation.AnalyzeTimeCorrelation` | src/k8s_debugger/server/tools.py:399-475 | The loops over the windows yield the report of the specification, whose meaning is `TimeCorrelation.TimeCorrelationMeaning`. |
| `TimeCorrelation.AnalyzeEach` | src/k8s_debugger/server/tools.py:433-463 | The window loop returns the per-window analyses in order, or the first escaping exception. |

## Left out

- The `asyncio.gather` fan-outs are evaluated in list order; concurrency and scheduling are not modelled. No locking exists in the source.
- SDK and client setup (`_setup_k8s_client`, `_setup_aws_client`, the Grafana MCP client) become optional function parameters. Their I/O is not modelled.
- `retry_with_exponential_backoff` and `with_timeout` are not modelled. They are thin wrappers whose backoff and cancellation live in tenacity and asyncio.
- `ErrorContext` is not modelled; it only logs durations.
- The module-level `error_aggregator` and `service_health_checks` (error_handling.py:283-288) become parameters of `ErrorAggregation.HandleServiceError`. Any map of checks is accepted, not only the three named services. The decorator's `await` of the wrapped coroutine is its `Outcome` argument.
- `load_settings` (file and YAML I/O), `format_timestamp`, the protocol clients, the CLI and logging are not part of this model.
- Floating point is not modelled. The trend `average` and the percentage text of the error-rate anomaly are left out. The 0.1, 1.2 and 0.8 thresholds are compared exactly by cross-multiplication, which can differ from the float comparison right at the boundary.
- `isoformat` and local-time rendering of instants are not modelled. CloudWatch event times and window bounds are integers, and the window `duration` label is not kept.
- `datetime` and `timedelta` overflow is not modelled; instants are unbounded integers.
- Case folding and whitespace are ASCII-only in `.lower()`, `.upper()`, `strip()` and `int()`: the ASCII whitespace characters (space, `\t`, `\n`, `\v`, `\f`, `\r` and `\x1c`–`\x1f`) are stripped, but non-ASCII whitespace and non-ASCII digits are not recognised. The exact wording of the unpacking ValueError is a fixed text.
- Kubernetes event fields that the model keeps non-optional (name, reason, message, involved object) are not modelled as nullable.
- A Grafana reply missing its `data` or `result` key is modelled as an absent result list, which `get(…, [])` turns into an empty one.
- The CloudWatch request's `limit=1000` is not modelled; the backend returns whatever it returns.
- `Correlation.GetEnhancedCorrelation` turns a slot's non-`Exception` BaseException into an error dict too, where the source would keep the exception object itself in that slot.
- `TimeCorrelation.AnalyzeTimeCorrelation` uses the corrected slicing and per-window intervals (Findings, rows 2 and 3). The as-written behaviour is kept in `TimeWindows.NonPositiveStepNeverEnds` and `TimeCorrelation.AnalyzeWindowAsWritten`.
- `Correlation.GetEnhancedCorrelation` uses the corrected recency test (Findings, row 1).
- `PyStr.IntLiteralError` puts the rejected text between single quotes as it is. Python formats it with `repr` cut to 200 characters: double quotes when the text holds `'` and no `"`, backslash escapes for `\`, for control characters and for the quote when both kinds occur, and truncation of long text. The message of every ValueError from a bad duration or window size (in `get_pod_logs`, `get_pod_metrics`, `get_cluster_events`, `get_cloudwatch_events`, `analyze_time_correlation` and the time utilities) therefore differs from the source's on such text.
- `TimeUtils.GrafanaTimestampToIso` models only the text `grafana_timestamp_to_datetime` hands to `datetime.fromisoformat`; the ISO parse and its ValueError on text that is not ISO 8601 are not modelled, since instants are plain integers here.

## Findings

| source | as written | input that shows it | evidently intended | confidence | as-written member | corrected member |
|---|---|---|---|---|---|---|
| src/k8s_debugger/server/tools.py:389-395 | `recent_threshold` comes from naive `datetime.utcnow()`, while each event time is parsed from `...+00:00` and is aware, so `>` raises TypeError | `include_cloudwatch=True` with a cluster configured and CloudWatch returning one event | count the events of the last 30 minutes, comparing instants | not executed | `Summaries.OneEventRaises` | `Summaries.EnhancedSummaryMeaning` |
| src/k8s_debugger/server/tools.py:411-431 | a window size of `0m` (or a negative one) gives a zero or negative `window_delta`, and the `while current_time < end_dt` loop never ends | `analyze_time_correlation(ns, pod, "2h", "0m")` | reject a non-positive window size | not executed | `TimeWindows.NonPositiveStepNeverEnds` | `TimeWindows.WindowsMeaning` |
| src/k8s_debugger/server/tools.py:436-442 | every window fetches `f"{window_minutes}m"`, the last minutes before now, instead of the window's own bounds | `"2h"`, `"15m"`, one error line inside the first window | each window analysed over its own start and end | not executed | `TimeCorrelation.FirstWindowMissed` | `TimeCorrelation.FirstWindowCounted` |
