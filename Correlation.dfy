/** The fan-out merges of `server/tools.py`: `correlate_pod_data` gathers
    logs, metrics and events and lets any exception escape;
    `get_enhanced_correlation` gathers with `return_exceptions=True`, turns
    every failed slot into an error dict and may add CloudWatch. The
    concurrent awaits are modelled by evaluating the slots in list order. */
module Correlation {
  import opened Common
  import opened Sources
  import opened Summaries
  import Config

  datatype PodCorrelation = PodCorrelation(
    namespace: string, podName: Option<string>, labelSelector: Option<string>, timeRange: string,
    logs: LogsResult, metrics: MetricsResult, events: EventsResult, summary: Summary)

  /** `correlate_pod_data` at instant `now`: the three results and their
      summary, or the first exception among the slots. */
  function CorrelatePodData(namespace: string, podName: Option<string>, labelSelector: Option<string>,
                            timeRange: string, now: int,
                            loki: QueryBackend, prom: QueryBackend, k8s: Option<EventsBackend>)
    : Outcome<PodCorrelation>
  {
    var logs := GetPodLogs(namespace, podName, labelSelector, timeRange, now, loki);
    var metrics := GetPodMetrics(namespace, podName, labelSelector, timeRange, now, prom);
    var events := ClusterEvents(namespace, timeRange, now, k8s);
    if logs.Raises? then Raises(logs.exc)
    else if metrics.Raises? then Raises(metrics.exc)
    else if events.Raises? then Raises(events.exc)
    else Returns(PodCorrelation(namespace, podName, labelSelector, timeRange,
                                logs.value, metrics.value, events.value, Summarize(logs.value, events.value)))
  }

  /** The merge succeeds exactly when every slot does, keeps each slot's
      result unchanged and summarises logs and events. */
  lemma CorrelatePodDataMeaning(namespace: string, podName: Option<string>, labelSelector: Option<string>,
                                timeRange: string, now: int,
                                loki: QueryBackend, prom: QueryBackend, k8s: Option<EventsBackend>)
    ensures var r := CorrelatePodData(namespace, podName, labelSelector, timeRange, now, loki, prom, k8s);
      var logs := GetPodLogs(namespace, podName, labelSelector, timeRange, now, loki);
      var metrics := GetPodMetrics(namespace, podName, labelSelector, timeRange, now, prom);
      var events := ClusterEvents(namespace, timeRange, now, k8s);
      && (r.Returns? <==> logs.Returns? && metrics.Returns? && events.Returns?)
      && (logs.Raises? ==> r == Raises(logs.exc))
      && (r.Returns? ==>
            && r.value.logs == logs.value && r.value.metrics == metrics.value && r.value.events == events.value
            && r.value.summary == Summarize(logs.value, events.value)
            && r.value.summary.errorLogs <= r.value.summary.logEntries)
  {
    var logs := GetPodLogs(namespace, podName, labelSelector, timeRange, now, loki);
    var events := ClusterEvents(namespace, timeRange, now, k8s);
    if logs.Returns? && events.Returns? {
      SummaryBounds(logs.value, events.value);
    }
  }

  /** A bad duration raises in the logs slot before its `try`, and as the
      first slot its ValueError is the one that escapes the merge. */
  lemma BadDurationEscapes(namespace: string, podName: Option<string>, labelSelector: Option<string>,
                           timeRange: string, now: int,
                           loki: QueryBackend, prom: QueryBackend, k8s: Option<EventsBackend>)
    requires Queries.TimeRangeToTimestamps(timeRange, now).Err?
    ensures CorrelatePodData(namespace, podName, labelSelector, timeRange, now, loki, prom, k8s) ==
              Raises(Queries.TimeRangeToTimestamps(timeRange, now).error)
  {
  }

  // ---------------------------------------------------------------------
  // get_enhanced_correlation

  datatype EnhancedCorrelation = EnhancedCorrelation(
    namespace: string, podName: Option<string>, labelSelector: Option<string>, timeRange: string,
    includesCloudwatch: bool,
    logs: LogsResult, metrics: MetricsResult, events: EventsResult,
    summary: EnhancedSummary, cloudwatch: Option<CloudWatchResult>)

  /** A slot of `gather(..., return_exceptions=True)`: the result, or the
      error dict made of the exception in its place. */
  function SettledLogs(o: Outcome<LogsResult>): LogsResult {
    if o.Returns? then o.value else LogsError(o.exc.message)
  }

  function SettledMetrics(o: Outcome<MetricsResult>): MetricsResult {
    if o.Returns? then o.value else MetricsError(o.exc.message)
  }

  function SettledEvents(o: Outcome<EventsResult>): EventsResult {
    if o.Returns? then o.value else EventsError(o.exc.message)
  }

  /** The fourth slot is added only when asked for and the settings name an
      EKS cluster. */
  predicate CloudWatchRequested(includeCloudwatch: bool, settings: Option<Config.Settings>) {
    includeCloudwatch && settings.Some? && Truthy(settings.value.eksClusterName)
  }

  /** `cloudwatch_result`: the fourth slot's result, `None` when there is no
      fourth slot or it raised. */
  function CloudWatchSlot(includeCloudwatch: bool, settings: Option<Config.Settings>, timeRange: string,
                          now: int, cw: Option<LogGroupBackend>): Option<CloudWatchResult>
  {
    if CloudWatchRequested(includeCloudwatch, settings) then
      var o := GetCloudWatchEvents(settings.value.eksClusterName.value, timeRange, now, cw);
      if o.Returns? then Some(o.value) else None
    else None
  }

  /** `get_enhanced_correlation` at instant `now`, with the recency test of
      the enhanced summary done on instants. */
  function GetEnhancedCorrelation(
    namespace: string, podName: Option<string>, labelSelector: Option<string>, timeRange: string,
    includeCloudwatch: bool, settings: Option<Config.Settings>, now: int,
    loki: QueryBackend, prom: QueryBackend, k8s: Option<EventsBackend>, cw: Option<LogGroupBackend>)
    : EnhancedCorrelation
  {
    var logs := SettledLogs(GetPodLogs(namespace, podName, labelSelector, timeRange, now, loki));
    var metrics := SettledMetrics(GetPodMetrics(namespace, podName, labelSelector, timeRange, now, prom));
    var events := SettledEvents(ClusterEvents(namespace, timeRange, now, k8s));
    var cloudwatch := CloudWatchSlot(includeCloudwatch, settings, timeRange, now, cw);
    EnhancedCorrelation(namespace, podName, labelSelector, timeRange, cloudwatch.Some?,
                        logs, metrics, events, EnhancedSummaryOf(logs, events, cloudwatch, now), cloudwatch)
  }

  /** Nothing escapes the first three slots of the enhanced merge: a slot
      that raised shows as an error dict carrying the exception's text, and
      a slot that returned keeps its result. */
  lemma EnhancedSlotsSettled(
    namespace: string, podName: Option<string>, labelSelector: Option<string>, timeRange: string,
    includeCloudwatch: bool, settings: Option<Config.Settings>, now: int,
    loki: QueryBackend, prom: QueryBackend, k8s: Option<EventsBackend>, cw: Option<LogGroupBackend>)
    ensures var r := GetEnhancedCorrelation(namespace, podName, labelSelector, timeRange,
                                            includeCloudwatch, settings, now, loki, prom, k8s, cw);
      var logs := GetPodLogs(namespace, podName, labelSelector, timeRange, now, loki);
      var metrics := GetPodMetrics(namespace, podName, labelSelector, timeRange, now, prom);
      var events := ClusterEvents(namespace, timeRange, now, k8s);
      && (logs.Raises? ==> r.logs == LogsError(logs.exc.message))
      && (logs.Returns? ==> r.logs == logs.value)
      && (metrics.Raises? ==> r.metrics == MetricsError(metrics.exc.message))
      && (metrics.Returns? ==> r.metrics == metrics.value)
      && (events.Raises? ==> r.events == EventsError(events.exc.message))
      && (events.Returns? ==> r.events == events.value)
  {
  }

  /** CloudWatch is included exactly when it was asked for, a cluster is
      configured and its slot did not raise; its counters appear exactly
      when it returned events, and each is bounded by the event count. */
  lemma EnhancedCorrelationMeaning(
    namespace: string, podName: Option<string>, labelSelector: Option<string>, timeRange: string,
    includeCloudwatch: bool, settings: Option<Config.Settings>, now: int,
    loki: QueryBackend, prom: QueryBackend, k8s: Option<EventsBackend>, cw: Option<LogGroupBackend>)
    ensures var r := GetEnhancedCorrelation(namespace, podName, labelSelector, timeRange,
                                            includeCloudwatch, settings, now, loki, prom, k8s, cw);
      && (r.includesCloudwatch <==>
            CloudWatchRequested(includeCloudwatch, settings)
            && GetCloudWatchEvents(settings.value.eksClusterName.value, timeRange, now, cw).Returns?)
      && (r.includesCloudwatch <==> r.cloudwatch.Some?)
      && (r.summary.cloudwatch.Some? <==> r.cloudwatch.Some? && r.cloudwatch.value.CloudWatchEvents?)
      && (r.summary.cloudwatch.Some? ==> r.summary.cloudwatch.value.errors <= r.summary.cloudwatch.value.events)
      && (r.summary.cloudwatch.Some? ==> r.summary.cloudwatch.value.recentIssues <= r.summary.cloudwatch.value.events)
  {
    var r := GetEnhancedCorrelation(namespace, podName, labelSelector, timeRange,
                                    includeCloudwatch, settings, now, loki, prom, k8s, cw);
    EnhancedSummaryMeaning(r.logs, r.events, r.cloudwatch, now);
  }

  /** When the plain correlation succeeds, the enhanced one carries the
      same three results, and its summary extends the plain summary. */
  lemma EnhancedExtendsPlain(
    namespace: string, podName: Option<string>, labelSelector: Option<string>, timeRange: string,
    includeCloudwatch: bool, settings: Option<Config.Settings>, now: int,
    loki: QueryBackend, prom: QueryBackend, k8s: Option<EventsBackend>, cw: Option<LogGroupBackend>)
    requires CorrelatePodData(namespace, podName, labelSelector, timeRange, now, loki, prom, k8s).Returns?
    ensures var plain := CorrelatePodData(namespace, podName, labelSelector, timeRange, now, loki, prom, k8s).value;
      var r := GetEnhancedCorrelation(namespace, podName, labelSelector, timeRange,
                                      includeCloudwatch, settings, now, loki, prom, k8s, cw);
      && r.logs == plain.logs && r.metrics == plain.metrics && r.events == plain.events
      && r.summary.base == plain.summary
  {
  }
}
