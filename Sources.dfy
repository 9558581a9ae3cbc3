/** The data-gathering operations of `DebugTools` in `server/tools.py`:
    logs from Loki, metrics from Prometheus, Kubernetes events and EKS
    control-plane events from CloudWatch. Each backend is a function from
    the request to what the call does; the clock reading is `now`. */
module Sources {
  import opened Common
  import opened PyStr
  import opened TimeUtils
  import opened Queries

  /** One entry of a query result: its labels and, when the reply has a
      `values` key, the entries (for Loki, `[timestamp, line]`). */
  datatype Stream = Stream(labels: map<string, string>, values: Option<seq<seq<string>>>)

  /** A Grafana query: the query text and interval in, the reply's
      `data.result` out (`None` when either key is missing), or a raised
      exception. */
  type QueryBackend = (string, Range) -> Outcome<Option<seq<Stream>>>

  /** A value of a dict slot, or the `{"error": str(e)}` that replaced it. */
  datatype Slot<T> = Payload(value: T) | ErrorDict(message: string)

  /** `result.get("data", {}).get("result", [])` */
  function ResultList(reply: Option<seq<Stream>>): seq<Stream> {
    if reply.Some? then reply.value else []
  }

  // ---------------------------------------------------------------------
  // get_pod_logs

  datatype LogsResult =
    | Logs(logs: seq<Stream>, query: string, range: Range)
    | LogsError(message: string)

  /** The `try` block of `get_pod_logs`: the query for the interval, with an
      `Exception` turned into an error dict. */
  function LogsForRange(query: string, range: Range, loki: QueryBackend): Outcome<LogsResult> {
    match loki(query, range)
    case Returns(reply) => Returns(Logs(ResultList(reply), query, range))
    case Raises(e) => if IsInstance(e, "Exception") then Returns(LogsError(e.message)) else Raises(e)
  }

  /** `get_pod_logs` at instant `now`. The duration and the selector are
      evaluated before the `try`, so their ValueErrors escape. */
  function GetPodLogs(namespace: string, podName: Option<string>, labelSelector: Option<string>,
                      timeRange: string, now: int, loki: QueryBackend): Outcome<LogsResult>
  {
    match TimeRangeToTimestamps(timeRange, now)
    case Err(e) => Raises(e)
    case Ok(range) =>
      match LokiQuery(namespace, podName, labelSelector)
      case Err(e) => Raises(e)
      case Ok(query) => LogsForRange(query, range, loki)
  }

  /** Loki is asked exactly the built query over the parsed interval; its
      result is passed through, an `Exception` becomes an error dict, and
      only a bad duration, a bad selector or a non-`Exception` escapes. */
  lemma PodLogsMeaning(namespace: string, podName: Option<string>, labelSelector: Option<string>,
                       timeRange: string, now: int, loki: QueryBackend)
    ensures var r := GetPodLogs(namespace, podName, labelSelector, timeRange, now, loki);
      var range := TimeRangeToTimestamps(timeRange, now);
      var query := LokiQuery(namespace, podName, labelSelector);
      && (range.Err? ==> r == Raises(range.error))
      && (range.Ok? && query.Err? ==> r == Raises(query.error))
      && (range.Ok? && query.Ok? ==>
            var reply := loki(query.value, range.value);
            && (reply.Returns? ==> r == Returns(Logs(ResultList(reply.value), query.value, range.value)))
            && (reply.Raises? && IsInstance(reply.exc, "Exception") ==> r == Returns(LogsError(reply.exc.message)))
            && (reply.Raises? && !IsInstance(reply.exc, "Exception") ==> r == Raises(reply.exc)))
  {
  }

  // ---------------------------------------------------------------------
  // get_pod_metrics

  datatype MetricsResult =
    | Metrics(metrics: map<string, Slot<seq<Stream>>>, range: Range)
    | MetricsError(message: string)

  /** One iteration of the metric loop: the result list, or the error dict
      of an `Exception`. */
  function MetricSlot(query: string, range: Range, prom: QueryBackend): Outcome<Slot<seq<Stream>>> {
    match prom(query, range)
    case Returns(reply) => Returns(Payload(ResultList(reply)))
    case Raises(e) => if IsInstance(e, "Exception") then Returns(ErrorDict(e.message)) else Raises(e)
  }

  /** The metric loop in dict order; a non-`Exception` stops it. */
  function MetricSlots(queries: seq<(string, string)>, range: Range, prom: QueryBackend)
    : Outcome<map<string, Slot<seq<Stream>>>>
    decreases |queries|
  {
    if queries == [] then Returns(map[])
    else
      match MetricSlot(queries[0].1, range, prom)
      case Raises(e) => Raises(e)
      case Returns(slot) =>
        match MetricSlots(queries[1..], range, prom)
        case Raises(e) => Raises(e)
        case Returns(rest) => Returns(rest[queries[0].0 := slot])
  }

  /** `get_pod_metrics` at instant `now`. */
  function GetPodMetrics(namespace: string, podName: Option<string>, labelSelector: Option<string>,
                         timeRange: string, now: int, prom: QueryBackend): Outcome<MetricsResult>
  {
    match TimeRangeToTimestamps(timeRange, now)
    case Err(e) => Raises(e)
    case Ok(range) => MetricsForRange(PromFilter(namespace, podName, labelSelector), range, prom)
  }

  /** The metric loop for one filter and interval. */
  function MetricsForRange(filter: string, range: Range, prom: QueryBackend): Outcome<MetricsResult> {
    match MetricSlots(MetricQueries(filter), range, prom)
    case Raises(e) => Raises(e)
    case Returns(m) => Returns(Metrics(m, range))
  }

  /** Every metric gets its own slot, holding what Prometheus answered to
      that metric's query or the error it raised; the result itself never
      carries a top-level error. */
  lemma MetricsForRangeMeaning(filter: string, range: Range, prom: QueryBackend)
    ensures var r := MetricsForRange(filter, range, prom);
      var qs := MetricQueries(filter);
      && (r.Returns? <==> forall i :: 0 <= i < |qs| ==> MetricSlot(qs[i].1, range, prom).Returns?)
      && (r.Returns? ==>
            && r.value.Metrics?
            && r.value.range == range
            && r.value.metrics.Keys == (set i | 0 <= i < |METRIC_NAMES| :: METRIC_NAMES[i])
            && forall i :: 0 <= i < |qs| ==>
                 qs[i].0 in r.value.metrics && r.value.metrics[qs[i].0] == MetricSlot(qs[i].1, range, prom).value)
  {
    var qs := MetricQueries(filter);
    MetricSlotsMeaning(qs, range, prom);
    assert (set i | 0 <= i < |qs| :: qs[i].0) == (set i | 0 <= i < |METRIC_NAMES| :: METRIC_NAMES[i]) by {
      assert forall i :: 0 <= i < |qs| ==> qs[i].0 == METRIC_NAMES[i];
    }
  }

  /** The loop fills one slot per query, under the query's name, unless a
      slot escapes. */
  lemma MetricSlotsMeaning(queries: seq<(string, string)>, range: Range, prom: QueryBackend)
    requires forall i, j :: 0 <= i < j < |queries| ==> queries[i].0 != queries[j].0
    ensures var r := MetricSlots(queries, range, prom);
      && (r.Returns? <==> forall i :: 0 <= i < |queries| ==> MetricSlot(queries[i].1, range, prom).Returns?)
      && (r.Returns? ==>
            && r.value.Keys == (set i | 0 <= i < |queries| :: queries[i].0)
            && forall i :: 0 <= i < |queries| ==>
                 queries[i].0 in r.value && r.value[queries[i].0] == MetricSlot(queries[i].1, range, prom).value)
  {
    MetricSlotsReturn(queries, range, prom);
    MetricSlotsKeys(queries, range, prom);
    MetricSlotsValues(queries, range, prom);
  }

  /** The loop completes exactly when no slot escapes. */
  lemma {:induction false} MetricSlotsReturn(queries: seq<(string, string)>, range: Range, prom: QueryBackend)
    ensures MetricSlots(queries, range, prom).Returns? <==>
              forall i :: 0 <= i < |queries| ==> MetricSlot(queries[i].1, range, prom).Returns?
    decreases |queries|
  {
    if queries != [] {
      var tail := queries[1..];
      MetricSlotsReturn(tail, range, prom);
      assert forall i :: 1 <= i < |queries| ==> queries[i] == tail[i - 1];
    }
  }

  /** A completed loop has a slot under each query's name and no other. */
  lemma {:induction false} MetricSlotsKeys(queries: seq<(string, string)>, range: Range, prom: QueryBackend)
    ensures var r := MetricSlots(queries, range, prom);
      r.Returns? ==> r.value.Keys == (set i | 0 <= i < |queries| :: queries[i].0)
    decreases |queries|
  {
    if queries != [] {
      var tail := queries[1..];
      MetricSlotsKeys(tail, range, prom);
      var names := set i | 0 <= i < |queries| :: queries[i].0;
      assert names == (set i | 0 <= i < |tail| :: tail[i].0) + {queries[0].0} by {
        forall x | x in names
          ensures x in (set i | 0 <= i < |tail| :: tail[i].0) + {queries[0].0}
        {
          var i :| 0 <= i < |queries| && queries[i].0 == x;
          if i > 0 {
            assert tail[i - 1].0 == x;
          }
        }
        forall x | x in (set i | 0 <= i < |tail| :: tail[i].0)
          ensures x in names
        {
          var i :| 0 <= i < |tail| && tail[i].0 == x;
          assert queries[i + 1].0 == x;
        }
      }
    }
  }

  /** With distinct names, each query's slot holds that query's result. */
  lemma {:induction false} MetricSlotsValues(queries: seq<(string, string)>, range: Range, prom: QueryBackend)
    requires forall i, j :: 0 <= i < j < |queries| ==> queries[i].0 != queries[j].0
    ensures var r := MetricSlots(queries, range, prom);
      r.Returns? ==> forall i :: 0 <= i < |queries| ==>
        queries[i].0 in r.value && MetricSlot(queries[i].1, range, prom) == Returns(r.value[queries[i].0])
    decreases |queries|
  {
    if queries != [] {
      var tail := queries[1..];
      assert forall i, j :: 0 <= i < j < |tail| ==> tail[i].0 != tail[j].0 by {
        forall i, j | 0 <= i < j < |tail| ensures tail[i].0 != tail[j].0 {
          assert tail[i] == queries[i + 1] && tail[j] == queries[j + 1];
        }
      }
      MetricSlotsValues(tail, range, prom);
      assert forall i :: 1 <= i < |queries| ==> queries[i] == tail[i - 1];
    }
  }

  /** Only a non-`Exception` escapes the metric loop: every `Exception`
      stays in its slot. */
  lemma {:induction false} MetricSlotsEscape(queries: seq<(string, string)>, range: Range, prom: QueryBackend)
    ensures var r := MetricSlots(queries, range, prom);
      r.Raises? ==> !IsInstance(r.exc, "Exception")
    decreases |queries|
  {
    if queries != [] {
      MetricSlotsEscape(queries[1..], range, prom);
    }
  }

  // ---------------------------------------------------------------------
  // get_cluster_events

  /** A Kubernetes event as the client returns it. */
  datatype ClusterEvent = ClusterEvent(
    name: string, namespace: string, reason: string, message: string, eventType: Option<string>,
    objectKind: string, objectName: string,
    firstTimestamp: Option<int>, lastTimestamp: Option<int>, count: Option<int>)

  /** The dict `get_cluster_events` makes of a kept event. */
  datatype EventRecord = EventRecord(
    name: string, namespace: string, reason: string, message: string, eventType: Option<string>,
    objectKind: string, objectName: string,
    firstTimestamp: int, lastTimestamp: Option<int>, count: Option<int>)

  datatype EventsResult =
    | Events(events: seq<EventRecord>, namespace: string, timeRange: string)
    | EventsError(message: string)

  /** `list_namespaced_event`: what the call does for a namespace. */
  type EventsBackend = string -> Outcome<seq<ClusterEvent>>

  const K8S_UNAVAILABLE := "Kubernetes client not available"

  /** The filter: a first timestamp that is set and not before `start`. */
  predicate InWindow(e: ClusterEvent, start: int) {
    e.firstTimestamp.Some? && e.firstTimestamp.value >= start
  }

  function ToRecord(e: ClusterEvent): EventRecord
    requires e.firstTimestamp.Some?
  {
    EventRecord(e.name, e.namespace, e.reason, e.message, e.eventType, e.objectKind, e.objectName,
                e.firstTimestamp.value, e.lastTimestamp, e.count)
  }

  /** The events the loop keeps, in their original order. */
  function KeptEvents(events: seq<ClusterEvent>, start: int): seq<EventRecord>
    decreases |events|
  {
    if events == [] then []
    else
      var e := events[|events| - 1];
      var kept := KeptEvents(events[..|events| - 1], start);
      if InWindow(e, start) then kept + [ToRecord(e)] else kept
  }

  /** `get_cluster_events` at instant `now`; `k8s` is `None` when no
      Kubernetes configuration could be loaded. Everything after the client
      check, the duration included, is inside the `try`. */
  function ClusterEvents(namespace: string, timeRange: string, now: int, k8s: Option<EventsBackend>)
    : Outcome<EventsResult>
  {
    if k8s.None? then Returns(EventsError(K8S_UNAVAILABLE))
    else
      match k8s.value(namespace)
      case Raises(e) => if IsInstance(e, "Exception") then Returns(EventsError(e.message)) else Raises(e)
      case Returns(events) =>
        match TimeRangeToTimestamps(timeRange, now)
        case Err(e) => Returns(EventsError(e.message))
        case Ok(range) => Returns(Events(KeptEvents(events, range.start), namespace, timeRange))
  }

  /** The loop over `events.items`, appending each event in the window. */
  method GetClusterEvents(namespace: string, timeRange: string, now: int, k8s: Option<EventsBackend>)
    returns (r: Outcome<EventsResult>)
    ensures r == ClusterEvents(namespace, timeRange, now, k8s)
  {
    if k8s.None? {
      return Returns(EventsError(K8S_UNAVAILABLE));
    }
    var listed := k8s.value(namespace);
    if listed.Raises? {
      if IsInstance(listed.exc, "Exception") {
        return Returns(EventsError(listed.exc.message));
      }
      return Raises(listed.exc);
    }
    var range := TimeRangeToTimestamps(timeRange, now);
    if range.Err? {
      return Returns(EventsError(range.error.message));
    }
    var start := range.value.start;
    var events := listed.value;
    var filtered: seq<EventRecord> := [];
    var i := 0;
    while i < |events|
      invariant 0 <= i <= |events|
      invariant filtered == KeptEvents(events[..i], start)
    {
      assert events[..i + 1][..i] == events[..i];
      if events[i].firstTimestamp.Some? && events[i].firstTimestamp.value >= start {
        filtered := filtered + [ToRecord(events[i])];
      }
      i := i + 1;
    }
    assert events[..i] == events;
    r := Returns(Events(filtered, namespace, timeRange));
  }

  /** A record is kept exactly when it comes from an event with a first
      timestamp at or after `start`; events without one are dropped. */
  lemma {:induction false} KeptEventsMeaning(events: seq<ClusterEvent>, start: int)
    ensures forall rec :: rec in KeptEvents(events, start) <==>
              exists i :: 0 <= i < |events| && InWindow(events[i], start) && ToRecord(events[i]) == rec
    ensures forall rec :: rec in KeptEvents(events, start) ==> rec.firstTimestamp >= start
    ensures |KeptEvents(events, start)| <= |events|
    decreases |events|
  {
    if events != [] {
      var init := events[..|events| - 1];
      KeptEventsMeaning(init, start);
      assert forall i :: 0 <= i < |init| ==> init[i] == events[i];
    }
  }

  /** The filter keeps the order of the listing: the events kept from two
      consecutive stretches are those of the first, then those of the
      second. */
  lemma {:induction false} KeptEventsAppend(events: seq<ClusterEvent>, more: seq<ClusterEvent>, start: int)
    ensures KeptEvents(events + more, start) == KeptEvents(events, start) + KeptEvents(more, start)
    decreases |more|
  {
    if more == [] {
      assert events + more == events;
    } else {
      var init := more[..|more| - 1];
      assert (events + more)[..|events + more| - 1] == events + init;
      KeptEventsAppend(events, init, start);
    }
  }

  // ---------------------------------------------------------------------
  // get_cloudwatch_events

  /** An event as CloudWatch Logs returns it; the instant is in
      milliseconds. */
  datatype LogEvent = LogEvent(timestampMs: int, message: string, logStreamName: Option<string>)

  /** The dict `get_cloudwatch_events` makes of an event. */
  datatype CloudWatchEvent = CloudWatchEvent(timestampMs: int, message: string, logStream: string, cluster: string)

  datatype CloudWatchResult =
    | CloudWatchEvents(events: seq<CloudWatchEvent>, cluster: string, timeRange: string, totalEvents: nat)
    | CloudWatchError(message: string)

  /** `filter_log_events` on a log group over an interval. */
  type LogGroupBackend = (string, Range) -> Outcome<seq<LogEvent>>

  const CLOUDWATCH_UNAVAILABLE := "CloudWatch client not available"

  function LogGroup(cluster: string): string {
    "/aws/eks/" + cluster + "/cluster"
  }

  function ToCloudWatchEvent(e: LogEvent, cluster: string): CloudWatchEvent {
    CloudWatchEvent(e.timestampMs, e.message, if e.logStreamName.Some? then e.logStreamName.value else "", cluster)
  }

  /** `get_cloudwatch_events` at instant `now`; `cw` is `None` when the AWS
      clients could not be set up. The duration is parsed before the
      `try`. */
  function GetCloudWatchEvents(cluster: string, timeRange: string, now: int, cw: Option<LogGroupBackend>)
    : Outcome<CloudWatchResult>
  {
    if cw.None? then Returns(CloudWatchError(CLOUDWATCH_UNAVAILABLE))
    else
      match TimeRangeToTimestamps(timeRange, now)
      case Err(e) => Raises(e)
      case Ok(range) =>
        match cw.value(LogGroup(cluster), range)
        case Raises(e) => if IsInstance(e, "Exception") then Returns(CloudWatchError(e.message)) else Raises(e)
        case Returns(raw) =>
          var events := seq(|raw|, i requires 0 <= i < |raw| => ToCloudWatchEvent(raw[i], cluster));
          Returns(CloudWatchEvents(events, cluster, timeRange, |events|))
  }

  /** The cluster's log group is read over the parsed interval, and every
      returned event is kept, in order, tagged with the cluster; the total
      is the number of events. */
  lemma CloudWatchEventsMeaning(cluster: string, timeRange: string, now: int, cw: Option<LogGroupBackend>)
    ensures var r := GetCloudWatchEvents(cluster, timeRange, now, cw);
      var range := TimeRangeToTimestamps(timeRange, now);
      && (cw.None? ==> r == Returns(CloudWatchError(CLOUDWATCH_UNAVAILABLE)))
      && (cw.Some? && range.Err? ==> r == Raises(range.error))
      && (cw.Some? && range.Ok? && cw.value(LogGroup(cluster), range.value).Returns? ==>
            var raw := cw.value(LogGroup(cluster), range.value).value;
            && r.Returns? && r.value.CloudWatchEvents?
            && r.value.totalEvents == |r.value.events| == |raw|
            && forall i :: 0 <= i < |raw| ==>
                 r.value.events[i].timestampMs == raw[i].timestampMs
                 && r.value.events[i].message == raw[i].message
                 && r.value.events[i].cluster == cluster)
  {
  }
}
