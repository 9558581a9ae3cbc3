/** The counters `server/tools.py` derives from gathered data:
    `_generate_summary`, `_count_logs`, `_count_errors` and
    `_generate_enhanced_summary`. */
module Summaries {
  import opened Common
  import opened PyStr
  import opened TimeUtils
  import opened Sources

  datatype Summary = Summary(
    logEntries: nat, errorLogs: nat, warningEvents: nat, errorEvents: nat,
    highCpuUsage: bool, highMemoryUsage: bool)

  /** `stream.get("values", [])` */
  function Values(s: Stream): seq<seq<string>> {
    if s.values.Some? then s.values.value else []
  }

  /** The error heuristic: a second field whose lower-cased text mentions
      `error` or `exception`. */
  predicate IsErrorEntry(entry: seq<string>) {
    |entry| > 1 && (Contains(Lower(entry[1]), "error") || Contains(Lower(entry[1]), "exception"))
  }

  /** How many of the entries are error entries. */
  function ErrorEntries(entries: seq<seq<string>>): nat
    decreases |entries|
  {
    if entries == [] then 0
    else ErrorEntries(entries[..|entries| - 1]) + if IsErrorEntry(entries[|entries| - 1]) then 1 else 0
  }

  /** The number of entries over all streams. */
  function EntryCount(streams: seq<Stream>): nat
    decreases |streams|
  {
    if streams == [] then 0
    else EntryCount(streams[..|streams| - 1]) + |Values(streams[|streams| - 1])|
  }

  /** The number of error entries over all streams. */
  function ErrorEntryCount(streams: seq<Stream>): nat
    decreases |streams|
  {
    if streams == [] then 0
    else ErrorEntryCount(streams[..|streams| - 1]) + ErrorEntries(Values(streams[|streams| - 1]))
  }

  /** The events whose type is exactly `t`. */
  function TypeCount(events: seq<EventRecord>, t: string): nat
    decreases |events|
  {
    if events == [] then 0
    else TypeCount(events[..|events| - 1], t) + if events[|events| - 1].eventType == Some(t) then 1 else 0
  }

  /** The streams of a logs result: none for an error dict. */
  function StreamsOf(logs: LogsResult): seq<Stream> {
    if logs.Logs? then logs.logs else []
  }

  /** The events of an events result: none for an error dict. */
  function EventsOf(events: EventsResult): seq<EventRecord> {
    if events.Events? then events.events else []
  }

  /** What `_generate_summary` computes. The metrics are not read, so the
      two usage flags stay False. */
  function Summarize(logs: LogsResult, events: EventsResult): Summary {
    var streams := StreamsOf(logs);
    var evs := EventsOf(events);
    Summary(EntryCount(streams), ErrorEntryCount(streams),
            TypeCount(evs, "Warning"), TypeCount(evs, "Error"), false, false)
  }

  /** `_generate_summary`: the counters incremented stream by stream, entry
      by entry and event by event. */
  method GenerateSummary(logs: LogsResult, metrics: MetricsResult, events: EventsResult) returns (s: Summary)
    ensures s == Summarize(logs, events)
  {
    var logEntries := 0;
    var errorLogs := 0;
    var streams := StreamsOf(logs);
    var i := 0;
    while i < |streams|
      invariant 0 <= i <= |streams|
      invariant logEntries == EntryCount(streams[..i])
      invariant errorLogs == ErrorEntryCount(streams[..i])
    {
      assert streams[..i + 1][..i] == streams[..i];
      var values := Values(streams[i]);
      logEntries := logEntries + |values|;
      var j := 0;
      while j < |values|
        invariant 0 <= j <= |values|
        invariant errorLogs == ErrorEntryCount(streams[..i]) + ErrorEntries(values[..j])
      {
        assert values[..j + 1][..j] == values[..j];
        if |values[j]| > 1 && (Contains(Lower(values[j][1]), "error") || Contains(Lower(values[j][1]), "exception")) {
          errorLogs := errorLogs + 1;
        }
        j := j + 1;
      }
      assert values[..j] == values;
      i := i + 1;
    }
    assert streams[..i] == streams;
    var warnings := 0;
    var errors := 0;
    var evs := EventsOf(events);
    var k := 0;
    while k < |evs|
      invariant 0 <= k <= |evs|
      invariant warnings == TypeCount(evs[..k], "Warning")
      invariant errors == TypeCount(evs[..k], "Error")
    {
      assert evs[..k + 1][..k] == evs[..k];
      if evs[k].eventType == Some("Warning") {
        warnings := warnings + 1;
      } else if evs[k].eventType == Some("Error") {
        errors := errors + 1;
      }
      k := k + 1;
    }
    assert evs[..k] == evs;
    s := Summary(logEntries, errorLogs, warnings, errors, false, false);
  }

  /** `_count_logs`: no entries for an error dict. */
  function CountLogs(logs: LogsResult): nat {
    if logs.LogsError? then 0 else EntryCount(logs.logs)
  }

  /** What `_count_errors` counts. */
  function ErrorCount(logs: LogsResult): nat {
    if logs.LogsError? then 0 else ErrorEntryCount(logs.logs)
  }

  /** `_count_errors`: a counter over every entry of every stream. */
  method CountErrors(logs: LogsResult) returns (n: nat)
    ensures n == ErrorCount(logs)
  {
    if logs.LogsError? {
      return 0;
    }
    n := 0;
    var streams := logs.logs;
    var i := 0;
    while i < |streams|
      invariant 0 <= i <= |streams|
      invariant n == ErrorEntryCount(streams[..i])
    {
      assert streams[..i + 1][..i] == streams[..i];
      var values := Values(streams[i]);
      var j := 0;
      while j < |values|
        invariant 0 <= j <= |values|
        invariant n == ErrorEntryCount(streams[..i]) + ErrorEntries(values[..j])
      {
        assert values[..j + 1][..j] == values[..j];
        if IsErrorEntry(values[j]) {
          n := n + 1;
        }
        j := j + 1;
      }
      assert values[..j] == values;
      i := i + 1;
    }
    assert streams[..i] == streams;
  }

  // ---------------------------------------------------------------------
  // Properties of the counters

  lemma {:induction false} ErrorEntriesBounded(entries: seq<seq<string>>)
    ensures ErrorEntries(entries) <= |entries|
    decreases |entries|
  {
    if entries != [] {
      ErrorEntriesBounded(entries[..|entries| - 1]);
    }
  }

  /** Error entries are among the entries. */
  lemma {:induction false} ErrorEntryCountBounded(streams: seq<Stream>)
    ensures ErrorEntryCount(streams) <= EntryCount(streams)
    decreases |streams|
  {
    if streams != [] {
      ErrorEntryCountBounded(streams[..|streams| - 1]);
      ErrorEntriesBounded(Values(streams[|streams| - 1]));
    }
  }

  /** An event is counted as a warning or as an error, never both. */
  lemma {:induction false} TypeCountsBounded(events: seq<EventRecord>)
    ensures TypeCount(events, "Warning") + TypeCount(events, "Error") <= |events|
    decreases |events|
  {
    if events != [] {
      TypeCountsBounded(events[..|events| - 1]);
    }
  }

  /** The bounds the summary keeps: error logs among the log entries,
      warning and error events among the events, and no usage flag ever
      set. An error dict counts nothing. */
  lemma SummaryBounds(logs: LogsResult, events: EventsResult)
    ensures var s := Summarize(logs, events);
      && s.errorLogs <= s.logEntries
      && s.warningEvents + s.errorEvents <= |EventsOf(events)|
      && !s.highCpuUsage && !s.highMemoryUsage
      && (logs.LogsError? ==> s.logEntries == 0 && s.errorLogs == 0)
      && (events.EventsError? ==> s.warningEvents == 0 && s.errorEvents == 0)
  {
    ErrorEntryCountBounded(StreamsOf(logs));
    TypeCountsBounded(EventsOf(events));
  }

  /** `_count_logs` and `_count_errors` agree with the summary's counters,
      so errors never exceed logs. */
  lemma CountsAgreeWithSummary(logs: LogsResult, events: EventsResult)
    ensures CountLogs(logs) == Summarize(logs, events).logEntries
    ensures ErrorCount(logs) == Summarize(logs, events).errorLogs
    ensures ErrorCount(logs) <= CountLogs(logs)
  {
    ErrorEntryCountBounded(StreamsOf(logs));
  }

  /** Every entry of the streams is counted once: the entry count adds
      stream lengths, and a stream without `values` adds nothing. */
  lemma {:induction false} EntryCountAppend(streams: seq<Stream>, more: seq<Stream>)
    ensures EntryCount(streams + more) == EntryCount(streams) + EntryCount(more)
    decreases |more|
  {
    if more == [] {
      assert streams + more == streams;
    } else {
      assert (streams + more)[..|streams + more| - 1] == streams + more[..|more| - 1];
      EntryCountAppend(streams, more[..|more| - 1]);
    }
  }

  lemma {:induction false} ErrorEntriesAppend(entries: seq<seq<string>>, more: seq<seq<string>>)
    ensures ErrorEntries(entries + more) == ErrorEntries(entries) + ErrorEntries(more)
    decreases |more|
  {
    if more == [] {
      assert entries + more == entries;
    } else {
      assert (entries + more)[..|entries + more| - 1] == entries + more[..|more| - 1];
      ErrorEntriesAppend(entries, more[..|more| - 1]);
    }
  }

  /** Entries none of which is an error entry count no errors. */
  lemma {:induction false} QuietEntries(entries: seq<seq<string>>)
    requires forall i :: 0 <= i < |entries| ==> !IsErrorEntry(entries[i])
    ensures ErrorEntries(entries) == 0
    decreases |entries|
  {
    if entries != [] {
      QuietEntries(entries[..|entries| - 1]);
    }
  }

  /** Two streams count the entries and error entries of both. */
  lemma TwoStreams(s1: Stream, s2: Stream)
    ensures EntryCount([s1, s2]) == |Values(s1)| + |Values(s2)|
    ensures ErrorEntryCount([s1, s2]) == ErrorEntries(Values(s1)) + ErrorEntries(Values(s2))
  {
    assert [s1, s2][..1] == [s1];
    assert [s1][..0] == [];
    assert ErrorEntryCount([s1]) == ErrorEntries(Values(s1));
    assert EntryCount([s1]) == |Values(s1)|;
  }

  /** One error entry followed by quiet ones is one error. */
  lemma LeadingError(e: seq<string>, rest: seq<seq<string>>)
    requires IsErrorEntry(e)
    requires forall i :: 0 <= i < |rest| ==> !IsErrorEntry(rest[i])
    ensures ErrorEntries([e] + rest) == 1
  {
    QuietEntries(rest);
    ErrorEntriesAppend([e], rest);
    assert [e][..0] == [];
  }

  lemma ScenarioLines()
    ensures !IsErrorEntry(["0", "ok"])
    ensures IsErrorEntry(["0", "ERROR: probe"])
    ensures IsErrorEntry(["0", "Exception raised"])
  {
    assert Lower("ok") == "ok";
    NotContained("ok", "error");
    NotContained("ok", "exception");
    assert Lower("ERROR: probe")[..5] == "error";
    assert StartsWith(Lower("ERROR: probe"), "error");
    assert Lower("Exception raised")[..9] == "exception";
    assert StartsWith(Lower("Exception raised"), "exception");
  }

  /** A pod with two streams of five and three lines, one of each
      mentioning an error in any case, has eight log entries and two error
      logs. */
  lemma FiveAndThreeLines(query: string, range: Range, events: EventsResult)
    ensures var quiet: seq<string> := ["0", "ok"];
      var s1 := Stream(map["pod" := "api-7f9"], Some([["0", "ERROR: probe"], quiet, quiet, quiet, quiet]));
      var s2 := Stream(map["pod" := "api-7f9"], Some([["0", "Exception raised"], quiet, quiet]));
      var summary := Summarize(Logs([s1, s2], query, range), events);
      summary.logEntries == 8 && summary.errorLogs == 2
  {
    var quiet: seq<string> := ["0", "ok"];
    var e1: seq<string> := ["0", "ERROR: probe"];
    var e2: seq<string> := ["0", "Exception raised"];
    var v1 := [e1, quiet, quiet, quiet, quiet];
    var v2 := [e2, quiet, quiet];
    ScenarioLines();
    assert v1 == [e1] + [quiet, quiet, quiet, quiet];
    LeadingError(e1, [quiet, quiet, quiet, quiet]);
    assert v2 == [e2] + [quiet, quiet];
    LeadingError(e2, [quiet, quiet]);
    TwoStreams(Stream(map["pod" := "api-7f9"], Some(v1)), Stream(map["pod" := "api-7f9"], Some(v2)));
  }

  // ---------------------------------------------------------------------
  // _generate_enhanced_summary

  const ERROR_PATTERNS: seq<string> := ["error", "failed", "exception", "timeout"]

  /** A CloudWatch message that mentions one of the error patterns, case
      folded. */
  predicate MentionsError(message: string) {
    exists i :: 0 <= i < |ERROR_PATTERNS| && Contains(Lower(message), ERROR_PATTERNS[i])
  }

  function CloudWatchErrorCount(events: seq<CloudWatchEvent>): nat
    decreases |events|
  {
    if events == [] then 0
    else CloudWatchErrorCount(events[..|events| - 1]) + if MentionsError(events[|events| - 1].message) then 1 else 0
  }

  /** Control-plane issues are those of the last 30 minutes. */
  const RECENT_ISSUE_WINDOW: int := 30 * MINUTE

  /** An event strictly after `now - 30 min`, compared as instants. */
  predicate RecentIssue(e: CloudWatchEvent, now: int) {
    e.timestampMs > (now - RECENT_ISSUE_WINDOW) * 1000
  }

  function RecentIssueCount(events: seq<CloudWatchEvent>, now: int): nat
    decreases |events|
  {
    if events == [] then 0
    else RecentIssueCount(events[..|events| - 1], now) + if RecentIssue(events[|events| - 1], now) then 1 else 0
  }

  datatype CloudWatchInsights = CloudWatchInsights(events: nat, errors: nat, recentIssues: nat)

  /** The summary plus, when CloudWatch returned events, the three
      CloudWatch counters. */
  datatype EnhancedSummary = EnhancedSummary(base: Summary, cloudwatch: Option<CloudWatchInsights>)

  const NAIVE_AWARE_MESSAGE := "can't compare offset-naive and offset-aware datetimes"

  /** `_generate_enhanced_summary` as written: the threshold comes from
      `datetime.utcnow()` and is naive, while every event time is parsed
      from `...+00:00` and is aware, so comparing the first event raises
      TypeError. */
  function EnhancedSummaryAsWritten(logs: LogsResult, events: EventsResult, cw: Option<CloudWatchResult>, now: int)
    : Outcome<EnhancedSummary>
  {
    var base := Summarize(logs, events);
    if cw.Some? && cw.value.CloudWatchEvents? then
      var evs := cw.value.events;
      if evs != [] then Raises(TypeError(NAIVE_AWARE_MESSAGE))
      else Returns(EnhancedSummary(base, Some(CloudWatchInsights(0, 0, 0))))
    else Returns(EnhancedSummary(base, None))
  }

  /** `_generate_enhanced_summary` with the recency test done on instants,
      as intended: the events, those mentioning an error pattern, and those
      of the last 30 minutes. */
  function EnhancedSummaryOf(logs: LogsResult, events: EventsResult, cw: Option<CloudWatchResult>, now: int)
    : EnhancedSummary
  {
    var base := Summarize(logs, events);
    if cw.Some? && cw.value.CloudWatchEvents? then
      var evs := cw.value.events;
      EnhancedSummary(base, Some(CloudWatchInsights(|evs|, CloudWatchErrorCount(evs), RecentIssueCount(evs, now))))
    else EnhancedSummary(base, None)
  }

  /** The discrepancy: as written, any CloudWatch result that holds an event
      makes the summary raise TypeError; only without events does it agree
      with the intended summary. */
  lemma NaiveAwareComparison(logs: LogsResult, events: EventsResult, cw: Option<CloudWatchResult>, now: int)
    ensures var r := EnhancedSummaryAsWritten(logs, events, cw, now);
      && (r.Raises? <==> cw.Some? && cw.value.CloudWatchEvents? && cw.value.events != [])
      && (r.Raises? ==> r.exc.cls == "TypeError")
      && (r.Returns? ==> r.value == EnhancedSummaryOf(logs, events, cw, now))
  {
  }

  /** A single CloudWatch event, however recent, is enough to raise. */
  lemma OneEventRaises(now: int)
    ensures var e := CloudWatchEvent(now * 1000, "pod up", "", "prod");
      var cw := Some(CloudWatchEvents([e], "prod", "1h", 1));
      && EnhancedSummaryAsWritten(LogsError("down"), EventsError("down"), cw, now) == Raises(TypeError(NAIVE_AWARE_MESSAGE))
      && EnhancedSummaryOf(LogsError("down"), EventsError("down"), cw, now).cloudwatch == Some(CloudWatchInsights(1, 0, 1))
  {
    var e := CloudWatchEvent(now * 1000, "pod up", "", "prod");
    assert !MentionsError(e.message) by {
      assert Lower("pod up") == "pod up";
      NoPatternIn("pod up");
    }
    assert [e][..0] == [];
    assert CloudWatchErrorCount([e]) == 0;
    assert RecentIssue(e, now);
    assert RecentIssueCount([e], now) == 1;
  }

  /** "pod up" contains none of the error patterns. */
  lemma NoPatternIn(s: string)
    requires s == "pod up"
    ensures forall i :: 0 <= i < |ERROR_PATTERNS| ==> !Contains(s, ERROR_PATTERNS[i])
  {
    forall i | 0 <= i < |ERROR_PATTERNS| ensures !Contains(s, ERROR_PATTERNS[i]) {
      NotContained(s, ERROR_PATTERNS[i]);
    }
  }

  /** A needle whose first character does not occur in the text is not in
      it. */
  lemma {:induction false} NotContained(hay: string, needle: string)
    requires needle != [] && needle[0] !in hay
    ensures !Contains(hay, needle)
    decreases |hay|
  {
    if hay != [] {
      assert needle[0] !in hay[1..] by {
        assert forall k :: 0 <= k < |hay[1..]| ==> hay[1..][k] == hay[k + 1];
      }
      NotContained(hay[1..], needle);
    }
  }

  lemma {:induction false} CloudWatchCountsBounded(events: seq<CloudWatchEvent>, now: int)
    ensures CloudWatchErrorCount(events) <= |events|
    ensures RecentIssueCount(events, now) <= |events|
    ensures (forall i :: 0 <= i < |events| ==> !RecentIssue(events[i], now)) ==> RecentIssueCount(events, now) == 0
    ensures (forall i :: 0 <= i < |events| ==> RecentIssue(events[i], now)) ==> RecentIssueCount(events, now) == |events|
    decreases |events|
  {
    if events != [] {
      CloudWatchCountsBounded(events[..|events| - 1], now);
    }
  }

  /** The intended enhanced summary: the plain summary, plus CloudWatch
      counters exactly when CloudWatch returned events, with errors and
      recent issues among the events. */
  lemma EnhancedSummaryMeaning(logs: LogsResult, events: EventsResult, cw: Option<CloudWatchResult>, now: int)
    ensures var s := EnhancedSummaryOf(logs, events, cw, now);
      && s.base == Summarize(logs, events)
      && (s.cloudwatch.Some? <==> cw.Some? && cw.value.CloudWatchEvents?)
      && (s.cloudwatch.Some? ==>
            && s.cloudwatch.value.events == |cw.value.events|
            && s.cloudwatch.value.errors <= s.cloudwatch.value.events
            && s.cloudwatch.value.recentIssues <= s.cloudwatch.value.events)
  {
    if cw.Some? && cw.value.CloudWatchEvents? {
      CloudWatchCountsBounded(cw.value.events, now);
    }
  }
}
