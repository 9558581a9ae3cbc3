/** `analyze_time_correlation` of `server/tools.py` and its helpers
    `_detect_anomalies` and `_analyze_trends`: the range is cut into
    windows, each window's logs and metrics are fetched and counted, and
    the per-window counts are summarised into trends. */
module TimeCorrelation {
  import opened Common
  import opened PyStr
  import opened TimeUtils
  import opened Queries
  import opened Sources
  import opened Summaries
  import opened TimeWindows

  // ---------------------------------------------------------------------
  // _detect_anomalies

  /** The anomaly strings: the error rate keeps its two counts, of which
      the text shows the quotient. */
  datatype Anomaly = HighErrorRate(errors: nat, logs: nat) | NoLogs | HighVolume

  const HIGH_VOLUME: nat := 1000

  /** `error_count / max(log_count, 1) > 0.1`, on exact quotients. */
  predicate HighRate(errors: nat, logs: nat) {
    10 * errors > (if logs > 1 then logs else 1)
  }

  /** What `_detect_anomalies` reports for a logs result. */
  function Anomalies(logs: LogsResult): seq<Anomaly> {
    var n := CountLogs(logs);
    var e := ErrorCount(logs);
    (if e > 0 && HighRate(e, n) then [HighErrorRate(e, n)] else [])
    + (if n == 0 then [NoLogs] else if n > HIGH_VOLUME then [HighVolume] else [])
  }

  /** `_detect_anomalies`: the error check, then the volume check. The
      metrics result is passed but not read. */
  method DetectAnomalies(logs: LogsResult, metrics: MetricsResult) returns (anomalies: seq<Anomaly>)
    ensures anomalies == Anomalies(logs)
  {
    anomalies := [];
    var logCount := CountLogs(logs);
    var errorCount := CountErrors(logs);
    if errorCount > 0 {
      if HighRate(errorCount, logCount) {
        anomalies := anomalies + [HighErrorRate(errorCount, logCount)];
      }
    }
    if logCount == 0 {
      anomalies := anomalies + [NoLogs];
    } else if logCount > HIGH_VOLUME {
      anomalies := anomalies + [HighVolume];
    }
  }

  /** The error rate is flagged exactly when more than one entry in ten is
      an error entry; no logs is flagged exactly when there are none, and
      then never together with a high error rate; more than 1000 entries
      are flagged as unusual volume. */
  lemma AnomaliesMeaning(logs: LogsResult)
    ensures var a := Anomalies(logs);
      var n := CountLogs(logs);
      var e := ErrorCount(logs);
      && (HighErrorRate(e, n) in a <==> 10 * e > n)
      && (forall x :: x in a && x.HighErrorRate? ==> x == HighErrorRate(e, n) && 0 < x.errors <= x.logs)
      && (NoLogs in a <==> n == 0)
      && (HighVolume in a <==> n > HIGH_VOLUME)
      && !(NoLogs in a && HighErrorRate(e, n) in a)
      && |a| <= 2
  {
    ErrorEntryCountBounded(StreamsOf(logs));
  }

  // ---------------------------------------------------------------------
  // One window

  /** One element of `window_analyses`: the counts of a window, or the
      error entry of a window whose fetch raised an `Exception`. */
  datatype WindowAnalysis =
    | WindowOk(window: Range, logCount: nat, errorCount: nat, metricsAvailable: bool, anomalies: seq<Anomaly>)
    | WindowFailed(window: Range, message: string)

  /** The `except Exception` around one window: an `Exception` becomes the
      window's error entry, anything else escapes. */
  function Caught(window: Range, e: Exc): Outcome<WindowAnalysis> {
    if IsInstance(e, "Exception") then Returns(WindowFailed(window, e.message)) else Raises(e)
  }

  /** The `try` block of one window, given what the two gathered fetches
      did; the logs fetch is awaited first. */
  function WindowOf(window: Range, logs: Outcome<LogsResult>, metrics: Outcome<MetricsResult>)
    : Outcome<WindowAnalysis>
  {
    if logs.Raises? then Caught(window, logs.exc)
    else if metrics.Raises? then Caught(window, metrics.exc)
    else Returns(WindowOk(window, CountLogs(logs.value), ErrorCount(logs.value),
                          !metrics.value.MetricsError?, Anomalies(logs.value)))
  }

  /** The pod's stream selector; with no label selector it always builds. */
  function PodQuery(namespace: string, podName: string): string {
    LokiQuery(namespace, Some(podName), None).value
  }

  /** A window analysed over the interval `queried`. */
  function AnalyzeOver(namespace: string, podName: string, window: Range, queried: Range,
                       loki: QueryBackend, prom: QueryBackend): Outcome<WindowAnalysis>
  {
    WindowOf(window,
             LogsForRange(PodQuery(namespace, podName), queried, loki),
             MetricsForRange(PromFilter(namespace, Some(podName), None), queried, prom))
  }

  /** The window loop body as written: both fetches are asked for the
      duration `"<minutes>m"`, which `_time_range_to_timestamps` reads
      relative to `now`, so the window itself is only echoed back. The
      loop is only entered with a positive window size. */
  function AnalyzeWindowAsWritten(namespace: string, podName: string, minutes: int, window: Range, now: int,
                                  loki: QueryBackend, prom: QueryBackend): Outcome<WindowAnalysis>
    requires minutes > 0
  {
    var windowRange := DecimalString(minutes) + "m";
    WindowOf(window,
             GetPodLogs(namespace, Some(podName), None, windowRange, now, loki),
             GetPodMetrics(namespace, Some(podName), None, windowRange, now, prom))
  }

  /** As written, every window is analysed over the last `minutes` minutes
      before `now`, whichever window it is. */
  lemma AsWrittenQueriesLastMinutes(namespace: string, podName: string, minutes: int, window: Range, now: int,
                                    loki: QueryBackend, prom: QueryBackend)
    requires minutes > 0
    ensures AnalyzeWindowAsWritten(namespace, podName, minutes, window, now, loki, prom) ==
              AnalyzeOver(namespace, podName, window, Range(now - minutes * MINUTE, now), loki, prom)
  {
    MinutesBack(minutes, now);
  }

  /** The window loop body with each window's own interval queried. */
  function AnalyzeWindow(namespace: string, podName: string, window: Range,
                         loki: QueryBackend, prom: QueryBackend): Outcome<WindowAnalysis>
  {
    AnalyzeOver(namespace, podName, window, window, loki, prom)
  }

  /** A Loki backend holding one error line, stamped in `window` only. */
  function OneLineIn(window: Range): QueryBackend {
    (q: string, r: Range) =>
      if r == window then Returns(Some([ErrorLine()])) else Returns(Some([]))
  }

  /** A Prometheus backend with no data. */
  function NoMetrics(): QueryBackend {
    (q: string, r: Range) => Returns(None)
  }

  /** The one stream of `OneLineIn`. */
  function ErrorLine(): Stream {
    Stream(map[], Some([["1", "error"]]))
  }

  /** A result with only the one error line counts one log and one error. */
  lemma ErrorLineCounted(query: string, range: Range)
    ensures CountLogs(Logs([ErrorLine()], query, range)) == 1
    ensures ErrorCount(Logs([ErrorLine()], query, range)) == 1
  {
    var s := ErrorLine();
    assert [s][..0] == [];
    assert [["1", "error"]][..0] == [];
    assert Lower("error") == "error";
    assert StartsWith("error", "error");
    assert IsErrorEntry(["1", "error"]);
  }

  /** As written, the first of the 15-minute windows of the last two hours
      is analysed over the last 15 minutes, where `OneLineIn` has nothing:
      it reports no logs. */
  lemma FirstWindowMissed(now: int)
    ensures var w := Range(now - 2 * HOUR, now - 2 * HOUR + 15 * MINUTE);
      var asWritten := AnalyzeWindowAsWritten("default", "api", 15, w, now, OneLineIn(w), NoMetrics());
      && asWritten.Returns? && asWritten.value.WindowOk?
      && asWritten.value.logCount == 0 && NoLogs in asWritten.value.anomalies
  {
    var w := Range(now - 2 * HOUR, now - 2 * HOUR + 15 * MINUTE);
    AsWrittenQueriesLastMinutes("default", "api", 15, w, now, OneLineIn(w), NoMetrics());
    var last := Range(now - 15 * MINUTE, now);
    assert last != w;
    var logs := LogsForRange(PodQuery("default", "api"), last, OneLineIn(w));
    assert logs == Returns(Logs([], PodQuery("default", "api"), last));
    MetricSlotsEscape(MetricQueries(PromFilter("default", Some("api"), None)), last, NoMetrics());
    MetricsForRangeMeaning(PromFilter("default", Some("api"), None), last, NoMetrics());
  }

  /** Analysed over its own interval, the same window counts its one log
      line as one log and one error. */
  lemma FirstWindowCounted(now: int)
    ensures var w := Range(now - 2 * HOUR, now - 2 * HOUR + 15 * MINUTE);
      var corrected := AnalyzeWindow("default", "api", w, OneLineIn(w), NoMetrics());
      && corrected.Returns? && corrected.value.WindowOk?
      && corrected.value.logCount == 1 && corrected.value.errorCount == 1
  {
    var w := Range(now - 2 * HOUR, now - 2 * HOUR + 15 * MINUTE);
    var logs := LogsForRange(PodQuery("default", "api"), w, OneLineIn(w));
    assert logs == Returns(Logs([ErrorLine()], PodQuery("default", "api"), w));
    ErrorLineCounted(PodQuery("default", "api"), w);
    MetricSlotsEscape(MetricQueries(PromFilter("default", Some("api"), None)), w, NoMetrics());
    MetricsForRangeMeaning(PromFilter("default", Some("api"), None), w, NoMetrics());
  }

  /** The `except Exception` never yields an error entry: the fetches turn
      every `Exception` into an error dict themselves, and the window is
      always a parseable duration. A window therefore has counts, with the
      metrics always available and the errors among the logs, unless a
      non-`Exception` escapes. */
  lemma AnalyzeWindowMeaning(namespace: string, podName: string, window: Range,
                             loki: QueryBackend, prom: QueryBackend)
    ensures var r := AnalyzeWindow(namespace, podName, window, loki, prom);
      var logs := LogsForRange(PodQuery(namespace, podName), window, loki);
      && (r.Returns? ==>
            && r.value.WindowOk?
            && r.value.window == window
            && r.value.metricsAvailable
            && r.value.logCount == CountLogs(logs.value)
            && r.value.errorCount == ErrorCount(logs.value)
            && r.value.errorCount <= r.value.logCount
            && r.value.anomalies == Anomalies(logs.value))
      && (r.Raises? ==> !IsInstance(r.exc, "Exception"))
  {
    var logs := LogsForRange(PodQuery(namespace, podName), window, loki);
    MetricSlotsEscape(MetricQueries(PromFilter(namespace, Some(podName), None)), window, prom);
    if logs.Returns? {
      ErrorEntryCountBounded(StreamsOf(logs.value));
    }
  }

  /** The window loop body: the two fetches, then `_count_logs`,
      `_count_errors` and `_detect_anomalies`. */
  method AnalyzeWindowStep(namespace: string, podName: string, window: Range,
                           loki: QueryBackend, prom: QueryBackend) returns (r: Outcome<WindowAnalysis>)
    ensures r == AnalyzeWindow(namespace, podName, window, loki, prom)
  {
    var logs := LogsForRange(PodQuery(namespace, podName), window, loki);
    var metrics := MetricsForRange(PromFilter(namespace, Some(podName), None), window, prom);
    if logs.Raises? {
      return Caught(window, logs.exc);
    }
    if metrics.Raises? {
      return Caught(window, metrics.exc);
    }
    var logCount := CountLogs(logs.value);
    var errorCount := CountErrors(logs.value);
    var anomalies := DetectAnomalies(logs.value, metrics.value);
    r := Returns(WindowOk(window, logCount, errorCount, !metrics.value.MetricsError?, anomalies));
  }

  // ---------------------------------------------------------------------
  // _analyze_trends

  /** `log_counts`: the log counts of the windows without an error entry. */
  function LogCounts(ws: seq<WindowAnalysis>): seq<nat>
    decreases |ws|
  {
    if ws == [] then []
    else LogCounts(ws[..|ws| - 1]) + if ws[|ws| - 1].WindowOk? then [ws[|ws| - 1].logCount] else []
  }

  /** `error_counts`, over the same windows as `log_counts`. */
  function ErrorCounts(ws: seq<WindowAnalysis>): (r: seq<nat>)
    ensures |r| == |LogCounts(ws)|
    decreases |ws|
  {
    if ws == [] then []
    else ErrorCounts(ws[..|ws| - 1]) + if ws[|ws| - 1].WindowOk? then [ws[|ws| - 1].errorCount] else []
  }

  /** `max(s)` */
  function MaxOf(s: seq<nat>): nat
    requires |s| > 0
    decreases |s|
  {
    if |s| == 1 then s[0]
    else var m := MaxOf(s[..|s| - 1]); if s[|s| - 1] > m then s[|s| - 1] else m
  }

  /** `min(s)` */
  function MinOf(s: seq<nat>): nat
    requires |s| > 0
    decreases |s|
  {
    if |s| == 1 then s[0]
    else var m := MinOf(s[..|s| - 1]); if s[|s| - 1] < m then s[|s| - 1] else m
  }

  /** `len([c for c in s if c > 0])` */
  function CountPositive(s: seq<nat>): nat
    decreases |s|
  {
    if s == [] then 0 else CountPositive(s[..|s| - 1]) + if s[|s| - 1] > 0 then 1 else 0
  }

  datatype Direction = Stable | Increasing | Decreasing

  /** The trend of the log volume: stable for fewer than three windows;
      otherwise the second half (from index n/2) against the first, above
      120% increasing and below 80% decreasing, compared exactly. */
  function DirectionOf(counts: seq<nat>): Direction {
    if |counts| < 3 then Stable
    else
      var h := |counts| / 2;
      HalvesDirection(Sum(counts[..h]), Sum(counts[h..]))
  }

  /** The second half against the first: above 120% increasing, below 80%
      decreasing. */
  function HalvesDirection(first: nat, second: nat): Direction {
    if 5 * second > 6 * first then Increasing
    else if 5 * second < 4 * first then Decreasing
    else Stable
  }

  /** The trends dict: empty without windows, an error without a counted
      window, otherwise the log volume (its total over `validWindows`
      windows is the average) and the error pattern. */
  datatype Trends =
    | NoWindows
    | NoValidWindows
    | Trends(logTotal: nat, validWindows: nat, peak: nat, minimum: nat, direction: Direction,
             totalErrors: nat, peakErrors: nat, errorWindows: nat)

  const NO_VALID_WINDOWS := "No valid windows to analyze"

  /** `_analyze_trends` */
  function AnalyzeTrends(ws: seq<WindowAnalysis>): Trends {
    if ws == [] then NoWindows
    else
      var logCounts := LogCounts(ws);
      var errorCounts := ErrorCounts(ws);
      if logCounts == [] then NoValidWindows
      else Trends(Sum(logCounts), |logCounts|, MaxOf(logCounts), MinOf(logCounts), DirectionOf(logCounts),
                  Sum(errorCounts), MaxOf(errorCounts), CountPositive(errorCounts))
  }

  lemma {:induction false} MaxOfIsMax(s: seq<nat>)
    requires |s| > 0
    ensures MaxOf(s) in s
    ensures forall i :: 0 <= i < |s| ==> s[i] <= MaxOf(s)
    decreases |s|
  {
    if |s| > 1 {
      MaxOfIsMax(s[..|s| - 1]);
      assert forall i :: 0 <= i < |s| - 1 ==> s[i] == s[..|s| - 1][i];
    }
  }

  lemma {:induction false} MinOfIsMin(s: seq<nat>)
    requires |s| > 0
    ensures MinOf(s) in s
    ensures forall i :: 0 <= i < |s| ==> MinOf(s) <= s[i]
    decreases |s|
  {
    if |s| > 1 {
      MinOfIsMin(s[..|s| - 1]);
      assert forall i :: 0 <= i < |s| - 1 ==> s[i] == s[..|s| - 1][i];
    }
  }

  lemma {:induction false} ElementAtMostSum(s: seq<nat>, i: int)
    requires 0 <= i < |s|
    ensures s[i] <= Sum(s)
    decreases |s|
  {
    if i < |s| - 1 {
      ElementAtMostSum(s[..|s| - 1], i);
    }
  }

  lemma {:induction false} CountPositiveBounded(s: seq<nat>)
    ensures CountPositive(s) <= |s|
    ensures CountPositive(s) <= Sum(s)
    decreases |s|
  {
    if s != [] {
      CountPositiveBounded(s[..|s| - 1]);
    }
  }

  /** The positions of the positive entries. */
  function PositiveIndices(s: seq<nat>): set<int> {
    set i | 0 <= i < |s| && s[i] > 0
  }

  /** `len([c for c in s if c > 0])` counts the positive entries. */
  lemma {:induction false} CountPositiveIndices(s: seq<nat>)
    ensures CountPositive(s) == |PositiveIndices(s)|
    decreases |s|
  {
    if s != [] {
      var init := s[..|s| - 1];
      CountPositiveIndices(init);
      var last := if s[|s| - 1] > 0 then {|s| - 1} else {};
      assert PositiveIndices(s) == PositiveIndices(init) + last;
      assert PositiveIndices(init) * last == {};
    }
  }

  /** The counted windows, in order, are exactly the windows without an
      error entry, and their error counts sit beside their log counts. */
  lemma {:induction false} CountsOfWindows(ws: seq<WindowAnalysis>)
    ensures |LogCounts(ws)| <= |ws|
    ensures (forall i :: 0 <= i < |ws| ==> ws[i].WindowOk?) ==>
              |LogCounts(ws)| == |ws|
              && forall i :: 0 <= i < |ws| ==>
                   LogCounts(ws)[i] == ws[i].logCount && ErrorCounts(ws)[i] == ws[i].errorCount
    ensures (forall i :: 0 <= i < |ws| ==> ws[i].WindowOk? ==> ws[i].errorCount <= ws[i].logCount) ==>
              forall i :: 0 <= i < |LogCounts(ws)| ==> ErrorCounts(ws)[i] <= LogCounts(ws)[i]
    ensures (forall i :: 0 <= i < |ws| ==> ws[i].WindowFailed?) ==> LogCounts(ws) == []
    decreases |ws|
  {
    if ws != [] {
      var init := ws[..|ws| - 1];
      CountsOfWindows(init);
      assert forall i :: 0 <= i < |init| ==> init[i] == ws[i];
    }
  }

  /** Whenever there are counted windows: the peak and the minimum are
      counts of some window and bound every count, the peak does not exceed
      the total, the two halves of the trend split the total, the windows
      with errors are among the counted windows, and when every window's
      errors are among its logs, the error totals are bounded by the log
      totals. */
  lemma TrendsMeaning(ws: seq<WindowAnalysis>)
    ensures var t := AnalyzeTrends(ws);
      var lc := LogCounts(ws);
      var ec := ErrorCounts(ws);
      && (t.NoWindows? <==> ws == [])
      && (t.NoValidWindows? <==> ws != [] && forall i :: 0 <= i < |ws| ==> ws[i].WindowFailed?)
      && (t.Trends? ==>
            && t.logTotal == Sum(lc) && t.validWindows == |lc| >= 1
            && t.peak in lc && t.minimum in lc
            && (forall i :: 0 <= i < |lc| ==> t.minimum <= lc[i] <= t.peak)
            && t.minimum <= t.peak <= t.logTotal
            && Sum(lc[..|lc| / 2]) + Sum(lc[|lc| / 2..]) == t.logTotal
            && t.totalErrors == Sum(ec) && |ec| == |lc|
            && t.peakErrors in ec
            && (forall i :: 0 <= i < |ec| ==> ec[i] <= t.peakErrors)
            && t.errorWindows == |PositiveIndices(ec)|
            && t.errorWindows <= t.validWindows
            && t.errorWindows <= t.totalErrors
            && t.peakErrors <= t.totalErrors
            && ((forall i :: 0 <= i < |ws| ==> ws[i].WindowOk? ==> ws[i].errorCount <= ws[i].logCount) ==>
                  t.totalErrors <= t.logTotal && t.peakErrors <= t.peak))
  {
    var lc := LogCounts(ws);
    var ec := ErrorCounts(ws);
    CountsOfWindows(ws);
    if ws != [] && !(forall i :: 0 <= i < |ws| ==> ws[i].WindowFailed?) {
      var k :| 0 <= k < |ws| && ws[k].WindowOk?;
      assert lc != [] by {
        LogCountsNonEmpty(ws, k);
      }
    }
    if ws != [] && lc != [] {
      LogStats(lc);
      ErrorStats(ec, lc);
      MaxOfIsMax(ec);
      CountPositiveIndices(ec);
    }
  }

  /** The log-volume half of the trends, for any non-empty counts. */
  lemma LogStats(lc: seq<nat>)
    requires lc != []
    ensures MaxOf(lc) in lc && MinOf(lc) in lc
    ensures forall i :: 0 <= i < |lc| ==> MinOf(lc) <= lc[i] <= MaxOf(lc)
    ensures MaxOf(lc) <= Sum(lc)
    ensures Sum(lc[..|lc| / 2]) + Sum(lc[|lc| / 2..]) == Sum(lc)
  {
    MaxOfIsMax(lc);
    MinOfIsMin(lc);
    var p :| 0 <= p < |lc| && lc[p] == MaxOf(lc);
    ElementAtMostSum(lc, p);
    SumSplit(lc, |lc| / 2);
  }

  /** The error-pattern half of the trends, beside log counts of the same
      length. */
  lemma ErrorStats(ec: seq<nat>, lc: seq<nat>)
    requires |ec| == |lc| > 0
    ensures MaxOf(ec) in ec && MaxOf(ec) <= Sum(ec)
    ensures CountPositive(ec) <= |ec| && CountPositive(ec) <= Sum(ec)
    ensures (forall i :: 0 <= i < |ec| ==> ec[i] <= lc[i]) ==> Sum(ec) <= Sum(lc) && MaxOf(ec) <= MaxOf(lc)
  {
    MaxOfIsMax(ec);
    MaxOfIsMax(lc);
    CountPositiveBounded(ec);
    var q :| 0 <= q < |ec| && ec[q] == MaxOf(ec);
    ElementAtMostSum(ec, q);
    if forall i :: 0 <= i < |ec| ==> ec[i] <= lc[i] {
      SumPointwise(ec, lc);
      assert ec[q] <= lc[q] <= MaxOf(lc);
    }
  }

  lemma {:induction false} LogCountsNonEmpty(ws: seq<WindowAnalysis>, k: int)
    requires 0 <= k < |ws| && ws[k].WindowOk?
    ensures LogCounts(ws) != []
    decreases |ws|
  {
    if k < |ws| - 1 {
      LogCountsNonEmpty(ws[..|ws| - 1], k);
    }
  }

  lemma {:induction false} SumPointwise(s: seq<nat>, t: seq<nat>)
    requires |s| == |t| && forall i :: 0 <= i < |s| ==> s[i] <= t[i]
    ensures Sum(s) <= Sum(t)
    decreases |s|
  {
    if s != [] {
      SumPointwise(s[..|s| - 1], t[..|t| - 1]);
    }
  }

  /** The trend direction on examples: a volume that triples in the second
      half is increasing, one that falls to a sixth is decreasing, an even
      volume is stable, and two windows are always stable. */
  lemma DirectionExamples(a: nat, b: nat)
    ensures DirectionOf([10, 12, 30, 35]) == Increasing
    ensures DirectionOf([50, 40, 10, 5]) == Decreasing
    ensures DirectionOf([20, 20, 20, 20]) == Stable
    ensures DirectionOf([a, b]) == Stable
  {
    var up: seq<nat> := [10, 12, 30, 35];
    assert up[..2] == [10, 12] && up[2..] == [30, 35];
    SumPair(10, 12);
    SumPair(30, 35);
    var down: seq<nat> := [50, 40, 10, 5];
    assert down[..2] == [50, 40] && down[2..] == [10, 5];
    SumPair(50, 40);
    SumPair(10, 5);
    var flat: seq<nat> := [20, 20, 20, 20];
    assert flat[..2] == [20, 20] && flat[2..] == [20, 20];
    SumPair(20, 20);
  }

  lemma SumPair(a: nat, b: nat)
    ensures Sum([a, b]) == a + b
  {
    var s: seq<nat> := [a, b];
    assert s[..1] == [a];
    assert [a][..0] == [];
    assert Sum([a]) == Sum([]) + a;
    assert Sum(s) == Sum([a]) + b;
  }

  /** Every count multiplied by `k`. */
  function Scaled(s: seq<nat>, k: nat): (r: seq<nat>)
    ensures |r| == |s|
  {
    seq(|s|, i requires 0 <= i < |s| => k * s[i])
  }

  lemma {:induction false} SumScaled(s: seq<nat>, k: nat)
    ensures Sum(Scaled(s, k)) == k * Sum(s)
    decreases |s|
  {
    if s != [] {
      var init := s[..|s| - 1];
      assert Scaled(s, k)[..|s| - 1] == Scaled(init, k);
      SumScaled(init, k);
      assert k * Sum(s) == k * Sum(init) + k * s[|s| - 1];
    }
  }

  /** The direction compares the two halves against each other only, so
      it does not change when every count is scaled by the same positive
      factor. */
  lemma DirectionScales(counts: seq<nat>, k: nat)
    requires k > 0
    ensures DirectionOf(Scaled(counts, k)) == DirectionOf(counts)
  {
    if |counts| >= 3 {
      var h := |counts| / 2;
      var sc := Scaled(counts, k);
      assert sc[..h] == Scaled(counts[..h], k);
      assert sc[h..] == Scaled(counts[h..], k);
      SumScaled(counts[..h], k);
      SumScaled(counts[h..], k);
      HalvesScale(Sum(counts[..h]), Sum(counts[h..]), k);
    }
  }

  lemma HalvesScale(first: nat, second: nat, k: nat)
    requires k > 0
    ensures HalvesDirection(k * first, k * second) == HalvesDirection(first, second)
  {
    assert 5 * (k * second) == (5 * second) * k;
    assert 6 * (k * first) == (6 * first) * k;
    assert 4 * (k * first) == (4 * first) * k;
    ScaleCompare(5 * second, 6 * first, k);
    ScaleCompare(5 * second, 4 * first, k);
  }

  /** Multiplying both sides by a positive factor keeps their order. */
  lemma ScaleCompare(x: int, y: int, k: int)
    requires k > 0
    ensures x * k > y * k <==> x > y
    ensures x * k < y * k <==> x < y
  {
    if x > y {
      assert x * k - y * k == (x - y) * k;
    } else if x < y {
      assert y * k - x * k == (y - x) * k;
    }
  }

  /** `n` windows of `c` logs each. */
  function Flat(n: nat, c: nat): (r: seq<nat>)
    ensures |r| == n
  {
    seq(n, i => c)
  }

  lemma {:induction false} SumFlat(n: nat, c: nat)
    ensures Sum(Flat(n, c)) == n * c
  {
    if n > 0 {
      assert Flat(n, c)[..n - 1] == Flat(n - 1, c);
      SumFlat(n - 1, c);
    }
  }

  /** Because the `n // 2` split gives the second half the extra window, a
      perfectly flat volume over 3, 5, 7 or 9 windows reads as increasing;
      over any even count, or from 11 windows on, it is stable. */
  lemma FlatDirection(n: nat, c: nat)
    requires n >= 3 && c > 0
    ensures DirectionOf(Flat(n, c)) == if n % 2 == 1 && n <= 9 then Increasing else Stable
  {
    var h := n / 2;
    var f := Flat(n, c);
    assert f[..h] == Flat(h, c);
    assert f[h..] == Flat(n - h, c);
    SumFlat(h, c);
    SumFlat(n - h, c);
    assert h * c == c * h && (n - h) * c == c * (n - h);
    HalvesScale(h, n - h, c);
  }

  // ---------------------------------------------------------------------
  // analyze_time_correlation

  /** Runs `f` on each element in order; the first call that raises ends
      the run with that exception. */
  function Sequentially<A, B>(xs: seq<A>, f: A -> Outcome<B>): Outcome<seq<B>>
    decreases |xs|
  {
    if xs == [] then Returns([])
    else
      match Sequentially(xs[..|xs| - 1], f)
      case Raises(e) => Raises(e)
      case Returns(done) =>
        match f(xs[|xs| - 1])
        case Raises(e) => Raises(e)
        case Returns(b) => Returns(done + [b])
  }

  /** The run succeeds exactly when every call does; it then has one result
      per element, in order. */
  lemma {:induction false} SequentiallyMeaning<A, B>(xs: seq<A>, f: A -> Outcome<B>)
    ensures var r := Sequentially(xs, f);
      && (r.Returns? <==> forall i :: 0 <= i < |xs| ==> f(xs[i]).Returns?)
      && (r.Returns? ==> |r.value| == |xs| && forall i :: 0 <= i < |xs| ==> r.value[i] == f(xs[i]).value)
    decreases |xs|
  {
    if xs != [] {
      var init := xs[..|xs| - 1];
      SequentiallyMeaning(init, f);
      assert forall i :: 0 <= i < |init| ==> init[i] == xs[i];
    }
  }

  /** Once a prefix raises, the whole run raises the same. */
  lemma {:induction false} SequentiallyStops<A, B>(xs: seq<A>, f: A -> Outcome<B>, k: int)
    requires 0 <= k <= |xs|
    requires Sequentially(xs[..k], f).Raises?
    ensures Sequentially(xs, f) == Sequentially(xs[..k], f)
    decreases |xs| - k
  {
    if k < |xs| {
      var init := xs[..|xs| - 1];
      assert init[..k] == xs[..k];
      SequentiallyStops(init, f, k);
    } else {
      assert xs[..k] == xs;
    }
  }

  /** The windows' analyses in order; the first window whose analysis
      raises ends the loop with that exception. */
  function AnalyzeWindows(namespace: string, podName: string, windows: seq<Range>,
                          loki: QueryBackend, prom: QueryBackend): Outcome<seq<WindowAnalysis>>
  {
    Sequentially(windows, (w: Range) => AnalyzeWindow(namespace, podName, w, loki, prom))
  }

  /** The loop succeeds exactly when every window's analysis does; it then
      has one analysis per window, in window order. */
  lemma AnalyzeWindowsMeaning(namespace: string, podName: string, windows: seq<Range>,
                              loki: QueryBackend, prom: QueryBackend)
    ensures var r := AnalyzeWindows(namespace, podName, windows, loki, prom);
      && (r.Returns? <==>
            forall i :: 0 <= i < |windows| ==> AnalyzeWindow(namespace, podName, windows[i], loki, prom).Returns?)
      && (r.Returns? ==>
            |r.value| == |windows|
            && forall i :: 0 <= i < |windows| ==>
                 r.value[i] == AnalyzeWindow(namespace, podName, windows[i], loki, prom).value)
  {
    SequentiallyMeaning(windows, (w: Range) => AnalyzeWindow(namespace, podName, w, loki, prom));
  }

  /** Once a prefix of the windows raises, the loop raises the same. */
  lemma AnalyzeWindowsStops(namespace: string, podName: string, windows: seq<Range>, k: int,
                            loki: QueryBackend, prom: QueryBackend)
    requires 0 <= k <= |windows|
    requires AnalyzeWindows(namespace, podName, windows[..k], loki, prom).Raises?
    ensures AnalyzeWindows(namespace, podName, windows, loki, prom) ==
              AnalyzeWindows(namespace, podName, windows[..k], loki, prom)
  {
    SequentiallyStops(windows, (w: Range) => AnalyzeWindow(namespace, podName, w, loki, prom), k);
  }

  /** The result: the request echoed back, the number of windows, their
      analyses and the trends. */
  datatype CorrelationReport = CorrelationReport(
    namespace: string, podName: string, totalTimeRange: string, windowSize: string,
    totalWindows: nat, windows: seq<WindowAnalysis>, trends: Trends)

  /** `analyze_time_correlation` at instant `now`, with the windows of the
      corrected slicing, each analysed over its own interval. */
  function TimeCorrelationOf(namespace: string, podName: string, timeRange: string, windowSize: string,
                             now: int, loki: QueryBackend, prom: QueryBackend): Outcome<CorrelationReport>
  {
    match TimeRangeToTimestamps(timeRange, now)
    case Err(e) => Raises(e)
    case Ok(range) =>
      match WindowMinutes(windowSize)
      case Err(e) => Raises(e)
      case Ok(minutes) => ReportOf(namespace, podName, timeRange, windowSize, range, minutes, loki, prom)
  }

  /** The rest of `analyze_time_correlation` once the duration and the
      window size are read: the windows, their analyses and the trends. */
  function ReportOf(namespace: string, podName: string, timeRange: string, windowSize: string,
                    range: Range, minutes: int, loki: QueryBackend, prom: QueryBackend): Outcome<CorrelationReport>
  {
    match Windows(range.start, range.end, minutes * MINUTE)
    case Err(e) => Raises(e)
    case Ok(windows) =>
      match AnalyzeWindows(namespace, podName, windows, loki, prom)
      case Raises(e) => Raises(e)
      case Returns(analyses) =>
        Returns(CorrelationReport(namespace, podName, timeRange, windowSize, |windows|, analyses,
                                  AnalyzeTrends(analyses)))
  }

  /** The analyses of the windows of `[start, end)`: window i covers
      `[start + i*step, min(start + (i+1)*step, end))` and has counts, its
      errors among its logs. */
  lemma ReportWindows(namespace: string, podName: string, start: int, end: int, step: int,
                      analyses: seq<WindowAnalysis>, loki: QueryBackend, prom: QueryBackend)
    requires step > 0
    requires AnalyzeWindows(namespace, podName, Slices(start, end, step), loki, prom) == Returns(analyses)
    ensures |analyses| == |Slices(start, end, step)|
    ensures forall i :: 0 <= i < |analyses| ==>
              && analyses[i].WindowOk?
              && analyses[i].window.start == start + i * step
              && analyses[i].window.end == Clip(start + (i + 1) * step, end)
              && analyses[i].errorCount <= analyses[i].logCount
  {
    var windows := Slices(start, end, step);
    AnalyzeWindowsMeaning(namespace, podName, windows, loki, prom);
    forall i | 0 <= i < |analyses|
      ensures && analyses[i].WindowOk?
              && analyses[i].window.start == start + i * step
              && analyses[i].window.end == Clip(start + (i + 1) * step, end)
              && analyses[i].errorCount <= analyses[i].logCount
    {
      AnalyzeWindowMeaning(namespace, podName, windows[i], loki, prom);
      SlicesElements(start, end, step, i);
    }
  }

  /** A bad duration or window size raises ValueError, and so does a
      non-positive window size over a non-empty range; otherwise the report
      has one analysis per window, as `ReportWindows` describes them, the
      number of windows is the range over the step rounded up, and the
      trends are those of the analyses. */
  lemma TimeCorrelationMeaning(namespace: string, podName: string, timeRange: string, windowSize: string,
                               now: int, loki: QueryBackend, prom: QueryBackend)
    ensures var r := TimeCorrelationOf(namespace, podName, timeRange, windowSize, now, loki, prom);
      var range := TimeRangeToTimestamps(timeRange, now);
      var minutes := WindowMinutes(windowSize);
      && (range.Err? ==> r == Raises(range.error))
      && (range.Ok? && minutes.Err? ==> r == Raises(minutes.error))
      && (range.Ok? && minutes.Ok? && minutes.value <= 0 && range.value.start < range.value.end ==>
            r.Raises? && r.exc.cls == "ValueError")
      && (r.Returns? ==>
            var step := minutes.value * MINUTE;
            var report := r.value;
            && range.Ok? && minutes.Ok?
            && report.totalWindows == |report.windows|
            && (range.value.start >= range.value.end ==> report.windows == [])
            && (range.value.start < range.value.end ==>
                  && step > 0
                  && report.windows == AnalyzeWindows(namespace, podName, Slices(range.value.start, range.value.end, step), loki, prom).value
                  && report.totalWindows >= 1
                  && (report.totalWindows - 1) * step < range.value.end - range.value.start
                  && range.value.end - range.value.start <= report.totalWindows * step)
            && report.trends == AnalyzeTrends(report.windows))
  {
    var range := TimeRangeToTimestamps(timeRange, now);
    var minutes := WindowMinutes(windowSize);
    if range.Ok? && minutes.Ok? {
      ReportMeaning(namespace, podName, timeRange, windowSize, range.value, minutes.value, loki, prom);
    }
  }

  /** Once the duration and the window size are read, the report is the
      windows' analyses and their trends. */
  lemma ReportMeaning(namespace: string, podName: string, timeRange: string, windowSize: string,
                      range: Range, minutes: int, loki: QueryBackend, prom: QueryBackend)
    ensures var r := ReportOf(namespace, podName, timeRange, windowSize, range, minutes, loki, prom);
      && (minutes <= 0 && range.start < range.end ==> r.Raises? && r.exc.cls == "ValueError")
      && (r.Returns? ==>
            var step := minutes * MINUTE;
            var report := r.value;
            && report.totalWindows == |report.windows|
            && (range.start >= range.end ==> report.windows == [])
            && (range.start < range.end ==>
                  && step > 0
                  && report.windows == AnalyzeWindows(namespace, podName, Slices(range.start, range.end, step), loki, prom).value
                  && report.totalWindows >= 1
                  && (report.totalWindows - 1) * step < range.end - range.start
                  && range.end - range.start <= report.totalWindows * step)
            && report.trends == AnalyzeTrends(report.windows))
  {
    if range.start < range.end && minutes > 0 {
      var step := minutes * MINUTE;
      var windows := Slices(range.start, range.end, step);
      AnalyzeWindowsMeaning(namespace, podName, windows, loki, prom);
      SlicesCount(range.start, range.end, step);
    }
  }

  /** The analysis loop: each window in turn, an exception from one ends
      the loop. */
  method AnalyzeEach(namespace: string, podName: string, windows: seq<Range>,
                     loki: QueryBackend, prom: QueryBackend) returns (r: Outcome<seq<WindowAnalysis>>)
    ensures r == AnalyzeWindows(namespace, podName, windows, loki, prom)
  {
    var analyses: seq<WindowAnalysis> := [];
    var i := 0;
    while i < |windows|
      invariant 0 <= i <= |windows|
      invariant AnalyzeWindows(namespace, podName, windows[..i], loki, prom) == Returns(analyses)
    {
      assert windows[..i + 1][..i] == windows[..i];
      var a := AnalyzeWindowStep(namespace, podName, windows[i], loki, prom);
      if a.Raises? {
        AnalyzeWindowsStops(namespace, podName, windows, i + 1, loki, prom);
        return Raises(a.exc);
      }
      analyses := analyses + [a.value];
      i := i + 1;
    }
    assert windows[..i] == windows;
    r := Returns(analyses);
  }

  /** `analyze_time_correlation`: the duration, the window size, the
      window loop and the analysis loop, then the trends. */
  method AnalyzeTimeCorrelation(namespace: string, podName: string, timeRange: string, windowSize: string,
                                now: int, loki: QueryBackend, prom: QueryBackend)
    returns (r: Outcome<CorrelationReport>)
    ensures r == TimeCorrelationOf(namespace, podName, timeRange, windowSize, now, loki, prom)
  {
    var range := TimeRangeToTimestamps(timeRange, now);
    if range.Err? {
      return Raises(range.error);
    }
    var minutes := WindowMinutes(windowSize);
    if minutes.Err? {
      return Raises(minutes.error);
    }
    var start, end, step := range.value.start, range.value.end, minutes.value * MINUTE;
    if start < end && step <= 0 {
      return Raises(ValueError(NON_POSITIVE_WINDOW));
    }
    var windows: seq<Range> := [];
    if start < end {
      windows := GenerateWindows(start, end, step);
    }
    assert Windows(start, end, step) == Ok(windows);
    var analyses := AnalyzeEach(namespace, podName, windows, loki, prom);
    if analyses.Raises? {
      return Raises(analyses.exc);
    }
    r := Returns(CorrelationReport(namespace, podName, timeRange, windowSize, |windows|, analyses.value,
                                   AnalyzeTrends(analyses.value)));
  }
}
