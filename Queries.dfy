/** The query building of `server/tools.py`: its own duration parser
    (`_time_range_to_timestamps`), the LogQL stream selector of
    `get_pod_logs` and the PromQL queries of `get_pod_metrics`. */
module Queries {
  import opened Common
  import opened PyStr
  import opened TimeUtils

  /** `_time_range_to_timestamps` at instant `now`: only the `h`, `m` and `d`
      suffixes scale the integer prefix; anything else, `s` included, means
      the last hour. */
  function TimeRangeToTimestamps(expr: string, now: int): Result<Range, Exc> {
    if EndsWithChar(expr, 'h') then Back(expr, HOUR, now)
    else if EndsWithChar(expr, 'm') then Back(expr, MINUTE, now)
    else if EndsWithChar(expr, 'd') then Back(expr, DAY, now)
    else Ok(Range(now - HOUR, now))
  }

  /** The two duration parsers agree except on the `s` suffix, which the
      one in `tools.py` does not know and reads as the default hour. */
  lemma TimeRangeParsersAgree(expr: string, now: int)
    ensures !EndsWithChar(expr, 's') ==> TimeRangeToTimestamps(expr, now) == ParseTimeRange(expr, now)
    ensures EndsWithChar(expr, 's') ==> TimeRangeToTimestamps(expr, now) == Ok(Range(now - HOUR, now))
  {
  }

  /** `"<n>m"` is the last n minutes before `now`. */
  lemma MinutesBack(n: nat, now: int)
    ensures TimeRangeToTimestamps(DecimalString(n) + "m", now) == Ok(Range(now - n * MINUTE, now))
  {
    var expr := DecimalString(n) + "m";
    ParseTimeRangeScales(n, 'm', now);
    assert expr == DecimalString(n) + ['m'];
    TimeRangeParsersAgree(expr, now);
  }

  /** The suffixes `_time_range_to_timestamps` scales. */
  predicate ScaledSuffix(c: char) {
    c == 'h' || c == 'm' || c == 'd'
  }

  /** `N` hours, minutes or days back from `now`, ending at `now`; a
      non-integer prefix raises ValueError; anything else is the last hour. */
  lemma TimeRangeToTimestampsMeaning(expr: string, now: int)
    ensures var r := TimeRangeToTimestamps(expr, now);
      && (r.Ok? ==> r.value.end == now)
      && (expr == [] || !ScaledSuffix(expr[|expr| - 1]) ==> r == Ok(Range(now - HOUR, now)))
      && (expr != [] && ScaledSuffix(expr[|expr| - 1]) ==>
            var n := ParseInt(expr[..|expr| - 1]);
            && (n.None? ==> r.Err? && r.error.cls == "ValueError")
            && (n.Some? ==> r == Ok(Range(now - n.value * UnitSeconds(expr[|expr| - 1]).value, now))))
  {
    if expr != [] {
      var c := expr[|expr| - 1];
      if ScaledSuffix(c) {
        var unit := UnitSeconds(c).value;
        assert TimeRangeToTimestamps(expr, now) == Back(expr, unit, now);
      } else {
        assert !EndsWithChar(expr, 'h') && !EndsWithChar(expr, 'm') && !EndsWithChar(expr, 'd');
      }
    }
  }

  // ---------------------------------------------------------------------
  // The Loki stream selector of get_pod_logs

  /** `label.split('=')` unpacked into `k, v`: `k="v"`, or the ValueError of
      a failed unpacking. */
  function LabelMatcher(entry: string): Result<string, Exc> {
    var kv := Split(entry, '=');
    if |kv| == 2 then Ok(kv[0] + "=\"" + kv[1] + "\"")
    else if |kv| < 2 then Err(ValueError("not enough values to unpack (expected 2, got 1)"))
    else Err(ValueError("too many values to unpack (expected 2)"))
  }

  /** A selector entry that unpacks: exactly one `=`. */
  predicate WellFormedLabel(entry: string) {
    |Split(entry, '=')| == 2
  }

  /** The list comprehension over the selector entries: the first entry
      that does not unpack raises. */
  function LabelMatchers(labels: seq<string>): Result<seq<string>, Exc>
    decreases |labels|
  {
    if labels == [] then Ok([])
    else match LabelMatcher(labels[0])
      case Err(e) => Err(e)
      case Ok(m) =>
        match LabelMatchers(labels[1..])
        case Err(e) => Err(e)
        case Ok(ms) => Ok([m] + ms)
  }

  /** The stream selector `get_pod_logs` sends: the pod when one is named,
      else the namespace plus the translated label selector, else the
      namespace alone. */
  function LokiQuery(namespace: string, podName: Option<string>, labelSelector: Option<string>): Result<string, Exc> {
    if Truthy(podName) then Ok("{namespace=\"" + namespace + "\", pod=\"" + podName.value + "\"}")
    else if Truthy(labelSelector) then
      match LabelMatchers(Split(labelSelector.value, ','))
      case Err(e) => Err(e)
      case Ok(ms) => Ok("{namespace=\"" + namespace + "\", " + Join(ms, ", ") + "}")
    else Ok("{namespace=\"" + namespace + "\"}")
  }

  /** The comprehension succeeds exactly when every entry unpacks, and then
      translates each entry in place; otherwise it raises the ValueError of
      the first entry that does not. */
  lemma LabelMatchersMeaning(labels: seq<string>)
    ensures LabelMatchers(labels).Ok? <==> forall i :: 0 <= i < |labels| ==> WellFormedLabel(labels[i])
    ensures LabelMatchers(labels).Ok? ==>
              |LabelMatchers(labels).value| == |labels|
              && forall i :: 0 <= i < |labels| ==> LabelMatchers(labels).value[i] == LabelMatcher(labels[i]).value
    ensures LabelMatchers(labels).Err? ==>
              exists i :: 0 <= i < |labels| && !WellFormedLabel(labels[i])
                && (forall j :: 0 <= j < i ==> WellFormedLabel(labels[j]))
                && LabelMatchers(labels).error == LabelMatcher(labels[i]).error
  {
    LabelMatchersOk(labels);
    LabelMatchersFirstError(labels);
  }

  /** The comprehension succeeds exactly when every entry unpacks, with the
      entries translated in place. */
  lemma {:induction false} LabelMatchersOk(labels: seq<string>)
    ensures LabelMatchers(labels).Ok? <==> forall i :: 0 <= i < |labels| ==> WellFormedLabel(labels[i])
    ensures LabelMatchers(labels).Ok? ==>
              |LabelMatchers(labels).value| == |labels|
              && forall i :: 0 <= i < |labels| ==> LabelMatchers(labels).value[i] == LabelMatcher(labels[i]).value
    decreases |labels|
  {
    if labels != [] {
      LabelMatchersOk(labels[1..]);
      var tail := labels[1..];
      assert forall i :: 1 <= i < |labels| ==> labels[i] == tail[i - 1];
      if LabelMatcher(labels[0]).Err? {
        assert !WellFormedLabel(labels[0]);
      }
    }
  }

  /** A failing comprehension raises the error of its first malformed entry. */
  lemma {:induction false} LabelMatchersFirstError(labels: seq<string>)
    ensures LabelMatchers(labels).Err? ==>
              exists i :: 0 <= i < |labels| && !WellFormedLabel(labels[i])
                && (forall j :: 0 <= j < i ==> WellFormedLabel(labels[j]))
                && LabelMatchers(labels).error == LabelMatcher(labels[i]).error
    decreases |labels|
  {
    if labels != [] {
      LabelMatchersFirstError(labels[1..]);
      var tail := labels[1..];
      if LabelMatcher(labels[0]).Ok? && LabelMatchers(tail).Err? {
        var k :| 0 <= k < |tail| && !WellFormedLabel(tail[k])
                  && (forall j :: 0 <= j < k ==> WellFormedLabel(tail[j]))
                  && LabelMatchers(tail).error == LabelMatcher(tail[k]).error;
        assert labels[k + 1] == tail[k];
        forall j | 1 <= j < k + 1 ensures WellFormedLabel(labels[j]) {
          assert labels[j] == tail[j - 1];
        }
      }
      if LabelMatcher(labels[0]).Err? {
        assert !WellFormedLabel(labels[0]);
      }
    }
  }

  /** A key and value of a Kubernetes label selector entry `key=value`. */
  datatype Label = Label(key: string, value: string)

  /** A label part that survives the round trip: no `,` and no `=`. */
  predicate Plain(s: string) {
    ',' !in s && '=' !in s
  }

  /** The selector text `k1=v1,k2=v2,…`. */
  function SelectorTerms(labels: seq<Label>): seq<string> {
    seq(|labels|, i requires 0 <= i < |labels| => labels[i].key + "=" + labels[i].value)
  }

  /** The matchers `k1="v1"`, `k2="v2"`, … */
  function Matchers(labels: seq<Label>): seq<string> {
    seq(|labels|, i requires 0 <= i < |labels| => labels[i].key + "=\"" + labels[i].value + "\"")
  }

  /** Without a pod name, a selector built from plain labels becomes the
      namespace matcher followed by one `k="v"` matcher per label, in
      order: the selector is split back into exactly the labels it was
      built from. */
  lemma SelectorTranslation(namespace: string, labels: seq<Label>)
    requires |labels| >= 1
    requires forall i :: 0 <= i < |labels| ==> Plain(labels[i].key) && Plain(labels[i].value)
    ensures LokiQuery(namespace, None, Some(Join(SelectorTerms(labels), ","))) ==
              Ok("{namespace=\"" + namespace + "\", " + Join(Matchers(labels), ", ") + "}")
  {
    var terms := SelectorTerms(labels);
    assert forall i :: 0 <= i < |terms| ==> ',' !in terms[i];
    SplitJoin(terms, ',');
    var selector := Join(terms, ",");
    assert selector != "";
    forall i | 0 <= i < |terms|
      ensures Split(terms[i], '=') == [labels[i].key, labels[i].value]
    {
      var kv := [labels[i].key, labels[i].value];
      assert Join(kv, "=") == terms[i] by {
        assert kv[1..] == [labels[i].value];
      }
      SplitJoin(kv, '=');
    }
    LabelMatchersMeaning(terms);
    assert LabelMatchers(terms).value == Matchers(labels);
  }

  /** A selector with an entry that does not hold exactly one `=` raises
      ValueError before any backend is asked; one whose entries all do is
      translated. */
  lemma MalformedSelectorRaises(namespace: string, podName: Option<string>, selector: string)
    requires !Truthy(podName) && selector != ""
    ensures var labels := Split(selector, ',');
      && (LokiQuery(namespace, podName, Some(selector)).Err? <==>
            exists i :: 0 <= i < |labels| && !WellFormedLabel(labels[i]))
      && (LokiQuery(namespace, podName, Some(selector)).Err? ==>
            LokiQuery(namespace, podName, Some(selector)).error.cls == "ValueError")
  {
    var labels := Split(selector, ',');
    LabelMatchersMeaning(labels);
  }

  /** A pod name wins over any label selector; with neither, only the
      namespace is matched. */
  lemma LokiQueryPrecedence(namespace: string, podName: Option<string>, labelSelector: Option<string>)
    ensures Truthy(podName) ==>
              LokiQuery(namespace, podName, labelSelector) == LokiQuery(namespace, podName, None)
              && LokiQuery(namespace, podName, None).Ok?
    ensures !Truthy(podName) && !Truthy(labelSelector) ==>
              LokiQuery(namespace, podName, labelSelector) == Ok("{namespace=\"" + namespace + "\"}")
  {
  }

  // ---------------------------------------------------------------------
  // The Prometheus queries of get_pod_metrics

  /** The label filter: the pod when one is named, else the namespace; the
      label selector is not used. */
  function PromFilter(namespace: string, podName: Option<string>, labelSelector: Option<string>): string {
    if Truthy(podName) then "pod=\"" + podName.value + "\""
    else "namespace=\"" + namespace + "\""
  }

  const METRIC_NAMES: seq<string> := ["cpu_usage", "memory_usage", "network_rx", "network_tx"]

  /** The four queries, in the order of the `queries` dict. */
  function MetricQueries(filter: string): seq<(string, string)> {
    var sel := "{" + filter + "}";
    [ ("cpu_usage", "rate(container_cpu_usage_seconds_total" + sel + "[5m])"),
      ("memory_usage", "container_memory_working_set_bytes" + sel),
      ("network_rx", "rate(container_network_receive_bytes_total" + sel + "[5m])"),
      ("network_tx", "rate(container_network_transmit_bytes_total" + sel + "[5m])") ]
  }

  lemma {:induction false} ContainsInfix(a: string, needle: string, b: string)
    ensures Contains(a + needle + b, needle)
    decreases |a|
  {
    var hay := a + needle + b;
    if a == [] {
      assert hay[..|needle|] == needle;
    } else {
      ContainsInfix(a[1..], needle, b);
      assert hay[1..] == a[1..] + needle + b;
    }
  }

  /** Every metric is named as in the result dict and filtered by the same
      selector, and a label selector never changes the filter. */
  lemma MetricQueriesFiltered(namespace: string, podName: Option<string>, labelSelector: Option<string>)
    ensures var qs := MetricQueries(PromFilter(namespace, podName, labelSelector));
      && |qs| == |METRIC_NAMES|
      && (forall i :: 0 <= i < |qs| ==> qs[i].0 == METRIC_NAMES[i])
      && (forall i :: 0 <= i < |qs| ==> Contains(qs[i].1, "{" + PromFilter(namespace, podName, labelSelector) + "}"))
    ensures PromFilter(namespace, podName, labelSelector) == PromFilter(namespace, podName, None)
  {
    var sel := "{" + PromFilter(namespace, podName, labelSelector) + "}";
    ContainsInfix("rate(container_cpu_usage_seconds_total", sel, "[5m])");
    ContainsInfix("container_memory_working_set_bytes", sel, "");
    assert "container_memory_working_set_bytes" + sel + "" == "container_memory_working_set_bytes" + sel;
    ContainsInfix("rate(container_network_receive_bytes_total", sel, "[5m])");
    ContainsInfix("rate(container_network_transmit_bytes_total", sel, "[5m])");
  }
}
