/** The configuration checks of `config/settings.py`: the Grafana key
    fallback and `validate_configuration`. The settings are a plain record of
    the fields those two read. */
module Config {
  import opened Common
  import opened PyStr

  datatype Settings = Settings(
    logLevel: string,
    serverPort: int,
    grafanaUrl: string,
    grafanaToken: Option<string>,
    grafanaApiKey: Option<string>,
    eksClusterName: Option<string>)

  const KEY_MISSING := "Either GRAFANA_API_KEY or GRAFANA_TOKEN must be provided"

  /** The `grafana_key` property: `grafana_api_key or grafana_token`, and a
      ValueError when that is falsy. */
  function GrafanaKey(s: Settings): (r: Result<string, Exc>)
    ensures r.Ok? <==> Truthy(s.grafanaApiKey) || Truthy(s.grafanaToken)
    ensures Truthy(s.grafanaApiKey) ==> r == Ok(s.grafanaApiKey.value)
    ensures !Truthy(s.grafanaApiKey) && Truthy(s.grafanaToken) ==> r == Ok(s.grafanaToken.value)
    ensures r.Err? ==> r.error == ValueError(KEY_MISSING)
  {
    var key := if Truthy(s.grafanaApiKey) then s.grafanaApiKey else s.grafanaToken;
    if Truthy(key) then Ok(key.value) else Err(ValueError(KEY_MISSING))
  }

  const VALID_LOG_LEVELS: seq<string> := ["DEBUG", "INFO", "WARNING", "ERROR", "CRITICAL"]

  /** The checks of `validate_configuration`, in the order it runs them. */
  datatype Issue = UrlRequired | KeyRequired | UrlScheme | PortRange | LogLevel

  /** The text each check appends when it fails. */
  function Message(i: Issue): string {
    match i
    case UrlRequired => "GRAFANA_URL is required"
    case KeyRequired => "GRAFANA_API_KEY or GRAFANA_TOKEN is required"
    case UrlScheme => "GRAFANA_URL must start with http:// or https://"
    case PortRange => "SERVER_PORT must be between 1 and 65535"
    case LogLevel => "LOG_LEVEL must be one of: DEBUG, INFO, WARNING, ERROR, CRITICAL"
  }

  /** The position of a check among the checks. */
  function Rank(i: Issue): nat {
    match i
    case UrlRequired => 0
    case KeyRequired => 1
    case UrlScheme => 2
    case PortRange => 3
    case LogLevel => 4
  }

  predicate HttpScheme(url: string) {
    StartsWith(url, "http://") || StartsWith(url, "https://")
  }

  predicate PortInRange(port: int) {
    1 <= port <= 65535
  }

  predicate KnownLogLevel(level: string) {
    Upper(level) in VALID_LOG_LEVELS
  }

  /** The configuration a deployment needs, stated field by field. */
  predicate WellConfigured(s: Settings) {
    && s.grafanaUrl != ""
    && (Truthy(s.grafanaApiKey) || Truthy(s.grafanaToken))
    && HttpScheme(s.grafanaUrl)
    && PortInRange(s.serverPort)
    && KnownLogLevel(s.logLevel)
  }

  /** Whether the check fails on these settings. */
  predicate Fails(s: Settings, i: Issue) {
    match i
    case UrlRequired => s.grafanaUrl == ""
    case KeyRequired => GrafanaKey(s).Err?
    case UrlScheme => s.grafanaUrl != "" && !HttpScheme(s.grafanaUrl)
    case PortRange => !PortInRange(s.serverPort)
    case LogLevel => !KnownLogLevel(s.logLevel)
  }

  /** The issue one check contributes: itself when the check fails. */
  function Check(s: Settings, i: Issue): seq<Issue> {
    if Fails(s, i) then [i] else []
  }

  /** The failing checks, in check order. */
  function Issues(s: Settings): seq<Issue> {
    Check(s, UrlRequired) + Check(s, KeyRequired) + Check(s, UrlScheme) + Check(s, PortRange) + Check(s, LogLevel)
  }

  /** The texts of a list of issues, one per issue in the same order. */
  function Messages(issues: seq<Issue>): seq<string> {
    seq(|issues|, k requires 0 <= k < |issues| => Message(issues[k]))
  }

  /** `validate_configuration`: one text per failing check, appended in the
      order of the checks. The checks are collected first and turned into
      their texts at the end. */
  method ValidateConfiguration(s: Settings) returns (issues: seq<string>)
    ensures issues == Messages(Issues(s))
  {
    var found: seq<Issue> := [];
    if s.grafanaUrl == "" {
      found := found + [UrlRequired];
    }
    assert found == Check(s, UrlRequired);
    var key := GrafanaKey(s);
    if key.Err? {
      found := found + [KeyRequired];
    }
    assert found == Check(s, UrlRequired) + Check(s, KeyRequired);
    if s.grafanaUrl != "" && !HttpScheme(s.grafanaUrl) {
      found := found + [UrlScheme];
    }
    assert found == Check(s, UrlRequired) + Check(s, KeyRequired) + Check(s, UrlScheme);
    if !PortInRange(s.serverPort) {
      found := found + [PortRange];
    }
    assert found == Check(s, UrlRequired) + Check(s, KeyRequired) + Check(s, UrlScheme) + Check(s, PortRange);
    if Upper(s.logLevel) !in VALID_LOG_LEVELS {
      found := found + [LogLevel];
    }
    assert found == Issues(s);
    issues := Messages(found);
  }

  /** An issue is listed exactly when its check fails. */
  lemma IssuesAreFailures(s: Settings)
    ensures forall i :: i in Issues(s) <==> Fails(s, i)
  {
    forall i ensures i in Issues(s) <==> Fails(s, i) {
      assert i in Issues(s) <==>
        i in Check(s, UrlRequired) || i in Check(s, KeyRequired) || i in Check(s, UrlScheme)
        || i in Check(s, PortRange) || i in Check(s, LogLevel);
    }
  }

  /** Each check is reported exactly when it fails: a missing URL, a
      missing key, a URL without an HTTP scheme (only when there is a URL),
      a port outside [1, 65535] and an unknown log level. No issue means
      well configured. */
  lemma IssuesMeaning(s: Settings)
    ensures var issues := Issues(s);
      && (UrlRequired in issues <==> s.grafanaUrl == "")
      && (KeyRequired in issues <==> !Truthy(s.grafanaApiKey) && !Truthy(s.grafanaToken))
      && (UrlScheme in issues <==> s.grafanaUrl != "" && !HttpScheme(s.grafanaUrl))
      && (PortRange in issues <==> !PortInRange(s.serverPort))
      && (LogLevel in issues <==> !KnownLogLevel(s.logLevel))
      && (issues == [] <==> WellConfigured(s))
  {
    IssuesAreFailures(s);
    if Issues(s) != [] {
      assert Issues(s)[0] in Issues(s);
    }
  }

  /** Ranks strictly increase along `xs`, and all stay below `bound`. */
  predicate RanksBelow(xs: seq<Issue>, bound: nat) {
    && (forall k :: 0 <= k < |xs| ==> Rank(xs[k]) < bound)
    && (forall k, l :: 0 <= k < l < |xs| ==> Rank(xs[k]) < Rank(xs[l]))
  }

  lemma CheckExtends(xs: seq<Issue>, s: Settings, i: Issue)
    requires RanksBelow(xs, Rank(i))
    ensures RanksBelow(xs + Check(s, i), Rank(i) + 1)
  {
    if Fails(s, i) {
      assert Check(s, i) == [i];
    } else {
      assert xs + Check(s, i) == xs;
    }
  }

  /** Checks listed in increasing rank contribute issues in increasing rank. */
  lemma ChecksOrdered(s: Settings, i1: Issue, i2: Issue, i3: Issue, i4: Issue, i5: Issue)
    requires Rank(i1) < Rank(i2) < Rank(i3) < Rank(i4) < Rank(i5)
    ensures RanksBelow(Check(s, i1) + Check(s, i2) + Check(s, i3) + Check(s, i4) + Check(s, i5), Rank(i5) + 1)
  {
    var a, b, c, d := Check(s, i1), Check(s, i2), Check(s, i3), Check(s, i4);
    assert [] + a == a;
    CheckExtends([], s, i1);
    CheckExtends(a, s, i2);
    CheckExtends(a + b, s, i3);
    CheckExtends(a + b + c, s, i4);
    CheckExtends(a + b + c + d, s, i5);
  }

  /** The issues come in check order, each at most once. */
  lemma IssuesOrdered(s: Settings)
    ensures var issues := Issues(s);
      forall i, j :: 0 <= i < j < |issues| ==> Rank(issues[i]) < Rank(issues[j])
  {
    ChecksOrdered(s, UrlRequired, KeyRequired, UrlScheme, PortRange, LogLevel);
  }

  /** The boundary ports are accepted and their neighbours are not. */
  lemma PortBoundaries()
    ensures PortInRange(1) && PortInRange(65535)
    ensures !PortInRange(0) && !PortInRange(65536)
  {
  }

  /** The log level is compared after upper-casing, so any mix of cases of
      a valid level passes. */
  lemma LogLevelIgnoresCase(level: string)
    requires Upper(level) in VALID_LOG_LEVELS
    ensures KnownLogLevel(Lower(level))
  {
    var u := Upper(level);
    assert Upper(Lower(level)) == u by {
      forall i | 0 <= i < |level| ensures Upper(Lower(level))[i] == u[i] {
        var c := level[i];
        assert UpperChar(LowerChar(c)) == UpperChar(c);
      }
    }
  }
}
