/** `ErrorAggregator` and `handle_service_error` of
    `server/error_handling.py`: per-operation error logs capped at the 1000
    most recent records, and their summaries. */
module ErrorAggregation {
  import opened Common
  import HealthChecks

  const MAX_RECORDS: nat := 1000
  const RECENT_WINDOW: int := 3600

  /** One recorded error. `timestamp` is the recording instant in seconds;
      `errorType` is `type(error).__name__`. */
  datatype ErrorRecord = ErrorRecord(timestamp: int, errorType: string, errorMessage: string, context: map<string, string>)

  /** Keeps the last 1000 records, dropping the oldest first. */
  function Retain(log: seq<ErrorRecord>): (r: seq<ErrorRecord>)
    ensures |r| == if |log| > MAX_RECORDS then MAX_RECORDS else |log|
    ensures r == log[|log| - |r|..]
  {
    if |log| > MAX_RECORDS then log[|log| - MAX_RECORDS..] else log
  }

  /** The distinct error types in order of first appearance: the key order
      of the `error_types` dict. */
  function FirstSeen(log: seq<ErrorRecord>): (r: seq<string>)
    decreases |log|
  {
    if log == [] then []
    else
      var prior := FirstSeen(log[..|log| - 1]);
      var t := log[|log| - 1].errorType;
      if t in prior then prior else prior + [t]
  }

  /** The `error_types` dict: how many records carry each type. */
  function TypeCounts(log: seq<ErrorRecord>): map<string, nat>
    decreases |log|
  {
    if log == [] then map[]
    else
      var prior := TypeCounts(log[..|log| - 1]);
      var t := log[|log| - 1].errorType;
      prior[t := if t in prior then prior[t] + 1 else 1]
  }

  /** The records strictly less than an hour old at `now`. */
  function RecentCount(log: seq<ErrorRecord>, now: int): nat
    decreases |log|
  {
    if log == [] then 0
    else RecentCount(log[..|log| - 1], now) + if now - log[|log| - 1].timestamp < RECENT_WINDOW then 1 else 0
  }

  /** `max(error_types.items(), key=count)`: the first type, in key order,
      whose count no other type exceeds. */
  function MostCommon(order: seq<string>, counts: map<string, nat>): Option<(string, nat)>
    decreases |order|
  {
    if order == [] then None
    else
      var best := MostCommon(order[..|order| - 1], counts);
      var t := order[|order| - 1];
      var n := if t in counts then counts[t] else 0;
      if best.None? || n > best.value.1 then Some((t, n)) else best
  }

  /** What `_analyze_errors` reports for one operation. */
  datatype OperationSummary =
    | NoErrors
    | ErrorStats(count: nat, recentCount: nat, errorTypes: map<string, nat>, mostCommon: Option<(string, nat)>)

  /** `_analyze_errors` at instant `now`. */
  function Analysis(log: seq<ErrorRecord>, now: int): OperationSummary {
    if log == [] then NoErrors
    else
      ErrorStats(|log|, RecentCount(log, now), TypeCounts(log), MostCommon(FirstSeen(log), TypeCounts(log)))
  }

  /** What `get_error_summary` reports. */
  datatype ErrorSummary =
    | ForOperation(summary: OperationSummary)
    | Overall(totalErrors: nat, operationsWithErrors: nat, operations: map<string, OperationSummary>)

  /** The total length of the logs of the listed operations. */
  function TotalLength(ops: seq<string>, errors: map<string, seq<ErrorRecord>>): nat
    requires forall i :: 0 <= i < |ops| ==> ops[i] in errors
    decreases |ops|
  {
    if ops == [] then 0
    else TotalLength(ops[..|ops| - 1], errors) + |errors[ops[|ops| - 1]]|
  }

  /** The records `record_error` keeps after appending `rec` to `log`. */
  function Appended(log: seq<ErrorRecord>, rec: ErrorRecord): seq<ErrorRecord> {
    Retain(log + [rec])
  }

  class ErrorAggregator {
    /** The `errors` dict: `operations` is its key order. */
    var operations: seq<string>
    var errors: map<string, seq<ErrorRecord>>

    ghost predicate Valid()
      reads this
    {
      && (forall op :: op in errors <==> op in operations)
      && (forall i, j :: 0 <= i < j < |operations| ==> operations[i] != operations[j])
      && (forall op :: op in errors ==> 1 <= |errors[op]| <= MAX_RECORDS)
    }

    constructor ()
      ensures Valid() && operations == [] && errors == map[]
    {
      operations := [];
      errors := map[];
    }

    /** `record_error` at instant `now`: `context or {}` is the context,
        so an absent context is the empty map. */
    method RecordError(operation: string, error: Exc, context: map<string, string>, now: int)
      requires Valid()
      modifies this
      ensures Valid()
      ensures var rec := ErrorRecord(now, error.cls, error.message, context);
        errors == old(errors)[operation := Appended(if operation in old(errors) then old(errors)[operation] else [], rec)]
      ensures operations == if operation in old(errors) then old(operations) else old(operations) + [operation]
    {
      ghost var prior := if operation in errors then errors[operation] else [];
      ghost var oldErrors := errors;
      if operation !in errors {
        errors := errors[operation := []];
        operations := operations + [operation];
        assert forall i :: 0 <= i < |operations| - 1 ==> operations[i] in oldErrors;
      }
      var rec := ErrorRecord(now, error.cls, error.message, context);
      var log := errors[operation] + [rec];
      if |log| > MAX_RECORDS {
        log := log[|log| - MAX_RECORDS..];
      }
      assert log == Appended(prior, rec);
      errors := errors[operation := log];
      assert errors == oldErrors[operation := Appended(prior, rec)];
    }

    /** `get_error_summary` at instant `now`: for a truthy operation name,
        that operation's analysis (an unknown one has none); otherwise the
        rollup over all operations. */
    method GetErrorSummary(operation: Option<string>, now: int) returns (r: ErrorSummary)
      requires Valid()
      ensures operation.Some? && operation.value != "" ==>
                r == ForOperation(Analysis(if operation.value in errors then errors[operation.value] else [], now))
      ensures operation.None? || operation.value == "" ==>
                && r.Overall?
                && r.totalErrors == TotalLength(operations, errors)
                && r.operationsWithErrors == |errors|
                && r.operations.Keys == errors.Keys
                && forall op :: op in r.operations ==> r.operations[op] == Analysis(errors[op], now)
    {
      if operation.Some? && operation.value != "" {
        var log := if operation.value in errors then errors[operation.value] else [];
        var s := AnalyzeErrors(log, now);
        r := ForOperation(s);
      } else {
        r := Overview(now);
      }
    }

    /** The rollup branch of `get_error_summary`. */
    method Overview(now: int) returns (r: ErrorSummary)
      requires Valid()
      ensures r.Overall?
      ensures r.totalErrors == TotalLength(operations, errors)
      ensures r.operationsWithErrors == |errors|
      ensures r.operations.Keys == errors.Keys
      ensures forall op :: op in r.operations ==> r.operations[op] == Analysis(errors[op], now)
    {
      var total, summaries := Rollup(operations, errors, now);
      KeysCardinality(operations, errors);
      SummariesCover(operations, errors, now);
      r := Overall(total, |errors|, summaries);
    }
  }

  /** The loop of the rollup: the total record count and the analysis of
      each listed operation. */
  method Rollup(ops: seq<string>, errors: map<string, seq<ErrorRecord>>, now: int)
    returns (total: nat, summaries: map<string, OperationSummary>)
    requires forall i :: 0 <= i < |ops| ==> ops[i] in errors
    ensures total == TotalLength(ops, errors)
    ensures summaries == Summaries(ops, errors, now)
  {
    total := 0;
    summaries := map[];
    var i := 0;
    while i < |ops|
      invariant 0 <= i <= |ops|
      invariant total == TotalLength(ops[..i], errors)
      invariant summaries == Summaries(ops[..i], errors, now)
    {
      var op := ops[i];
      var s := AnalyzeErrors(errors[op], now);
      assert ops[..i + 1][..i] == ops[..i];
      total := total + |errors[op]|;
      summaries := summaries[op := s];
      i := i + 1;
    }
    assert ops[..i] == ops;
  }

  /** The per-operation analyses of the listed operations. */
  function Summaries(ops: seq<string>, errors: map<string, seq<ErrorRecord>>, now: int): map<string, OperationSummary>
    requires forall i :: 0 <= i < |ops| ==> ops[i] in errors
    decreases |ops|
  {
    if ops == [] then map[]
    else
      var op := ops[|ops| - 1];
      Summaries(ops[..|ops| - 1], errors, now)[op := Analysis(errors[op], now)]
  }

  lemma {:induction false} SummariesFacts(ops: seq<string>, errors: map<string, seq<ErrorRecord>>, now: int)
    requires forall i :: 0 <= i < |ops| ==> ops[i] in errors
    ensures forall op :: op in Summaries(ops, errors, now) <==> op in ops
    ensures forall op :: op in Summaries(ops, errors, now) ==> Summaries(ops, errors, now)[op] == Analysis(errors[op], now)
    decreases |ops|
  {
    if ops != [] {
      var init := ops[..|ops| - 1];
      SummariesFacts(init, errors, now);
      assert forall op :: op in ops <==> op in init || op == ops[|ops| - 1];
    }
  }

  /** Listing every operation of the dict once analyses each of them. */
  lemma SummariesCover(ops: seq<string>, errors: map<string, seq<ErrorRecord>>, now: int)
    requires forall op :: op in errors <==> op in ops
    ensures Summaries(ops, errors, now).Keys == errors.Keys
    ensures forall op :: op in errors ==> Summaries(ops, errors, now)[op] == Analysis(errors[op], now)
  {
    SummariesFacts(ops, errors, now);
    assert Summaries(ops, errors, now).Keys == errors.Keys by {
      forall op ensures op in Summaries(ops, errors, now) <==> op in errors {
        assert op in Summaries(ops, errors, now) <==> op in ops;
      }
    }
  }

  lemma KeysCardinality(ops: seq<string>, errors: map<string, seq<ErrorRecord>>)
    requires forall op :: op in errors <==> op in ops
    requires forall i, j :: 0 <= i < j < |ops| ==> ops[i] != ops[j]
    ensures |errors| == |ops|
  {
    DistinctCardinality(ops);
    assert errors.Keys == set op | op in ops;
  }

  lemma {:induction false} DistinctCardinality(ops: seq<string>)
    requires forall i, j :: 0 <= i < j < |ops| ==> ops[i] != ops[j]
    ensures |set op | op in ops| == |ops|
    decreases |ops|
  {
    if ops != [] {
      var init := ops[..|ops| - 1];
      DistinctCardinality(init);
      assert (set op | op in ops) == (set op | op in init) + {ops[|ops| - 1]};
    }
  }

  /** `_analyze_errors`: one pass over the records counting types and
      recent records, then the most common type. */
  method AnalyzeErrors(log: seq<ErrorRecord>, now: int) returns (s: OperationSummary)
    ensures s == Analysis(log, now)
  {
    if log == [] {
      return NoErrors;
    }
    var counts, order, recent := Tally(log, now);
    FirstSeenDistinct(log);
    var best := MostCommonType(order, counts);
    s := ErrorStats(|log|, recent, counts, best);
  }

  /** The counting pass of `_analyze_errors`: the `error_types` dict (with
      its key order) and the number of recent records. */
  method Tally(log: seq<ErrorRecord>, now: int) returns (counts: map<string, nat>, order: seq<string>, recent: nat)
    ensures counts == TypeCounts(log)
    ensures order == FirstSeen(log)
    ensures recent == RecentCount(log, now)
  {
    counts := map[];
    order := [];
    recent := 0;
    var i := 0;
    while i < |log|
      invariant 0 <= i <= |log|
      invariant counts == TypeCounts(log[..i])
      invariant order == FirstSeen(log[..i])
      invariant recent == RecentCount(log[..i], now)
    {
      assert log[..i + 1][..i] == log[..i];
      FirstSeenDistinct(log[..i]);
      var t := log[i].errorType;
      if t !in order {
        order := order + [t];
      }
      counts := counts[t := if t in counts then counts[t] + 1 else 1];
      if now - log[i].timestamp < RECENT_WINDOW {
        recent := recent + 1;
      }
      i := i + 1;
    }
    assert log[..i] == log;
  }

  /** `max(error_types.items(), key=...)` over the counts in key order. */
  method MostCommonType(order: seq<string>, counts: map<string, nat>) returns (best: Option<(string, nat)>)
    requires forall t :: t in order ==> t in counts
    ensures best == MostCommon(order, counts)
  {
    best := None;
    var k := 0;
    while k < |order|
      invariant 0 <= k <= |order|
      invariant best == MostCommon(order[..k], counts)
    {
      assert order[..k + 1][..k] == order[..k];
      if best.None? || counts[order[k]] > best.value.1 {
        best := Some((order[k], counts[order[k]]));
      }
      k := k + 1;
    }
    assert order[..k] == order;
  }

  // ---------------------------------------------------------------------
  // Properties

  /** The keys of the counts are exactly the types seen, each listed once. */
  lemma {:induction false} FirstSeenCounted(log: seq<ErrorRecord>)
    ensures forall t :: t in TypeCounts(log) <==> t in FirstSeen(log)
    ensures forall i, j :: 0 <= i < j < |FirstSeen(log)| ==> FirstSeen(log)[i] != FirstSeen(log)[j]
    ensures forall t :: t in TypeCounts(log) ==> TypeCounts(log)[t] >= 1
    decreases |log|
  {
    if log != [] {
      FirstSeenCounted(log[..|log| - 1]);
    }
  }

  /** The types seen are listed once each and are the counted ones. */
  lemma FirstSeenDistinct(log: seq<ErrorRecord>)
    ensures forall t :: t in TypeCounts(log) <==> t in FirstSeen(log)
    ensures forall i, j :: 0 <= i < j < |FirstSeen(log)| ==> FirstSeen(log)[i] != FirstSeen(log)[j]
  {
    FirstSeenCounted(log);
  }

  /** Adding the counts of the listed types. */
  function SumCounts(order: seq<string>, counts: map<string, nat>): nat
    decreases |order|
  {
    if order == [] then 0
    else
      var t := order[|order| - 1];
      SumCounts(order[..|order| - 1], counts) + if t in counts then counts[t] else 0
  }

  lemma {:induction false} SumCountsBump(order: seq<string>, counts: map<string, nat>, t: string)
    requires forall i, j :: 0 <= i < j < |order| ==> order[i] != order[j]
    ensures SumCounts(order, counts[t := if t in counts then counts[t] + 1 else 1]) ==
              SumCounts(order, counts) + if t in order then 1 else 0
    decreases |order|
  {
    if order != [] {
      var init := order[..|order| - 1];
      assert forall u :: u in init ==> u in order;
      assert t in order <==> t in init || t == order[|order| - 1];
      if t == order[|order| - 1] {
        assert t !in init;
      }
      SumCountsBump(init, counts, t);
    }
  }

  lemma {:induction false} SumCountsFrame(order: seq<string>, counts: map<string, nat>, t: string, c: nat)
    requires t !in order
    ensures SumCounts(order, counts[t := c]) == SumCounts(order, counts)
    decreases |order|
  {
    if order != [] {
      SumCountsFrame(order[..|order| - 1], counts, t, c);
    }
  }

  /** The per-type counts add up to the number of records. */
  lemma {:induction false} TypeCountsSum(log: seq<ErrorRecord>)
    ensures SumCounts(FirstSeen(log), TypeCounts(log)) == |log|
    decreases |log|
  {
    if log != [] {
      TypeCountsSum(log[..|log| - 1]);
      TypeCountsSumStep(log);
    }
  }

  /** The last record adds one to the summed counts. */
  lemma TypeCountsSumStep(log: seq<ErrorRecord>)
    requires log != []
    ensures SumCounts(FirstSeen(log), TypeCounts(log)) ==
              SumCounts(FirstSeen(log[..|log| - 1]), TypeCounts(log[..|log| - 1])) + 1
  {
    var init := log[..|log| - 1];
    FirstSeenDistinct(init);
    TypeCountsLast(log);
    FirstSeenLast(log);
    TallyStep(FirstSeen(init), TypeCounts(init), log[|log| - 1].errorType, FirstSeen(log), TypeCounts(log));
  }

  /** Counting one more record of type `t` adds one to the summed counts,
      whether `t` is new (appended to the order) or already counted. */
  lemma TallyStep(order: seq<string>, counts: map<string, nat>, t: string,
                  order': seq<string>, counts': map<string, nat>)
    requires forall i, j :: 0 <= i < j < |order| ==> order[i] != order[j]
    requires forall u :: u in counts <==> u in order
    requires order' == if t in order then order else order + [t]
    requires counts' == counts[t := if t in counts then counts[t] + 1 else 1]
    ensures SumCounts(order', counts') == SumCounts(order, counts) + 1
  {
    if t in order {
      SeenTypeStep(order, counts, t);
    } else {
      SumCountsNew(order, counts, t);
    }
  }

  /** The order of a log is that of its prefix, with the last record's type
      appended when it is new. */
  lemma FirstSeenLast(log: seq<ErrorRecord>)
    requires log != []
    ensures var order := FirstSeen(log[..|log| - 1]);
      var t := log[|log| - 1].errorType;
      FirstSeen(log) == if t in order then order else order + [t]
  {
  }

  /** A type counted before gains one; the order stays. */
  lemma SeenTypeStep(order: seq<string>, counts: map<string, nat>, t: string)
    requires forall i, j :: 0 <= i < j < |order| ==> order[i] != order[j]
    requires t in order && t in counts
    ensures SumCounts(order, counts[t := counts[t] + 1]) == SumCounts(order, counts) + 1
  {
    SumCountsBump(order, counts, t);
  }

  /** The counts of a log are those of its prefix with the last record's
      type counted once more. */
  lemma TypeCountsLast(log: seq<ErrorRecord>)
    requires log != []
    ensures var counts := TypeCounts(log[..|log| - 1]);
      var t := log[|log| - 1].errorType;
      TypeCounts(log) == counts[t := if t in counts then counts[t] + 1 else 1]
  {
  }

  /** A type seen for the first time is appended to the order with count one. */
  lemma SumCountsNew(order: seq<string>, counts: map<string, nat>, t: string)
    requires forall i, j :: 0 <= i < j < |order| ==> order[i] != order[j]
    requires t !in order && t !in counts
    ensures SumCounts(order + [t], counts[t := 1]) == SumCounts(order, counts) + 1
  {
    SumCountsBump(order, counts, t);
    assert (order + [t])[..|order + [t]| - 1] == order;
  }

  lemma {:induction false} RecentAtMostCount(log: seq<ErrorRecord>, now: int)
    ensures RecentCount(log, now) <= |log|
    decreases |log|
  {
    if log != [] {
      RecentAtMostCount(log[..|log| - 1], now);
    }
  }

  lemma {:induction false} MostCommonIsMaximal(order: seq<string>, counts: map<string, nat>)
    requires forall t :: t in order ==> t in counts
    ensures var best := MostCommon(order, counts);
      && (order != [] <==> best.Some?)
      && (best.Some? ==> best.value.0 in order && best.value.1 == counts[best.value.0])
      && (best.Some? ==> forall t :: t in order ==> counts[t] <= best.value.1)
      && (best.Some? ==> exists j :: 0 <= j < |order| && order[j] == best.value.0
                                     && forall i :: 0 <= i < j ==> counts[order[i]] < best.value.1)
    decreases |order|
  {
    if order != [] {
      var init := order[..|order| - 1];
      MostCommonIsMaximal(init, counts);
      assert forall t :: t in order ==> t in init || t == order[|order| - 1];
      var best := MostCommon(init, counts);
      var t := order[|order| - 1];
      if best.None? || counts[t] > best.value.1 {
        var j := |order| - 1;
        assert forall i :: 0 <= i < j ==> order[i] == init[i] && order[i] in init;
      } else {
        var j :| 0 <= j < |init| && init[j] == best.value.0
                 && forall i :: 0 <= i < j ==> counts[init[i]] < best.value.1;
        assert order[j] == best.value.0;
        assert forall i :: 0 <= i < j ==> order[i] == init[i];
      }
    }
  }

  /** What a summary of a non-empty log promises: the count is the number
      of records, the per-type counts add up to it, the recent ones are among
      them, and the most common type carries the largest count. */
  lemma AnalysisFacts(log: seq<ErrorRecord>, now: int)
    requires log != []
    ensures var s := Analysis(log, now);
      && s.ErrorStats?
      && s.count == |log|
      && s.recentCount <= s.count
      && s.errorTypes.Keys == (set i | 0 <= i < |log| :: log[i].errorType)
      && SumCounts(FirstSeen(log), s.errorTypes) == s.count
      && s.mostCommon.Some?
      && s.mostCommon.value.0 in s.errorTypes
      && s.mostCommon.value.1 == s.errorTypes[s.mostCommon.value.0]
      && forall t :: t in s.errorTypes ==> s.errorTypes[t] <= s.mostCommon.value.1
  {
    FirstSeenCounted(log);
    TypeCountsSum(log);
    RecentAtMostCount(log, now);
    MostCommonIsMaximal(FirstSeen(log), TypeCounts(log));
    CountedTypes(log);
  }

  lemma {:induction false} CountedTypes(log: seq<ErrorRecord>)
    ensures TypeCounts(log).Keys == set i | 0 <= i < |log| :: log[i].errorType
    decreases |log|
  {
    if log != [] {
      var init := log[..|log| - 1];
      CountedTypes(init);
      assert (set i | 0 <= i < |log| :: log[i].errorType) ==
             (set i | 0 <= i < |init| :: init[i].errorType) + {log[|log| - 1].errorType} by {
        forall i | 0 <= i < |init| ensures init[i] == log[i] { }
      }
    }
  }

  /** Trimming before appending one record is trimming after it. */
  lemma RetainStep(x: seq<ErrorRecord>, last: ErrorRecord)
    ensures Retain(Retain(x) + [last]) == Retain(x + [last])
  {
    if |x| >= MAX_RECORDS {
      var r := Retain(x);
      assert r == x[|x| - MAX_RECORDS..];
      assert Retain(r + [last]) == x[|x| - MAX_RECORDS + 1..] + [last];
      assert Retain(x + [last]) == x[|x| - MAX_RECORDS + 1..] + [last];
    }
  }

  /** Appending keeps only the last 1000 records, so recording one record
      after another retains exactly the most recent 1000 of them all. */
  lemma {:induction false} RetainAll(log: seq<ErrorRecord>, recs: seq<ErrorRecord>)
    requires |log| <= MAX_RECORDS
    ensures Records(log, recs) == Retain(log + recs)
    decreases |recs|
  {
    if recs != [] {
      var init := recs[..|recs| - 1];
      var last := recs[|recs| - 1];
      RetainAll(log, init);
      assert log + recs == (log + init) + [last];
      RetainStep(log + init, last);
    }
  }

  /** Records `recs` one after another into `log`. */
  function Records(log: seq<ErrorRecord>, recs: seq<ErrorRecord>): seq<ErrorRecord>
    decreases |recs|
  {
    if recs == [] then log else Appended(Records(log, recs[..|recs| - 1]), recs[|recs| - 1])
  }

  /** Recording 1001 errors for one operation keeps the last 1000: the
      first is evicted. */
  lemma Evicts1001(recs: seq<ErrorRecord>)
    requires |recs| == 1001
    ensures Records([], recs) == recs[1..]
  {
    RetainAll([], recs);
    assert [] + recs == recs;
    assert Retain(recs) == recs[1..];
  }

  // ---------------------------------------------------------------------
  // handle_service_error

  /** The key `handle_service_error` files an error under. */
  function OperationKey(serviceName: string, operation: string): string {
    serviceName + "::" + operation
  }

  /** The context `handle_service_error` records with the error. */
  function ServiceContext(serviceName: string, operation: string): map<string, string> {
    map["service" := serviceName, "operation" := operation]
  }

  /** Every registered health check keeps its invariant. */
  ghost predicate ChecksValid(checks: map<string, HealthChecks.ServiceHealthCheck>)
    reads checks.Values
  {
    forall s :: s in checks ==> checks[s].Valid()
  }

  /** The wrapper `handle_service_error(service, operation)` builds: an
      `Exception` from the wrapped coroutine is recorded under
      `service::operation` with the service and operation as context, the
      service's health check (if it has one) counts a failure, and the
      exception is re-raised; anything else passes through untouched. Only
      the aggregator and the service's own check may change. */
  method HandleServiceError<T>(
    aggregator: ErrorAggregator, checks: map<string, HealthChecks.ServiceHealthCheck>,
    serviceName: string, operation: string, op: Outcome<T>, now: int)
    returns (r: Outcome<T>)
    requires aggregator.Valid() && ChecksValid(checks)
    modifies aggregator, if serviceName in checks then {checks[serviceName]} else {}
    ensures aggregator.Valid() && ChecksValid(checks)
    ensures r == op
    ensures aggregator.errors ==
      if Caught(op) then
        var key := OperationKey(serviceName, operation);
        old(aggregator.errors)[key :=
          Appended(if key in old(aggregator.errors) then old(aggregator.errors)[key] else [],
                   ErrorRecord(now, op.exc.cls, op.exc.message, ServiceContext(serviceName, operation)))]
      else old(aggregator.errors)
    ensures serviceName in checks ==>
      checks[serviceName].View() ==
        if Caught(op) then HealthChecks.Failed(old(checks[serviceName].View())) else old(checks[serviceName].View())
  {
    r := op;
    if Caught(op) {
      RecordBeside(aggregator, checks, OperationKey(serviceName, operation), op.exc, ServiceContext(serviceName, operation), now);
      CountFailure(checks, serviceName);
    }
  }

  /** Whether the wrapper's `except Exception` clause catches what the call did. */
  predicate Caught<T>(op: Outcome<T>) {
    op.Raises? && IsInstance(op.exc, "Exception")
  }

  /** The aggregator half of the wrapper: `record_error` touches no health check. */
  method RecordBeside(
    aggregator: ErrorAggregator, checks: map<string, HealthChecks.ServiceHealthCheck>,
    key: string, error: Exc, context: map<string, string>, now: int)
    requires aggregator.Valid() && ChecksValid(checks)
    modifies aggregator
    ensures aggregator.Valid() && ChecksValid(checks)
    ensures aggregator.errors == old(aggregator.errors)[key :=
              Appended(if key in old(aggregator.errors) then old(aggregator.errors)[key] else [],
                       ErrorRecord(now, error.cls, error.message, context))]
  {
    aggregator.RecordError(key, error, context, now);
    forall s | s in checks ensures checks[s].Valid() {
      assert checks[s] as object != aggregator;
      assert old(checks[s].Valid());
    }
  }

  /** The health-check half of the wrapper: the named service's check, if
      there is one, counts a failure; no other check changes. */
  method CountFailure(checks: map<string, HealthChecks.ServiceHealthCheck>, serviceName: string)
    requires ChecksValid(checks)
    modifies if serviceName in checks then {checks[serviceName]} else {}
    ensures ChecksValid(checks)
    ensures serviceName in checks ==> checks[serviceName].View() == HealthChecks.Failed(old(checks[serviceName].View()))
  {
    if serviceName in checks {
      checks[serviceName].RecordFailure();
    }
  }

}
