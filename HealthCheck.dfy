/** `ServiceHealthCheck` of `server/error_handling.py`: a counter of
    consecutive failed probes that marks the service unhealthy at three. */
module HealthChecks {
  import opened Common

  const HEALTH_THRESHOLD: nat := 3

  datatype HealthView = HealthView(isHealthy: bool, consecutiveFailures: nat, lastCheck: Option<int>)

  const FRESH: HealthView := HealthView(true, 0, None)

  /** What awaiting the probe did: it answered with a value of the given
      truthiness, or it raised. */
  datatype Probe = Answered(truthy: bool) | ProbeRaised(exc: Exc)

  /** The invariant every reachable view keeps. */
  predicate Coherent(v: HealthView) {
    v.isHealthy <==> v.consecutiveFailures < HEALTH_THRESHOLD
  }

  /** `_record_failure` */
  function Failed(v: HealthView): HealthView {
    var n := v.consecutiveFailures + 1;
    v.(consecutiveFailures := n, isHealthy := if n >= HEALTH_THRESHOLD then false else v.isHealthy)
  }

  /** `check_health` at instant `now`: the new view and what the caller
      sees. A truthy answer restores health, a falsy one counts a failure;
      both stamp `last_check`. An `Exception` counts a failure without
      stamping and answers False; any other `BaseException` escapes. */
  function Checked(v: HealthView, probe: Probe, now: int): (HealthView, Outcome<bool>) {
    match probe
    case Answered(true) =>
      var v' := v.(isHealthy := true, consecutiveFailures := 0, lastCheck := Some(now));
      (v', Returns(true))
    case Answered(false) =>
      var v' := Failed(v).(lastCheck := Some(now));
      (v', Returns(v'.isHealthy))
    case ProbeRaised(e) =>
      if IsInstance(e, "Exception") then (Failed(v), Returns(false))
      else (v, Raises(e))
  }

  class ServiceHealthCheck {
    const serviceName: string
    var isHealthy: bool
    var consecutiveFailures: nat
    var lastCheck: Option<int>

    function View(): HealthView
      reads this
    {
      HealthView(isHealthy, consecutiveFailures, lastCheck)
    }

    ghost predicate Valid()
      reads this
    {
      Coherent(View())
    }

    constructor (serviceName: string)
      ensures this.serviceName == serviceName && View() == FRESH && Valid()
    {
      this.serviceName := serviceName;
      isHealthy := true;
      consecutiveFailures := 0;
      lastCheck := None;
    }

    method RecordFailure()
      requires Valid()
      modifies this
      ensures Valid()
      ensures View() == Failed(old(View()))
    {
      consecutiveFailures := consecutiveFailures + 1;
      if consecutiveFailures >= HEALTH_THRESHOLD {
        isHealthy := false;
      }
    }

    method CheckHealth(probe: Probe, now: int) returns (r: Outcome<bool>)
      requires Valid()
      modifies this
      ensures Valid()
      ensures (View(), r) == Checked(old(View()), probe, now)
    {
      match probe {
        case Answered(truthy) =>
          if truthy {
            isHealthy := true;
            consecutiveFailures := 0;
          } else {
            RecordFailure();
          }
          lastCheck := Some(now);
          r := Returns(isHealthy);
        case ProbeRaised(e) =>
          if IsInstance(e, "Exception") {
            RecordFailure();
            r := Returns(false);
          } else {
            r := Raises(e);
          }
      }
    }
  }

  // ---------------------------------------------------------------------
  // Properties

  /** Every probe keeps a coherent view coherent, and what `check_health`
      returns is the health it leaves behind unless the probe raised. */
  lemma CheckHealthCoherent(v: HealthView, probe: Probe, now: int)
    requires Coherent(v)
    ensures var (v', r) := Checked(v, probe, now);
      && Coherent(v')
      && (probe.Answered? ==> r == Returns(v'.isHealthy) && v'.lastCheck == Some(now))
      && (probe.ProbeRaised? ==> v'.lastCheck == v.lastCheck && (r.Returns? ==> r == Returns(false)))
  {
  }

  /** Replays probes in turn, all at instant `now`. */
  function Probes(v: HealthView, probes: seq<Probe>, now: int): HealthView
    decreases |probes|
  {
    if probes == [] then v
    else Checked(Probes(v, probes[..|probes| - 1], now), probes[|probes| - 1], now).0
  }

  /** A failed probe: a falsy answer or a raised Exception. */
  predicate Failing(p: Probe) {
    p == Answered(false) || (p.ProbeRaised? && IsInstance(p.exc, "Exception"))
  }

  /** Consecutive failed probes add up, and the service turns unhealthy
      exactly when the count reaches three. */
  lemma {:induction false} FailuresAccumulate(v: HealthView, probes: seq<Probe>, now: int)
    requires Coherent(v)
    requires forall i :: 0 <= i < |probes| ==> Failing(probes[i])
    ensures Probes(v, probes, now).consecutiveFailures == v.consecutiveFailures + |probes|
    ensures Probes(v, probes, now).isHealthy <==> v.consecutiveFailures + |probes| < HEALTH_THRESHOLD
    decreases |probes|
  {
    if probes != [] {
      FailuresAccumulate(v, probes[..|probes| - 1], now);
    }
  }

  /** Three failed probes on a fresh check mark the service unhealthy, and
      one truthy answer brings it back. */
  lemma {:induction false} ThreeStrikes(e: Exc, now: int)
    requires IsInstance(e, "Exception")
    ensures !Probes(FRESH, [Answered(false), ProbeRaised(e), Answered(false)], now).isHealthy
    ensures Probes(FRESH, [Answered(false), ProbeRaised(e)], now).isHealthy
    ensures Probes(FRESH, [Answered(false), ProbeRaised(e), Answered(false), Answered(true)], now)
              == HealthView(true, 0, Some(now))
  {
    var three := [Answered(false), ProbeRaised(e), Answered(false)];
    FailuresAccumulate(FRESH, three, now);
    FailuresAccumulate(FRESH, three[..2], now);
    assert three[..2] == [Answered(false), ProbeRaised(e)];
    assert [Answered(false), ProbeRaised(e), Answered(false), Answered(true)][..3] == three;
  }
}
