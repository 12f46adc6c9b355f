/**
 * Health checks of the pre-exec process: the two probe classifiers and the
 * bounded retry loop ("health gate") that must pass before the main process
 * is started.
 *
 * The network is an oracle: `http(i)` is what the environment answers to the
 * i-th HTTP probe of a run. Sleeping is recorded as an event, never performed.
 */
module Health {

  datatype Option<+T> = None | Some(value: T)

  /** The two health-check kinds the supervisor recognises. */
  const HTTP: string := "http"
  const TCP: string := "tcp"

  /**
   * A health-check record. `kind` is an arbitrary string, as in the source,
   * so that an unrecognised kind can be carried to the retry loop. The
   * source's machine integers are unbounded integers here.
   */
  datatype HealthCheck = HealthCheck(
    kind: string,
    port: int,
    path: string,
    retries: int,
    interval: int,  // seconds slept after a failed probe
    timeout: int)

  predicate Known(kind: string) {
    kind == HTTP || kind == TCP
  }

  /** What the environment makes of one HTTP probe. */
  datatype HttpAttempt =
    | RequestNotBuilt              // constructing the GET request failed
    | TransportFailed              // refused, timed out, or the context was cancelled
    | Responded(statusCode: int)   // a response with this status arrived

  /** Why a probe failed. */
  datatype ProbeError =
    | CreateRequestFailed
    | RequestFailed
    | StatusNotSuccess(statusCode: int)

  /**
   * One HTTP probe: success (no error) exactly when a response arrives whose
   * status code is below 300; each failing stage yields its own error.
   */
  function CheckHealthHTTP(a: HttpAttempt): (err: Option<ProbeError>)
    ensures err.None? <==> a.Responded? && a.statusCode < 300
    ensures err == Some(CreateRequestFailed) <==> a == RequestNotBuilt
    ensures err == Some(RequestFailed) <==> a == TransportFailed
    ensures err.Some? && err.value.StatusNotSuccess? <==> a.Responded? && 300 <= a.statusCode
    ensures err.Some? && err.value.StatusNotSuccess? ==> err.value.statusCode == a.statusCode
  {
    match a
    case RequestNotBuilt => Some(CreateRequestFailed)
    case TransportFailed => Some(RequestFailed)
    case Responded(code) => if code >= 300 then Some(StatusNotSuccess(code)) else None
  }

  /** The TCP probe is an unimplemented stub: it reports success without connecting. */
  function CheckHealthTCP(hc: HealthCheck): (err: Option<ProbeError>)
    ensures err.None?
  {
    None
  }

  /** Whether probe number `i` of a check of a recognised kind succeeds. */
  predicate ProbeSucceeds(hc: HealthCheck, http: nat -> HttpAttempt, i: nat) {
    if hc.kind == HTTP then CheckHealthHTTP(http(i)).None? else CheckHealthTCP(hc).None?
  }

  /** What the retry loop does that can be observed: probing and sleeping. */
  datatype GateEvent = Probe(attempt: nat) | Sleep(seconds: int)

  /** The three ways the retry loop can end. */
  datatype GateOutcome = Healthy | UnknownType(kind: string) | RetryCountExceeded

  datatype GateRun = GateRun(outcome: GateOutcome, trace: seq<GateEvent>)

  /**
   * Reference definition of the retry loop from attempt `i` on, by recursion
   * on the attempts left: out of attempts, the check fails; an unrecognised
   * kind fails at once; a successful probe ends the loop; a failed probe is
   * followed by a sleep of `interval` and the next attempt. An unrecognised
   * kind is reported before any event, a healthy run ends on its successful
   * probe, and a run out of attempts ends on a sleep.
   */
  function GateFrom(hc: HealthCheck, http: nat -> HttpAttempt, i: nat): (r: GateRun)
    ensures r.outcome.UnknownType? ==> r.outcome.kind == hc.kind && !Known(hc.kind) && r.trace == []
    ensures r.outcome == Healthy ==> r.trace != [] && r.trace[|r.trace| - 1].Probe?
    ensures r.outcome == RetryCountExceeded ==> r.trace == [] || r.trace[|r.trace| - 1] == Sleep(hc.interval)
    decreases if i < hc.retries then hc.retries - i else 0
  {
    if hc.retries <= i then GateRun(RetryCountExceeded, [])
    else if !Known(hc.kind) then GateRun(UnknownType(hc.kind), [])
    else if ProbeSucceeds(hc, http, i) then GateRun(Healthy, [Probe(i)])
    else
      var rest := GateFrom(hc, http, i + 1);
      GateRun(rest.outcome, [Probe(i), Sleep(hc.interval)] + rest.trace)
  }

  /**
   * The whole retry loop. A non-positive retry count probes nothing and fails,
   * whatever the kind; an unrecognised kind fails before any probe; a TCP
   * check passes on its first probe.
   */
  function Gate(hc: HealthCheck, http: nat -> HttpAttempt): (r: GateRun)
    ensures hc.retries <= 0 ==> r == GateRun(RetryCountExceeded, [])
    ensures 0 < hc.retries && !Known(hc.kind) ==> r == GateRun(UnknownType(hc.kind), [])
    ensures 0 < hc.retries && hc.kind == TCP ==> r == GateRun(Healthy, [Probe(0)])
    ensures r.outcome.UnknownType? ==> r.outcome.kind == hc.kind && !Known(hc.kind)
  {
    GateFrom(hc, http, 0)
  }

  /** The events of `n` failed attempts: Probe(0), Sleep, ..., Probe(n - 1), Sleep. */
  function FailedRounds(n: nat, interval: int): seq<GateEvent> {
    if n == 0 then [] else FailedRounds(n - 1, interval) + [Probe(n - 1), Sleep(interval)]
  }

  function Probes(t: seq<GateEvent>): nat {
    if t == [] then 0 else Probes(t[..|t| - 1]) + (if t[|t| - 1].Probe? then 1 else 0)
  }

  function Sleeps(t: seq<GateEvent>): nat {
    if t == [] then 0 else Sleeps(t[..|t| - 1]) + (if t[|t| - 1].Sleep? then 1 else 0)
  }

  /** `n` failed attempts are `n` probes, numbered 0 to n - 1, and `n` sleeps of `interval`. */
  lemma {:induction false} FailedRoundsShape(n: nat, interval: int)
    ensures |FailedRounds(n, interval)| == 2 * n
    ensures Probes(FailedRounds(n, interval)) == n
    ensures Sleeps(FailedRounds(n, interval)) == n
    ensures forall j :: 0 <= j < n ==>
      FailedRounds(n, interval)[2 * j] == Probe(j) && FailedRounds(n, interval)[2 * j + 1] == Sleep(interval)
  {
    if n > 0 {
      FailedRoundsShape(n - 1, interval);
      var prev := FailedRounds(n - 1, interval);
      var t := FailedRounds(n, interval);
      assert t == prev + [Probe(n - 1), Sleep(interval)];
      assert t[..|t| - 1] == prev + [Probe(n - 1)];
      assert t[..|t| - 1][..|t| - 2] == prev;
    }
  }

  /**
   * After `i` failed attempts of a recognised kind, the loop has emitted
   * exactly FailedRounds(i) and continues as GateFrom(i).
   */
  lemma {:induction false} GateAfterFailures(hc: HealthCheck, http: nat -> HttpAttempt, i: nat)
    requires Known(hc.kind) && i <= hc.retries
    requires forall j :: 0 <= j < i ==> !ProbeSucceeds(hc, http, j)
    ensures Gate(hc, http).outcome == GateFrom(hc, http, i).outcome
    ensures Gate(hc, http).trace == FailedRounds(i, hc.interval) + GateFrom(hc, http, i).trace
  {
    if i > 0 {
      GateAfterFailures(hc, http, i - 1);
      var before, rest := FailedRounds(i - 1, hc.interval), GateFrom(hc, http, i);
      var step := [Probe(i - 1), Sleep(hc.interval)];
      assert GateFrom(hc, http, i - 1) == GateRun(rest.outcome, step + rest.trace) by {
        assert !ProbeSucceeds(hc, http, i - 1);
      }
      assert before + (step + rest.trace) == (before + step) + rest.trace;
    }
  }

  /**
   * When attempt `k` is the first to succeed, the loop is healthy after
   * exactly k + 1 probes and k sleeps, and nothing follows the successful probe.
   */
  lemma GateFirstSuccess(hc: HealthCheck, http: nat -> HttpAttempt, k: nat)
    requires Known(hc.kind) && k < hc.retries
    requires forall j :: 0 <= j < k ==> !ProbeSucceeds(hc, http, j)
    requires ProbeSucceeds(hc, http, k)
    ensures Gate(hc, http) == GateRun(Healthy, FailedRounds(k, hc.interval) + [Probe(k)])
    ensures Probes(Gate(hc, http).trace) == k + 1
    ensures Sleeps(Gate(hc, http).trace) == k
    ensures Gate(hc, http).trace[|Gate(hc, http).trace| - 1] == Probe(k)
  {
    GateAfterFailures(hc, http, k);
    FailedRoundsShape(k, hc.interval);
    var t := FailedRounds(k, hc.interval) + [Probe(k)];
    assert t[..|t| - 1] == FailedRounds(k, hc.interval);
  }

  /**
   * When every probe fails, the loop makes exactly `retries` probes, sleeps
   * `interval` after each of them, the last one included, and then fails.
   */
  lemma GateAllFail(hc: HealthCheck, http: nat -> HttpAttempt)
    requires Known(hc.kind) && 0 <= hc.retries
    requires forall j :: 0 <= j < hc.retries ==> !ProbeSucceeds(hc, http, j)
    ensures Gate(hc, http) == GateRun(RetryCountExceeded, FailedRounds(hc.retries, hc.interval))
    ensures Probes(Gate(hc, http).trace) == hc.retries
    ensures Sleeps(Gate(hc, http).trace) == hc.retries
    ensures 0 < hc.retries ==> Gate(hc, http).trace[|Gate(hc, http).trace| - 1] == Sleep(hc.interval)
  {
    GateAfterFailures(hc, http, hc.retries);
    FailedRoundsShape(hc.retries, hc.interval);
  }

  /**
   * From attempt `i` on, the loop ends healthy exactly when the kind is
   * recognised and some attempt from `i` up to the retry count succeeds.
   */
  lemma {:induction false} GateFromHealthyIff(hc: HealthCheck, http: nat -> HttpAttempt, i: nat)
    ensures GateFrom(hc, http, i).outcome == Healthy <==>
      Known(hc.kind) && exists k :: i <= k < hc.retries && ProbeSucceeds(hc, http, k)
    decreases if i < hc.retries then hc.retries - i else 0
  {
    if i < hc.retries && Known(hc.kind) && !ProbeSucceeds(hc, http, i) {
      GateFromHealthyIff(hc, http, i + 1);
      if exists k :: i <= k < hc.retries && ProbeSucceeds(hc, http, k) {
        var k :| i <= k < hc.retries && ProbeSucceeds(hc, http, k);
        assert k != i;
      }
    }
  }

  /** The gate passes exactly when the kind is recognised and some allowed attempt succeeds. */
  lemma GateHealthyIff(hc: HealthCheck, http: nat -> HttpAttempt)
    ensures Gate(hc, http).outcome == Healthy <==>
      Known(hc.kind) && exists k :: 0 <= k < hc.retries && ProbeSucceeds(hc, http, k)
  {
    GateFromHealthyIff(hc, http, 0);
  }

  /**
   * The retry loop itself: for up to `retries` attempts, probe according to
   * the kind (failing at once on an unrecognised kind), return as soon as a
   * probe succeeds, and otherwise sleep `interval` before the next attempt.
   */
  method WaitCheckHealth(hc: HealthCheck, http: nat -> HttpAttempt)
    returns (outcome: GateOutcome, trace: seq<GateEvent>)
    ensures GateRun(outcome, trace) == Gate(hc, http)
  {
    trace := [];
    var i: nat := 0;
    while i < hc.retries
      invariant trace == FailedRounds(i, hc.interval)
      invariant i == 0 || (Known(hc.kind) && i <= hc.retries)
      invariant forall j :: 0 <= j < i ==> !ProbeSucceeds(hc, http, j)
      decreases hc.retries - i
    {
      var err: Option<ProbeError>;
      if hc.kind == HTTP {
        err := CheckHealthHTTP(http(i));
      } else if hc.kind == TCP {
        err := CheckHealthTCP(hc);
      } else {
        return UnknownType(hc.kind), trace;
      }
      trace := trace + [Probe(i)];
      if err.None? {
        GateFirstSuccess(hc, http, i);
        return Healthy, trace;
      }
      trace := trace + [Sleep(hc.interval)];
      i := i + 1;
    }
    if 0 < hc.retries {
      GateAllFail(hc, http);
    }
    return RetryCountExceeded, trace;
  }
}
