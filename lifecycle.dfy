/**
 * The supervisor's run: start the pre-exec process, gate on its health when a
 * health check is configured, start the main process, wait for the main
 * process or the cancellation of the context, and then stop the pre-exec
 * process with SIGTERM.
 *
 * Every effect on the operating system is an input (`Environment`): whether
 * each start succeeds, what the health probes meet, which arm of the final
 * select wins, whether the pre-exec handle is still there and whether the
 * signal fails. A run returns its result and the trace of what it did.
 */
module Lifecycle {
  import opened Health

  /** A command line: the executable followed by its arguments. */
  datatype Process = Process(command: seq<string>)

  datatype PreExec = PreExec(process: Process, healthCheck: Option<HealthCheck>)

  datatype ProcessManager = ProcessManager(preExec: PreExec, main: Process)

  /** The arm of the final select that wins the race. */
  datatype SelectArm =
    | MainExited(failed: bool)   // the main process was reaped, with or without an error
    | ContextDone                // the context was cancelled from outside

  /** What the operating system and the network do during one run. */
  datatype Environment = Environment(
    preExecStarts: bool,
    probes: nat -> HttpAttempt,
    mainStarts: bool,
    arm: SelectArm,
    preExecHandleGone: bool,     // the pre-exec process handle reads as nil at teardown
    signalFails: bool)

  /** The steps of a run that can be observed. */
  datatype RunEvent =
    | StartPreExec                                        // the pre-exec start is attempted
    | HealthGate(outcome: GateOutcome, steps: seq<GateEvent>)
    | StartMain                                           // the main start is attempted
    | Cancel                                              // the explicit cancel after main succeeded
    | SigTerm                                             // SIGTERM is sent to the pre-exec process
    | DeferredCancel                                      // the deferred cancel, on every way out

  /** How a run ends: a returned error (or none), or a panic on an empty command. */
  datatype RunResult =
    | NoError
    | PreExecStartFailed
    | HealthWaitFailed(cause: GateOutcome)
    | MainStartFailed
    | MainWaitFailed
    | SigTermFailed
    | EmptyCommandPanic

  /** The position of each step in the lifecycle. */
  function Rank(e: RunEvent): nat {
    match e
    case StartPreExec => 0
    case HealthGate(_, _) => 1
    case StartMain => 2
    case Cancel => 3
    case SigTerm => 4
    case DeferredCancel => 5
  }

  /** The steps occur in lifecycle order, each at most once. */
  predicate InLifecycleOrder(t: seq<RunEvent>) {
    forall i, j :: 0 <= i < j < |t| ==> Rank(t[i]) < Rank(t[j])
  }

  predicate HasHealthGate(t: seq<RunEvent>) {
    exists e :: e in t && e.HealthGate?
  }

  function Occurrences(t: seq<RunEvent>, e: RunEvent): nat {
    if t == [] then 0 else Occurrences(t[1..], e) + (if t[0] == e then 1 else 0)
  }

  /** An ordered trace holds every step at most once. */
  lemma {:induction false} OrderedAtMostOnce(t: seq<RunEvent>, e: RunEvent)
    requires InLifecycleOrder(t)
    ensures Occurrences(t, e) == if e in t then 1 else 0
  {
    if t != [] {
      assert InLifecycleOrder(t[1..]) by {
        forall i, j | 0 <= i < j < |t[1..]| ensures Rank(t[1..][i]) < Rank(t[1..][j]) {
          assert t[1..][i] == t[i + 1] && t[1..][j] == t[j + 1];
        }
      }
      OrderedAtMostOnce(t[1..], e);
      if t[0] == e {
        forall j | 0 <= j < |t[1..]| ensures t[1..][j] != e {
          assert Rank(t[0]) < Rank(t[j + 1]);
        }
      }
    }
  }

  predicate PreExecStarted(pm: ProcessManager, env: Environment) {
    |pm.preExec.process.command| > 0 && env.preExecStarts
  }

  /** Either no health check is configured or the health gate passes. */
  predicate GatePasses(pm: ProcessManager, env: Environment) {
    pm.preExec.healthCheck.None? || Gate(pm.preExec.healthCheck.value, env.probes).outcome == Healthy
  }

  /** The run gets as far as attempting to start the main process. */
  predicate ReachesMain(pm: ProcessManager, env: Environment) {
    PreExecStarted(pm, env) && GatePasses(pm, env) && |pm.main.command| > 0
  }

  /** The main process started and then exited without an error before any cancellation. */
  predicate MainSucceeded(pm: ProcessManager, env: Environment) {
    ReachesMain(pm, env) && env.mainStarts && env.arm == MainExited(false)
  }

  /** The run sends SIGTERM to the pre-exec process. */
  predicate SignalsPreExec(pm: ProcessManager, env: Environment) {
    MainSucceeded(pm, env) && !env.preExecHandleGone
  }

  function Step(happens: bool, e: RunEvent): seq<RunEvent> {
    if happens then [e] else []
  }

  function GateStep(pm: ProcessManager, env: Environment): seq<RunEvent> {
    if PreExecStarted(pm, env) && pm.preExec.healthCheck.Some? then
      var g := Gate(pm.preExec.healthCheck.value, env.probes);
      [HealthGate(g.outcome, g.trace)]
    else []
  }

  /**
   * The trace of a run, step by step: each step of the lifecycle appears
   * exactly when the run gets that far, and the deferred cancel always ends it.
   */
  function RunTrace(pm: ProcessManager, env: Environment): seq<RunEvent> {
    Step(|pm.preExec.process.command| > 0, StartPreExec) +
    (GateStep(pm, env) +
     (Step(ReachesMain(pm, env), StartMain) +
      (Step(MainSucceeded(pm, env), Cancel) +
       (Step(SignalsPreExec(pm, env), SigTerm) +
        [DeferredCancel]))))
  }

  /** The result of a run: the first step that fails decides it. */
  function RunOutcome(pm: ProcessManager, env: Environment): RunResult {
    if |pm.preExec.process.command| == 0 then EmptyCommandPanic
    else if !env.preExecStarts then PreExecStartFailed
    else if !GatePasses(pm, env) then HealthWaitFailed(Gate(pm.preExec.healthCheck.value, env.probes).outcome)
    else if |pm.main.command| == 0 then EmptyCommandPanic
    else if !env.mainStarts then MainStartFailed
    else if env.arm == MainExited(true) then MainWaitFailed
    else if SignalsPreExec(pm, env) && env.signalFails then SigTermFailed
    else NoError
  }

  /** Putting a step of lower rank than everything after it in front keeps the order. */
  lemma StepOrdered(happens: bool, e: RunEvent, t: seq<RunEvent>)
    requires InLifecycleOrder(t)
    requires forall i :: 0 <= i < |t| ==> Rank(e) < Rank(t[i])
    ensures InLifecycleOrder(Step(happens, e) + t)
    ensures forall i :: 0 <= i < |Step(happens, e) + t| ==> Rank(e) <= Rank((Step(happens, e) + t)[i])
  {
  }

  /** Whatever steps are taken, taking them in lifecycle order gives an ordered trace. */
  lemma ChainOrdered(preExec: bool, gate: seq<RunEvent>, main: bool, cancel: bool, signal: bool)
    requires |gate| <= 1 && forall i :: 0 <= i < |gate| ==> gate[i].HealthGate?
    ensures InLifecycleOrder(
      Step(preExec, StartPreExec) + (gate + (Step(main, StartMain) + (Step(cancel, Cancel) +
      (Step(signal, SigTerm) + [DeferredCancel])))))
  {
    var t4 := Step(signal, SigTerm) + [DeferredCancel];
    StepOrdered(signal, SigTerm, [DeferredCancel]);
    var t3 := Step(cancel, Cancel) + t4;
    StepOrdered(cancel, Cancel, t4);
    var t2 := Step(main, StartMain) + t3;
    StepOrdered(main, StartMain, t3);
    var t1 := gate + t2;
    if gate != [] {
      assert gate == Step(true, gate[0]);
      StepOrdered(true, gate[0], t2);
    }
    StepOrdered(preExec, StartPreExec, t1);
  }

  /** The trace of every run follows the lifecycle order, each step at most once. */
  lemma RunTraceOrdered(pm: ProcessManager, env: Environment)
    ensures InLifecycleOrder(RunTrace(pm, env))
  {
    ChainOrdered(|pm.preExec.process.command| > 0, GateStep(pm, env), ReachesMain(pm, env),
      MainSucceeded(pm, env), SignalsPreExec(pm, env));
  }

  /** Which steps a run takes: each one exactly when the run gets that far. */
  lemma RunTraceSteps(pm: ProcessManager, env: Environment)
    ensures StartPreExec in RunTrace(pm, env) <==> |pm.preExec.process.command| > 0
    ensures HasHealthGate(RunTrace(pm, env)) <==> PreExecStarted(pm, env) && pm.preExec.healthCheck.Some?
    ensures forall e | e in RunTrace(pm, env) && e.HealthGate? ::
      pm.preExec.healthCheck.Some? &&
      GateRun(e.outcome, e.steps) == Gate(pm.preExec.healthCheck.value, env.probes)
    ensures StartMain in RunTrace(pm, env) <==> ReachesMain(pm, env)
    ensures Cancel in RunTrace(pm, env) <==> MainSucceeded(pm, env)
    ensures SigTerm in RunTrace(pm, env) <==> SignalsPreExec(pm, env)
    ensures RunTrace(pm, env)[|RunTrace(pm, env)| - 1] == DeferredCancel
  {
    var gate := GateStep(pm, env);
    ChainMembers(|pm.preExec.process.command| > 0, gate, ReachesMain(pm, env),
      MainSucceeded(pm, env), SignalsPreExec(pm, env));
    if PreExecStarted(pm, env) && pm.preExec.healthCheck.Some? {
      assert gate[0] in RunTrace(pm, env);
    }
  }

  /** Membership in a trace built in lifecycle order. */
  lemma ChainMembers(preExec: bool, gate: seq<RunEvent>, main: bool, cancel: bool, signal: bool)
    requires forall i :: 0 <= i < |gate| ==> gate[i].HealthGate?
    ensures forall x ::
      x in Step(preExec, StartPreExec) + (gate + (Step(main, StartMain) + (Step(cancel, Cancel) +
        (Step(signal, SigTerm) + [DeferredCancel])))) <==>
      (preExec && x == StartPreExec) || x in gate || (main && x == StartMain) ||
      (cancel && x == Cancel) || (signal && x == SigTerm) || x == DeferredCancel
  {
  }

  /**
   * SIGTERM reaches the pre-exec process at most once, only after the
   * explicit cancel, and only when the main process exited without an
   * error and the pre-exec handle is still there.
   */
  lemma RunSignalsAtMostOnce(pm: ProcessManager, env: Environment)
    ensures Occurrences(RunTrace(pm, env), SigTerm) <= 1
    ensures SigTerm in RunTrace(pm, env) <==>
      ReachesMain(pm, env) && env.mainStarts && env.arm == MainExited(false) && !env.preExecHandleGone
    ensures forall i, j ::
      (0 <= i < |RunTrace(pm, env)| && 0 <= j < |RunTrace(pm, env)| &&
       RunTrace(pm, env)[i] == Cancel && RunTrace(pm, env)[j] == SigTerm) ==> i < j
    ensures SigTerm in RunTrace(pm, env) ==> Cancel in RunTrace(pm, env)
  {
    RunTraceOrdered(pm, env);
    RunTraceSteps(pm, env);
    OrderedAtMostOnce(RunTrace(pm, env), SigTerm);
  }

  /**
   * A failing step ends the run: nothing after it happens but the deferred
   * cancel. In particular the main process never starts when the pre-exec
   * start or the health gate fails, and a main error or a cancelled context
   * returns without any signal.
   */
  lemma RunFailureStopsEarly(pm: ProcessManager, env: Environment)
    ensures RunOutcome(pm, env) == PreExecStartFailed ==> RunTrace(pm, env) == [StartPreExec, DeferredCancel]
    ensures RunOutcome(pm, env).HealthWaitFailed? ==>
      RunOutcome(pm, env).cause != Healthy &&
      RunTrace(pm, env) == [StartPreExec] + GateStep(pm, env) + [DeferredCancel] &&
      GateStep(pm, env) == [HealthGate(RunOutcome(pm, env).cause, Gate(pm.preExec.healthCheck.value, env.probes).trace)]
    ensures (RunOutcome(pm, env) == MainStartFailed || RunOutcome(pm, env) == MainWaitFailed ||
             (ReachesMain(pm, env) && env.mainStarts && env.arm == ContextDone)) ==>
      RunTrace(pm, env) == [StartPreExec] + GateStep(pm, env) + [StartMain, DeferredCancel]
    ensures RunOutcome(pm, env) == EmptyCommandPanic ==>
      StartMain !in RunTrace(pm, env) && SigTerm !in RunTrace(pm, env)
  {
  }

  /**
   * The result of a run, condition by condition: a signal error is the
   * result exactly when the signal was sent and failed; no error is returned
   * exactly when the main process started and either the context was
   * cancelled, or main exited cleanly and teardown did not fail.
   */
  lemma RunResultCases(pm: ProcessManager, env: Environment)
    ensures RunOutcome(pm, env) == SigTermFailed <==> SigTerm in RunTrace(pm, env) && env.signalFails
    ensures RunOutcome(pm, env) == NoError <==>
      ReachesMain(pm, env) && env.mainStarts &&
      (env.arm == ContextDone ||
       (env.arm == MainExited(false) && (env.preExecHandleGone || !env.signalFails)))
    ensures RunOutcome(pm, env) == MainWaitFailed <==>
      ReachesMain(pm, env) && env.mainStarts && env.arm == MainExited(true)
    ensures RunOutcome(pm, env) == EmptyCommandPanic <==>
      |pm.preExec.process.command| == 0 ||
      (PreExecStarted(pm, env) && GatePasses(pm, env) && |pm.main.command| == 0)
  {
  }

  /**
   * Without a health check, a run whose processes all behave starts pre-exec,
   * then main, cancels and signals pre-exec exactly once.
   */
  lemma RunWithoutHealthCheck(pm: ProcessManager, env: Environment)
    requires pm.preExec.healthCheck.None?
    requires |pm.preExec.process.command| > 0 && |pm.main.command| > 0
    requires env.preExecStarts && env.mainStarts && env.arm == MainExited(false)
    requires !env.preExecHandleGone
    ensures RunTrace(pm, env) == [StartPreExec, StartMain, Cancel, SigTerm, DeferredCancel]
    ensures Occurrences(RunTrace(pm, env), SigTerm) == 1
    ensures RunOutcome(pm, env) == if env.signalFails then SigTermFailed else NoError
  {
    RunSignalsAtMostOnce(pm, env);
    RunTraceOrdered(pm, env);
    OrderedAtMostOnce(RunTrace(pm, env), SigTerm);
  }

  /**
   * One run of the supervisor, step by step, with an early return at each
   * failure; every return runs the deferred cancel last.
   */
  method Run(pm: ProcessManager, env: Environment) returns (result: RunResult, trace: seq<RunEvent>)
    ensures result == RunOutcome(pm, env)
    ensures trace == RunTrace(pm, env)
  {
    trace := [];
    if |pm.preExec.process.command| == 0 {
      return EmptyCommandPanic, trace + [DeferredCancel];
    }
    trace := trace + [StartPreExec];
    if !env.preExecStarts {
      return PreExecStartFailed, trace + [DeferredCancel];
    }
    if pm.preExec.healthCheck.Some? {
      var outcome, steps := WaitCheckHealth(pm.preExec.healthCheck.value, env.probes);
      trace := trace + [HealthGate(outcome, steps)];
      if outcome != Healthy {
        return HealthWaitFailed(outcome), trace + [DeferredCancel];
      }
    }
    if |pm.main.command| == 0 {
      return EmptyCommandPanic, trace + [DeferredCancel];
    }
    trace := trace + [StartMain];
    if !env.mainStarts {
      return MainStartFailed, trace + [DeferredCancel];
    }
    match env.arm
    case ContextDone =>
      return NoError, trace + [DeferredCancel];
    case MainExited(failed) =>
      if failed {
        return MainWaitFailed, trace + [DeferredCancel];
      }
      trace := trace + [Cancel];
    if env.preExecHandleGone {
      return NoError, trace + [DeferredCancel];
    }
    trace := trace + [SigTerm];
    if env.signalFails {
      return SigTermFailed, trace + [DeferredCancel];
    }
    return NoError, trace + [DeferredCancel];
  }
}
