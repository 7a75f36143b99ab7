/** One attempt from dispatch to settlement: controller, runner and sandbox under every interleaving
    of spawning, stopping and killing. */
module Attempts {
  import opened Rows

  datatype Cause = TimedOut | CancelAsked | Shutdown | Lost

  /** How a runner ends. A failure without metadata is one whose type name cannot be stored. */
  datatype Result = Value(data: string) | Failure(final: bool, metadata: Option<string>) | SelfCancelled

  datatype Runner = NoRunner | NotStarted | Spawning | Signalling | Working | Done(result: Result)

  /** The truth about the operating system's processes. */
  datatype Sandbox = Never | Starting | Alive | Dead

  /** Where the controller is suspended. */
  datatype Phase =
    | Created | Renewing | Waiting | Stopping | Grace | Killing | KillWait | CancelWait | Verifying
    | Completing | Ending | Settled

  datatype Submission = Submission(kind: Kind, data: Option<string>)

  datatype Attempt = Attempt(
    isProcess: bool, phase: Phase, cause: Option<Cause>, stopped: bool, fatal: bool,
    runner: Runner, hasProc: bool, stopAsked: bool, sandbox: Sandbox, submitted: seq<Submission>)

  function Fresh(isProcess: bool): Attempt {
    Attempt(isProcess, Created, None, false, false, NoRunner, false, false, Never, [])
  }

  datatype Step =
    | Stop(why: Cause)
    | Dispatch(late: bool)
    | RenewalAnswers(confirmed: bool)
    | RunnerStarts(refusal: Option<Result>)
    | SpawnEnds(failure: Option<Result>)
    | SignalReturns
    | RunnerEnds(result: Result)
    | SandboxDies
    | WaitEnds
    | StopReturns
    | GraceEnds
    | KillReturns(verified: bool)
    | KillWaitEnds
    | CancelWaitEnds
    | VerifyReturns(verified: bool)
    | CompletionAnswers
    | ControllerCancelled
    | EndingEnds

  const TIMEOUT_ERROR := "AttemptTimeout"
  const SELF_CANCELLED := "handler cancelled itself"

  // ---------------------------------------------------------------------------- what is submitted

  /** `_finish_completed`: the execution ended on its own. */
  function OfResult(result: Result): Option<Submission> {
    match result
    case Value(data) => Some(Submission(Succeed, Some(data)))
    case Failure(final, metadata) =>
      if metadata.None? then None else Some(Submission(if final then FailFinal else Fail, metadata))
    case SelfCancelled => Some(Submission(Fail, Some(SELF_CANCELLED)))
  }

  /** `_finish_stopped`: the recorded cause alone decides. */
  function OfCause(cause: Option<Cause>): Option<Submission> {
    match cause
    case Some(TimedOut) => Some(Submission(Fail, Some(TIMEOUT_ERROR)))
    case Some(CancelAsked) => Some(Submission(Kind.Cancel, None))
    case Some(Shutdown) => Some(Submission(Release, None))
    case _ => None
  }

  function Submit(a: Attempt, what: Submission): Attempt { a.(submitted := a.submitted + [what], phase := Completing) }

  function Finish(a: Attempt): Attempt {
    var outcome :=
      if a.stopped then OfCause(a.cause)
      else if a.cause == Some(Lost) || !a.runner.Done? then None
      else OfResult(a.runner.result);
    if outcome.Some? then Submit(a, outcome.value) else a.(phase := Ending)
  }

  /** A process attempt first proves its sandbox dead. */
  function Conclude(a: Attempt): Attempt { if a.isProcess then a.(phase := Verifying) else Finish(a) }

  function StartRunner(a: Attempt): Attempt { a.(phase := Waiting, runner := NotStarted) }

  /** What kill() can answer: yes only when no spawn is in flight and its process, if any, is dead. */
  function Killed(a: Attempt): Attempt { if a.hasProc then a.(sandbox := Dead) else a }

  predicate CanVerify(a: Attempt) { !a.isProcess || !a.runner.Spawning? }

  // -------------------------------------------------------------------------------------- runner

  function RunnerStep(a: Attempt, step: Step): Attempt {
    match step
    case RunnerStarts(refusal) =>
      if !a.runner.NotStarted? then a
      else if refusal.Some? then
        if a.isProcess && refusal.value.Value? then a else a.(runner := Done(refusal.value))
      else if a.isProcess then a.(runner := Spawning, sandbox := Starting)
      else a.(runner := Working)
    case SpawnEnds(failure) =>
      if !a.runner.Spawning? then a
      else if failure.Some? then
        if failure.value.Value? then a else a.(runner := Done(failure.value), sandbox := Dead)
      else a.(runner := if a.stopAsked then Signalling else Working, hasProc := true, sandbox := Alive)
    case SignalReturns => if a.runner.Signalling? then a.(runner := Working) else a
    case RunnerEnds(result) => if a.runner.Working? || a.runner.Signalling? then a.(runner := Done(result)) else a
    case SandboxDies => if a.sandbox.Alive? then a.(sandbox := Dead) else a
    case _ => a
  }

  // ---------------------------------------------------------------------------------- controller

  function OpeningStep(a: Attempt, step: Step): Attempt {
    match step
    case Dispatch(late) => if !a.phase.Created? then a else if late then a.(phase := Renewing) else StartRunner(a)
    case RenewalAnswers(confirmed) =>
      if !a.phase.Renewing? then a
      else if a.cause == Some(Lost) then a.(phase := Settled)
      else if !confirmed then Submit(a, Submission(Release, None))
      else StartRunner(a)
    case WaitEnds =>
      // the runner's first step is queued before anything can end this wait
      if !a.phase.Waiting? || a.runner.NotStarted? then a
      else if a.runner.Done? then Conclude(a)
      else a.(phase := Stopping, stopped := true, stopAsked := true,
              cause := if a.cause.None? then Some(TimedOut) else a.cause)
    case _ => a
  }

  function StopProtocolStep(a: Attempt, step: Step): Attempt {
    match step
    case StopReturns => if a.phase.Stopping? then a.(phase := Grace) else a
    case GraceEnds =>
      if !a.phase.Grace? then a else if a.runner.Done? then Conclude(a) else a.(phase := Killing)
    case KillReturns(verified) =>
      if !a.phase.Killing? || (verified && !CanVerify(a)) then a
      else if verified then Killed(a).(phase := KillWait)
      else a.(phase := KillWait)
    case KillWaitEnds =>
      if !a.phase.KillWait? then a
      else if a.runner.Done? then Conclude(a)
      else if a.isProcess then a.(phase := CancelWait)
      else Finish(a.(fatal := true))
    case CancelWaitEnds => if a.phase.CancelWait? then Conclude(a) else a
    case VerifyReturns(verified) =>
      if a.phase.Verifying? && verified && CanVerify(a) then Finish(Killed(a)) else a
    case _ => a
  }

  function ClosingStep(a: Attempt, step: Step): Attempt {
    match step
    case CompletionAnswers =>
      if a.phase.Completing? then a.(phase := if a.runner.NoRunner? then Settled else Ending) else a
    case ControllerCancelled =>
      if a.phase.Settled? || a.runner.NotStarted? then a
      else a.(phase := if a.runner.NoRunner? || a.phase.Ending? then Settled else Ending)
    case EndingEnds => if a.phase.Ending? then a.(phase := Settled) else a
    case _ => a
  }

  function Next(a: Attempt, step: Step): Attempt {
    match step
    case Stop(why) => if a.cause.None? then a.(cause := Some(why)) else a
    case Dispatch(_) => OpeningStep(a, step)
    case RenewalAnswers(_) => OpeningStep(a, step)
    case WaitEnds => OpeningStep(a, step)
    case CompletionAnswers => ClosingStep(a, step)
    case ControllerCancelled => ClosingStep(a, step)
    case EndingEnds => ClosingStep(a, step)
    case RunnerStarts(_) => RunnerStep(a, step)
    case SpawnEnds(_) => RunnerStep(a, step)
    case SignalReturns => RunnerStep(a, step)
    case RunnerEnds(_) => RunnerStep(a, step)
    case SandboxDies => RunnerStep(a, step)
    case _ => StopProtocolStep(a, step)
  }

  function Exec(isProcess: bool, steps: seq<Step>): Attempt
    decreases |steps|
  {
    if steps == [] then Fresh(isProcess) else Next(Exec(isProcess, steps[..|steps| - 1]), steps[|steps| - 1])
  }

  // --------------------------------------------------------------------------- the invariant

  predicate Quiet(a: Attempt) { a.sandbox.Never? || a.sandbox.Dead? }

  /** Runner, process handle and processes belong together. */
  predicate RunnerOk(a: Attempt) {
    && (a.runner.Spawning? <==> a.sandbox.Starting?)
    && (a.sandbox.Alive? ==> a.hasProc)
    && (a.hasProc ==> !a.sandbox.Never? && !a.sandbox.Starting?)
    && (a.isProcess && (a.runner.Working? || a.runner.Signalling?) ==> a.hasProc)
    && (a.runner.NoRunner? || a.runner.NotStarted? ==> a.sandbox.Never? && !a.hasProc)
    && (!a.isProcess ==> a.sandbox.Never?)
    && (a.isProcess && a.runner.Done? && a.runner.result.Value? ==> a.hasProc)
  }

  predicate PhaseOk(a: Attempt) {
    && (a.phase.Created? || a.phase.Renewing? ==> a.runner.NoRunner?)
    && (a.runner.NotStarted? ==> a.phase.Waiting?)
    && (a.stopped ==> a.cause.Some?)
    && (a.phase.Stopping? || a.phase.Grace? || a.phase.Killing? || a.phase.KillWait? || a.phase.CancelWait?
        ==> a.stopped && !a.runner.NoRunner?)
    && (a.phase.CancelWait? ==> a.isProcess)
    && (a.phase.Waiting? ==> !a.stopped && !a.runner.NoRunner?)
    && (a.phase.Verifying? ==> a.isProcess && !a.runner.NoRunner? && (a.stopped || a.runner.Done?))
    && (a.runner.NoRunner? ==> !a.stopped)
  }

  predicate SubmittedOk(a: Attempt) {
    && |a.submitted| <= 1
    && (a.submitted != [] ==> a.phase.Completing? || a.phase.Ending? || a.phase.Settled?)
    && (a.submitted != [] && a.isProcess ==> Quiet(a))
    && (a.submitted != [] && a.stopped ==> OfCause(a.cause) == Some(a.submitted[0]))
    && (a.submitted != [] && a.runner.NoRunner? ==> a.submitted[0] == Submission(Release, None))
    && (a.submitted != [] && !a.stopped && !a.runner.NoRunner? ==>
          a.runner.Done? && OfResult(a.runner.result) == Some(a.submitted[0]))
  }

  predicate Inv(a: Attempt) { RunnerOk(a) && PhaseOk(a) && SubmittedOk(a) }

  lemma FinishKeepsInv(a: Attempt)
    requires RunnerOk(a) && a.submitted == [] && !a.runner.NoRunner? && !a.runner.NotStarted?
    requires (a.isProcess ==> Quiet(a)) && (a.stopped ==> a.cause.Some?)
    ensures Inv(Finish(a))
  {
  }

  lemma ConcludeKeepsInv(a: Attempt)
    requires RunnerOk(a) && a.submitted == [] && !a.runner.NoRunner? && !a.runner.NotStarted?
    requires (a.stopped ==> a.cause.Some?) && (a.stopped || a.runner.Done?)
    ensures Inv(Conclude(a))
  {
    if !a.isProcess { FinishKeepsInv(a); }
  }

  lemma OpeningKeepsInv(a: Attempt, step: Step)
    requires Inv(a)
    ensures Inv(OpeningStep(a, step))
  {
    if step.WaitEnds? && a.phase.Waiting? && a.runner.Done? { hide Conclude, Finish; ConcludeKeepsInv(a); }
  }

  lemma VerifyKeepsInv(a: Attempt)
    requires Inv(a) && a.phase.Verifying? && CanVerify(a)
    ensures Inv(Finish(Killed(a)))
  {
    FinishKeepsInv(Killed(a));
  }

  lemma StopProtocolKeepsInv(a: Attempt, step: Step)
    requires Inv(a)
    ensures Inv(StopProtocolStep(a, step))
  {
    hide Conclude, Finish;
    match step
    case GraceEnds => if a.phase.Grace? && a.runner.Done? { ConcludeKeepsInv(a); }
    case KillWaitEnds =>
      if a.phase.KillWait? {
        if a.runner.Done? { ConcludeKeepsInv(a); }
        else if !a.isProcess { FinishKeepsInv(a.(fatal := true)); }
      }
    case CancelWaitEnds => if a.phase.CancelWait? { ConcludeKeepsInv(a); }
    case VerifyReturns(verified) => if a.phase.Verifying? && verified && CanVerify(a) { VerifyKeepsInv(a); }
    case _ =>
  }

  lemma ClosingKeepsInv(a: Attempt, step: Step)
    requires Inv(a)
    ensures Inv(ClosingStep(a, step))
  {
  }

  lemma RunnerStepKeepsInv(a: Attempt, step: Step)
    requires Inv(a)
    ensures Inv(RunnerStep(a, step))
  {
  }

  lemma StepKeepsInv(a: Attempt, step: Step)
    requires Inv(a)
    ensures Inv(Next(a, step))
  {
    OpeningKeepsInv(a, step);
    StopProtocolKeepsInv(a, step);
    ClosingKeepsInv(a, step);
    RunnerStepKeepsInv(a, step);
    hide OpeningStep, StopProtocolStep, ClosingStep, RunnerStep;
  }

  lemma {:induction false} RunsKeepInv(isProcess: bool, steps: seq<Step>)
    ensures Inv(Exec(isProcess, steps)) && Exec(isProcess, steps).isProcess == isProcess
    decreases |steps|
  {
    hide Inv, Next;
    if steps == [] {
      FreshIsFine(isProcess);
    }
    if steps != [] {
      RunsKeepInv(isProcess, steps[..|steps| - 1]);
      StepKeepsInv(Exec(isProcess, steps[..|steps| - 1]), steps[|steps| - 1]);
      StepSettles(Exec(isProcess, steps[..|steps| - 1]), steps[|steps| - 1]);
    }
  }

  lemma FreshIsFine(isProcess: bool)
    ensures Inv(Fresh(isProcess))
  {
  }

  // ------------------------------------------------------------------------------- the theorems

  /** The execution ended before any stop was observed. */
  predicate EndedItself(a: Attempt) { !a.stopped && a.runner.Done? }

  predicate FailedItself(a: Attempt, final: bool) {
    EndedItself(a) && a.runner.result.Failure? && a.runner.result.final == final && a.runner.result.metadata.Some?
  }

  predicate StoppedBy(a: Attempt, cause: Cause) { a.stopped && a.cause == Some(cause) }

  /** Which outcome is whose: read from left to right, why an attempt submitted this kind; from right to
      left, what it submits then. */
  predicate Accounted(a: Attempt, out: Submission) {
    && (out.kind.Succeed? <==> EndedItself(a) && a.runner.result.Value?)
    && (out.kind.FailFinal? <==> FailedItself(a, true))
    && (out.kind.Fail? <==> StoppedBy(a, TimedOut) || FailedItself(a, false) || (EndedItself(a) && a.runner.result.SelfCancelled?))
    && (out.kind.Cancel? <==> StoppedBy(a, CancelAsked))
    && (out.kind.Release? <==> StoppedBy(a, Shutdown) || a.runner.NoRunner?)
    && out.data ==
         if out.kind.Cancel? || out.kind.Release? then None
         else if a.stopped then Some("AttemptTimeout")
         else match a.runner.result
           case Value(data) => Some(data)
           case Failure(_, metadata) => metadata
           case SelfCancelled => Some("handler cancelled itself")
  }

  /** At most one outcome, and which: a release when nothing could start; what the cause says when the
      runner was still going as the stop was observed, whatever it returned later; otherwise the
      runner's own value, failure or self-cancellation. A process attempt submits only while its sandbox
      is verified dead or was never spawned. */
  lemma AttemptSettlement(isProcess: bool, steps: seq<Step>)
    ensures
      var a := Exec(isProcess, steps);
      && |a.submitted| <= 1
      && (a.submitted != [] ==> Accounted(a, a.submitted[0]))
      && (a.submitted != [] && isProcess ==> a.sandbox.Never? || a.sandbox.Dead?)
      && (a.submitted != [] && isProcess && a.submitted[0].kind.Succeed? ==> a.hasProc)
  {
    RunsKeepInv(isProcess, steps);
  }

  /** Everything that is decided stays decided: the cause, that a stop was observed, what the runner
      returned, what was submitted; and nothing is spawned after a submission. */
  predicate Settles(a: Attempt, b: Attempt) {
    && a.isProcess == b.isProcess
    && (a.cause.Some? ==> b.cause == a.cause)
    && (a.stopped ==> b.stopped)
    && (a.runner.Done? ==> b.runner == a.runner)
    && (a.submitted != [] ==> b.submitted == a.submitted)
    && (a.submitted != [] && a.isProcess ==> b.sandbox == a.sandbox)
    && (a.cause == Some(Lost) && a.submitted == [] ==> b.submitted == [])
  }

  lemma OpeningSettles(a: Attempt, step: Step)
    requires Inv(a)
    ensures Settles(a, OpeningStep(a, step))
  {
  }

  lemma StopProtocolSettles(a: Attempt, step: Step)
    requires Inv(a)
    ensures Settles(a, StopProtocolStep(a, step))
  {
  }

  lemma ClosingSettles(a: Attempt, step: Step)
    requires Inv(a)
    ensures Settles(a, ClosingStep(a, step))
  {
  }

  lemma RunnerSettles(a: Attempt, step: Step)
    requires Inv(a)
    ensures Settles(a, RunnerStep(a, step))
  {
  }

  lemma StepSettles(a: Attempt, step: Step)
    requires Inv(a)
    ensures Settles(a, Next(a, step))
  {
    OpeningSettles(a, step);
    StopProtocolSettles(a, step);
    ClosingSettles(a, step);
    RunnerSettles(a, step);
    hide OpeningStep, StopProtocolStep, ClosingStep, RunnerStep, Inv;
  }

  lemma {:induction false} DecisionsAreFinal(isProcess: bool, steps: seq<Step>, n: nat)
    requires n <= |steps|
    ensures Settles(Exec(isProcess, steps[..n]), Exec(isProcess, steps))
    decreases |steps|
  {
    if n < |steps| {
      var before := steps[..|steps| - 1];
      assert before[..n] == steps[..n];
      DecisionsAreFinal(isProcess, before, n);
      RunsKeepInv(isProcess, before);
      StepSettles(Exec(isProcess, before), steps[|steps| - 1]);
      hide Inv, Next;
    } else {
      assert steps[..n] == steps;
    }
  }

  /** The first recorded cause is final, and so is the moment a stop was observed. A handler still
      running then never yields its own result, whatever it later returns. */
  lemma StoppedNeverSucceeds(isProcess: bool, steps: seq<Step>, n: nat)
    requires n < |steps| && steps[n] == WaitEnds
    requires var a := Exec(isProcess, steps[..n]); a.phase.Waiting? && !a.runner.Done? && !a.runner.NotStarted?
    ensures
      var b := Exec(isProcess, steps);
      && b.stopped && b.cause == (if Exec(isProcess, steps[..n]).cause.Some? then Exec(isProcess, steps[..n]).cause else Some(TimedOut))
      && forall x | x in b.submitted :: !x.kind.Succeed? && !x.kind.FailFinal? && b.cause != Some(Lost)
  {
    hide Exec, Next, RunnerOk;
    ExecAt(isProcess, steps, n);
    TheWaitIsStopped(Exec(isProcess, steps[..n]));
    DecisionsAreFinal(isProcess, steps, n + 1);
    RunsKeepInv(isProcess, steps);
  }

  lemma ExecAt(isProcess: bool, steps: seq<Step>, n: nat)
    requires n < |steps|
    ensures Exec(isProcess, steps[..n + 1]) == Next(Exec(isProcess, steps[..n]), steps[n])
  {
    assert steps[..n + 1][..n] == steps[..n];
    hide Next;
  }

  lemma TheWaitIsStopped(a: Attempt)
    requires a.phase.Waiting? && !a.runner.Done? && !a.runner.NotStarted?
    ensures var b := Next(a, WaitEnds); b.stopped && b.cause == if a.cause.Some? then a.cause else Some(TimedOut)
  {
  }

  /** Once LOST is the cause of an attempt that has submitted nothing, it never submits anything. */
  lemma LostSubmitsNothing(isProcess: bool, steps: seq<Step>, n: nat)
    requires n <= |steps|
    requires Exec(isProcess, steps[..n]).cause == Some(Lost) && Exec(isProcess, steps[..n]).submitted == []
    ensures Exec(isProcess, steps).submitted == []
  {
    DecisionsAreFinal(isProcess, steps, n);
  }

  /** Past its dispatch, without a runner. */
  predicate Idle(a: Attempt) { a.runner.NoRunner? && !a.phase.Created? && !a.phase.Renewing? }

  lemma EndingStaysIdle(a: Attempt, step: Step)
    requires Idle(a)
    ensures Idle(StopProtocolStep(a, step)) && Idle(ClosingStep(a, step))
  {
  }

  lemma OpeningStaysIdle(a: Attempt, step: Step)
    requires Idle(a)
    ensures Idle(OpeningStep(a, step)) && Idle(RunnerStep(a, step))
  {
  }

  lemma StaysIdle(a: Attempt, step: Step)
    requires Idle(a)
    ensures Idle(Next(a, step))
  {
    EndingStaysIdle(a, step);
    OpeningStaysIdle(a, step);
    hide OpeningStep, StopProtocolStep, ClosingStep, RunnerStep;
  }

  /** An attempt past its dispatch without a runner gets none any more. */
  lemma {:induction false} NothingStartsLater(isProcess: bool, steps: seq<Step>, n: nat)
    requires n <= |steps|
    requires Idle(Exec(isProcess, steps[..n]))
    ensures Idle(Exec(isProcess, steps))
    decreases |steps|
  {
    if n < |steps| {
      var before := steps[..|steps| - 1];
      assert before[..n] == steps[..n];
      NothingStartsLater(isProcess, before, n);
      hide Next;
      StaysIdle(Exec(isProcess, before), steps[|steps| - 1]);
    } else {
      assert steps[..n] == steps;
    }
  }

  /** A claim dispatched late runs only if its renewal was confirmed and its lease is not known to be
      lost; otherwise nothing ever runs for it, and it is released unless it is lost. */
  lemma LateDispatchRunsIff(isProcess: bool, steps: seq<Step>, n: nat)
    requires n < |steps| && steps[n].RenewalAnswers? && Exec(isProcess, steps[..n]).phase.Renewing?
    ensures
      var a, b := Exec(isProcess, steps[..n]), Exec(isProcess, steps);
      && (Exec(isProcess, steps[..n + 1]).runner.NotStarted? <==> steps[n].confirmed && a.cause != Some(Lost))
      && (!steps[n].confirmed || a.cause == Some(Lost) ==>
            b.runner.NoRunner? && b.submitted == if a.cause == Some(Lost) then [] else [Submission(Release, None)])
  {
    ExecAt(isProcess, steps, n);
    RunsKeepInv(isProcess, steps[..n]);
    hide Exec, RunnerStep, StopProtocolStep, ClosingStep;
    if !steps[n].confirmed || Exec(isProcess, steps[..n]).cause == Some(Lost) {
      NothingStartsLater(isProcess, steps, n + 1);
      DecisionsAreFinal(isProcess, steps, n + 1);
    }
  }

  /** Nothing runs before its time: an attempt that has a runner was dispatched at once, or late with its
      renewal confirmed while its lease was not known to be lost. */
  lemma {:induction false} RunsOnlyInTime(isProcess: bool, steps: seq<Step>) returns (n: nat)
    requires !Exec(isProcess, steps).runner.NoRunner?
    ensures n < |steps|
    ensures
      var a := Exec(isProcess, steps[..n]);
      || (steps[n] == Dispatch(false) && a.phase.Created?)
      || (steps[n] == RenewalAnswers(true) && a.phase.Renewing? && a.cause != Some(Lost))
    decreases |steps|
  {
    hide Next;
    if steps == [] { NobodyRunsYet(isProcess); }
    var before := steps[..|steps| - 1];
    n := |steps| - 1;
    if !Exec(isProcess, before).runner.NoRunner? {
      n := RunsOnlyInTime(isProcess, before);
      assert before[..n] == steps[..n];
    } else {
      RunsKeepInv(isProcess, before);
      WhatStartsARunner(Exec(isProcess, before), steps[n]);
    }
  }

  lemma NobodyRunsYet(isProcess: bool)
    ensures Exec(isProcess, []).runner.NoRunner?
  {
  }

  lemma WhatStartsARunner(a: Attempt, step: Step)
    requires a.runner.NoRunner? && !Next(a, step).runner.NoRunner? && PhaseOk(a)
    ensures (step == Dispatch(false) && a.phase.Created?) || (step == RenewalAnswers(true) && a.phase.Renewing? && a.cause != Some(Lost))
  {
    hide OfResult, OfCause;
  }

  // --------------------------------------------------------------------------- stops and kills arrive

  predicate AsksToStop(a: Attempt) { a.stopAsked <==> a.stopped }

  lemma StopIsAskedFirst(a: Attempt, step: Step)
    requires AsksToStop(a)
    ensures AsksToStop(OpeningStep(a, step)) && AsksToStop(RunnerStep(a, step))
  {
    hide OfResult, OfCause;
  }

  lemma StopIsAskedLater(a: Attempt, step: Step)
    requires AsksToStop(a)
    ensures AsksToStop(StopProtocolStep(a, step)) && AsksToStop(ClosingStep(a, step))
  {
    hide OfResult, OfCause;
  }

  lemma StopIsAsked(a: Attempt, step: Step)
    requires AsksToStop(a)
    ensures AsksToStop(Next(a, step))
  {
    StopIsAskedFirst(a, step);
    StopIsAskedLater(a, step);
    hide OpeningStep, RunnerStep, StopProtocolStep, ClosingStep;
  }

  lemma {:induction false} RunsAskToStop(isProcess: bool, steps: seq<Step>)
    ensures AsksToStop(Exec(isProcess, steps))
    decreases |steps|
  {
    hide Next;
    if steps != [] {
      RunsAskToStop(isProcess, steps[..|steps| - 1]);
      StopIsAsked(Exec(isProcess, steps[..|steps| - 1]), steps[|steps| - 1]);
    }
  }

  /** A stop that was observed while the process was being spawned is passed on to it as soon as it is
      there, and only then; and a kill that answers yes has left nothing alive. */
  lemma StopsAndKillsArrive(isProcess: bool, steps: seq<Step>)
    ensures
      var a := Exec(isProcess, steps);
      && (a.runner.Spawning? ==>
            Exec(isProcess, steps + [SpawnEnds(None)]).runner == (if a.stopped then Signalling else Working))
      && (a.phase.Killing? && !(isProcess && a.runner.Spawning?) ==>
            var b := Exec(isProcess, steps + [KillReturns(true)]);
            b.phase.KillWait? && (b.sandbox.Never? || b.sandbox.Dead?))
      && (a.runner.Signalling? ==> Exec(isProcess, steps + [SignalReturns]).runner.Working?)
  {
    RunsAskToStop(isProcess, steps);
    RunsKeepInv(isProcess, steps);
    assert (steps + [SpawnEnds(None)])[..|steps|] == steps && (steps + [KillReturns(true)])[..|steps|] == steps;
    assert (steps + [SignalReturns])[..|steps|] == steps;
    hide PhaseOk, SubmittedOk;
  }

  predicate BeingKilled(a: Attempt) { a.phase.Killing? || a.phase.KillWait? || a.phase.CancelWait? }

  /** A handler is killed only after it was asked to stop and given its grace period: step m ended the
      request, step n the grace period of a runner that was still going. */
  lemma {:induction false} KilledOnlyAfterGrace(isProcess: bool, steps: seq<Step>) returns (m: nat, n: nat)
    requires BeingKilled(Exec(isProcess, steps))
    ensures m < n < |steps|
    ensures steps[m] == StopReturns && Exec(isProcess, steps[..m]).phase.Stopping?
    ensures steps[n] == GraceEnds && Exec(isProcess, steps[..n]).phase.Grace? && !Exec(isProcess, steps[..n]).runner.Done?
    decreases |steps|
  {
    hide Next;
    if steps == [] { NobodyIsStopped(isProcess); }
    var last := |steps| - 1;
    var before := steps[..last];
    if BeingKilled(Exec(isProcess, before)) {
      m, n := KilledOnlyAfterGrace(isProcess, before);
      assert before[..m] == steps[..m] && before[..n] == steps[..n];
    } else {
      n := last;
      KillBegins(Exec(isProcess, before), steps[last]);
      m := GraceOnlyAfterStop(isProcess, before);
      assert before[..m] == steps[..m];
    }
  }

  lemma {:induction false} GraceOnlyAfterStop(isProcess: bool, steps: seq<Step>) returns (m: nat)
    requires Exec(isProcess, steps).phase.Grace?
    ensures m < |steps| && steps[m] == StopReturns && Exec(isProcess, steps[..m]).phase.Stopping?
    decreases |steps|
  {
    hide Next;
    if steps == [] { NobodyIsStopped(isProcess); }
    var last := |steps| - 1;
    var before := steps[..last];
    if Exec(isProcess, before).phase.Grace? {
      m := GraceOnlyAfterStop(isProcess, before);
      assert before[..m] == steps[..m];
    } else {
      m := last;
      GraceBegins(Exec(isProcess, before), steps[last]);
    }
  }

  lemma NobodyIsStopped(isProcess: bool)
    ensures Exec(isProcess, []).phase.Created?
  {
  }

  /** Only the stop protocol leads to a grace period or a kill. */
  lemma ElsewhereNoKill(a: Attempt, step: Step)
    ensures BeingKilled(OpeningStep(a, step)) ==> BeingKilled(a)
    ensures OpeningStep(a, step).phase.Grace? ==> a.phase.Grace?
    ensures RunnerStep(a, step).phase == a.phase
    ensures ClosingStep(a, step).phase.Grace? || BeingKilled(ClosingStep(a, step)) ==> ClosingStep(a, step).phase == a.phase
  {
  }

  lemma ProtocolKills(a: Attempt, step: Step)
    ensures !BeingKilled(a) && BeingKilled(StopProtocolStep(a, step)) ==> step.GraceEnds? && a.phase.Grace? && !a.runner.Done?
    ensures !a.phase.Grace? && StopProtocolStep(a, step).phase.Grace? ==> step.StopReturns? && a.phase.Stopping?
  {
  }

  lemma KillBegins(a: Attempt, step: Step)
    requires !BeingKilled(a) && BeingKilled(Next(a, step))
    ensures step.GraceEnds? && a.phase.Grace? && !a.runner.Done?
  {
    hide OpeningStep, RunnerStep, StopProtocolStep, ClosingStep;
    ElsewhereNoKill(a, step);
    ProtocolKills(a, step);
  }

  lemma GraceBegins(a: Attempt, step: Step)
    requires !a.phase.Grace? && Next(a, step).phase.Grace?
    ensures step.StopReturns? && a.phase.Stopping?
  {
    hide OpeningStep, RunnerStep, StopProtocolStep, ClosingStep;
    ElsewhereNoKill(a, step);
    ProtocolKills(a, step);
  }

  // -------------------------------------------------------------------------------- attempts can end

  /** What brings the execution to its end, and then the controller, phase by phase. */
  const LAST_OF_RUNNER: seq<Step> := [
    Dispatch(false), RenewalAnswers(true), RunnerStarts(Some(SelfCancelled)), SpawnEnds(Some(SelfCancelled)), RunnerEnds(SelfCancelled)]

  const LAST_OF_CONTROLLER: seq<Step> := [
    WaitEnds, StopReturns, GraceEnds, KillReturns(false), KillWaitEnds, CancelWaitEnds, VerifyReturns(true), CompletionAnswers, EndingEnds]

  function After(a: Attempt, steps: seq<Step>): Attempt
    decreases |steps|
  {
    if steps == [] then a else After(Next(a, steps[0]), steps[1..])
  }

  lemma {:induction false} ExecAfter(isProcess: bool, steps: seq<Step>, more: seq<Step>)
    ensures Exec(isProcess, steps + more) == After(Exec(isProcess, steps), more)
    decreases |more|
  {
    hide Next;
    if more == [] {
      assert steps + more == steps;
    } else {
      assert steps + more == steps + [more[0]] + more[1..];
      assert (steps + [more[0]])[..|steps|] == steps;
      ExecAfter(isProcess, steps + [more[0]], more[1..]);
    }
  }

  /** The execution is over or was never begun, and the controller is past its dispatch. */
  predicate Over(a: Attempt) { Inv(a) && (a.runner.Done? || Idle(a)) }

  lemma RunnerCanEnd(a: Attempt)
    requires Inv(a)
    ensures Over(After(a, LAST_OF_RUNNER))
  {
    var a1 := Next(a, LAST_OF_RUNNER[0]);
    StepKeepsInv(a, LAST_OF_RUNNER[0]);
    var a2 := Next(a1, LAST_OF_RUNNER[1]);
    StepKeepsInv(a1, LAST_OF_RUNNER[1]);
    assert !a2.phase.Created? && !a2.phase.Renewing?;
    RunnerEndsSoon(a2);
    hide Next, Inv, Over, Idle;
    var x1, x2 := LAST_OF_RUNNER[1..], LAST_OF_RUNNER[2..];
    assert x1[1..] == x2;
    assert After(a, LAST_OF_RUNNER) == After(a1, x1);
    assert After(a1, x1) == After(a2, x2);
  }

  lemma RunnerEndsSoon(a: Attempt)
    requires Inv(a) && !a.phase.Created? && !a.phase.Renewing?
    ensures Over(After(a, LAST_OF_RUNNER[2..]))
  {
    var x2 := LAST_OF_RUNNER[2..];
    var a3 := Next(a, x2[0]);
    StepKeepsInv(a, x2[0]);
    var a4 := Next(a3, x2[1]);
    StepKeepsInv(a3, x2[1]);
    var a5 := Next(a4, x2[2]);
    StepKeepsInv(a4, x2[2]);
    assert Over(a5);
    hide Next, Inv, Over;
    assert x2[1..][1..] == x2[2..] && x2[1..][0] == x2[1] && x2[2..] == [x2[2]];
    assert After(a5, []) == a5;
    assert After(a4, x2[2..]) == After(a5, x2[2..][1..]);
    assert After(a3, x2[1..]) == After(a4, x2[1..][1..]);
  }

  /** How far the controller has come. */
  function Stage(p: Phase): nat {
    match p
    case Created => 0
    case Renewing => 0
    case Waiting => 0
    case Stopping => 1
    case Grace => 2
    case Killing => 3
    case KillWait => 4
    case CancelWait => 5
    case Verifying => 6
    case Completing => 7
    case Ending => 8
    case Settled => 9
  }

  lemma StageEnds(a: Attempt, i: nat)
    requires Over(a) && i < 9 && Stage(a.phase) >= i
    ensures var b := Next(a, LAST_OF_CONTROLLER[i]); Over(b) && Stage(b.phase) >= i + 1
  {
    var step := LAST_OF_CONTROLLER[i];
    StepKeepsInv(a, step);
    if Idle(a) { StaysIdle(a, step); } else { StepSettles(a, step); }
    assert PhaseOk(a);
    hide Next, Inv, Idle, RunnerOk, SubmittedOk, PhaseOk;
    if Stage(a.phase) > i { StageWaits(a, i); } else { StageMoves(a, i); }
  }

  lemma StageWaits(a: Attempt, i: nat)
    requires i < 9 && Stage(a.phase) > i
    ensures Next(a, LAST_OF_CONTROLLER[i]) == a
  {
    hide Conclude, Finish, Killed;
  }

  lemma StageMoves(a: Attempt, i: nat)
    requires i < 9 && Stage(a.phase) == i && PhaseOk(a) && (a.runner.Done? || Idle(a))
    ensures Stage(Next(a, LAST_OF_CONTROLLER[i]).phase) > i
  {
    if i <= 5 { assert a.runner.Done? && !a.phase.Created? && !a.phase.Renewing?; }
    assert !a.runner.Spawning?;
    hide PhaseOk, Idle, Next;
    if i <= 3 { EarlyStageMoves(a, i); } else { LateStageMoves(a, i); }
  }

  lemma EarlyStageMoves(a: Attempt, i: nat)
    requires i <= 3 && Stage(a.phase) == i && a.runner.Done? && !a.phase.Created? && !a.phase.Renewing?
    ensures Stage(Next(a, LAST_OF_CONTROLLER[i]).phase) > i
  {
    ConcludeMoves(a);
    hide Conclude, Finish, Killed;
  }

  lemma LateStageMoves(a: Attempt, i: nat)
    requires 4 <= i < 9 && Stage(a.phase) == i && (i <= 5 ==> a.runner.Done?) && !a.runner.Spawning?
    ensures Stage(Next(a, LAST_OF_CONTROLLER[i]).phase) > i
  {
    if i <= 6 {
      assert LAST_OF_CONTROLLER[i] == if i == 4 then KillWaitEnds else if i == 5 then CancelWaitEnds else VerifyReturns(true);
      VerifyingMoves(a, LAST_OF_CONTROLLER[i]);
    } else {
      assert LAST_OF_CONTROLLER[i] == if i == 7 then CompletionAnswers else EndingEnds;
      ClosingMoves(a, LAST_OF_CONTROLLER[i]);
    }
  }

  lemma VerifyingMoves(a: Attempt, step: Step)
    requires !a.runner.Spawning?
    requires (a.phase.KillWait? && step.KillWaitEnds? && a.runner.Done?) || (a.phase.CancelWait? && step.CancelWaitEnds?)
          || (a.phase.Verifying? && step == VerifyReturns(true))
    ensures Stage(Next(a, step).phase) > Stage(a.phase)
  {
    ConcludeMoves(a);
    ConcludeMoves(Killed(a));
    hide Conclude, Finish, Killed;
  }

  lemma ClosingMoves(a: Attempt, step: Step)
    requires (a.phase.Completing? && step.CompletionAnswers?) || (a.phase.Ending? && step.EndingEnds?)
    ensures Stage(Next(a, step).phase) > Stage(a.phase)
  {
  }

  lemma ConcludeMoves(a: Attempt)
    ensures Stage(Conclude(a).phase) >= 6 && Stage(Finish(a).phase) >= 7
  {
  }

  lemma {:induction false} StagesEnd(a: Attempt, i: nat)
    requires Over(a) && i <= 9 && Stage(a.phase) >= i
    ensures After(a, LAST_OF_CONTROLLER[i..]).phase.Settled?
    decreases 9 - i
  {
    hide Next, Over;
    if i < 9 {
      StageEnds(a, i);
      var rest := LAST_OF_CONTROLLER[i..];
      assert rest[0] == LAST_OF_CONTROLLER[i] && rest[1..] == LAST_OF_CONTROLLER[i + 1..];
      StagesEnd(Next(a, rest[0]), i + 1);
    }
  }

  /** Every attempt can end, whatever has happened so far and without anybody cancelling its controller:
      fourteen steps of its execution and its controller settle it. */
  lemma EveryAttemptCanEnd(isProcess: bool, steps: seq<Step>)
    ensures Exec(isProcess, steps + LAST_OF_RUNNER + LAST_OF_CONTROLLER).phase.Settled?
  {
    hide Next, Inv, Over, Exec;
    RunsKeepInv(isProcess, steps);
    ExecAfter(isProcess, steps, LAST_OF_RUNNER);
    ExecAfter(isProcess, steps + LAST_OF_RUNNER, LAST_OF_CONTROLLER);
    RunnerCanEnd(Exec(isProcess, steps));
    StagesEnd(Exec(isProcess, steps + LAST_OF_RUNNER), 0);
    assert LAST_OF_CONTROLLER[0..] == LAST_OF_CONTROLLER;
  }

  /** A cancelled controller settles too, and submits nothing more. */
  lemma CancelledControllersEnd(isProcess: bool, steps: seq<Step>)
    requires !Exec(isProcess, steps).runner.NotStarted?
    ensures
      var b := Exec(isProcess, steps + [ControllerCancelled, EndingEnds]);
      b.phase.Settled? && b.submitted == Exec(isProcess, steps).submitted
  {
    var a := Exec(isProcess, steps);
    ExecAfter(isProcess, steps, [ControllerCancelled, EndingEnds]);
    assert [ControllerCancelled, EndingEnds][1..] == [EndingEnds];
    assert After(a, [ControllerCancelled, EndingEnds]) == After(Next(a, ControllerCancelled), [EndingEnds]);
    assert After(Next(a, ControllerCancelled), [EndingEnds]) == Next(Next(a, ControllerCancelled), EndingEnds);
  }

  predicate FatalOk(a: Attempt) {
    && (a.fatal ==> !a.isProcess && a.stopped)
    && (a.submitted != [] && !a.isProcess && !a.runner.NoRunner? && !a.runner.Done? ==> a.fatal)
  }

  lemma StepKeepsFatal(a: Attempt, step: Step)
    requires Inv(a) && FatalOk(a)
    ensures FatalOk(Next(a, step))
  {
  }

  /** An outcome submitted while a handler in the worker's own process still runs makes the attempt fatal;
      nothing but a stopped handler there does. */
  lemma {:induction false} IgnoringHandlersAreFatal(isProcess: bool, steps: seq<Step>)
    ensures FatalOk(Exec(isProcess, steps))
    decreases |steps|
  {
    hide Next;
    if steps != [] {
      var before := steps[..|steps| - 1];
      IgnoringHandlersAreFatal(isProcess, before);
      RunsKeepInv(isProcess, before);
      hide Inv, FatalOk;
      StepKeepsFatal(Exec(isProcess, before), steps[|steps| - 1]);
    }
  }

  predicate Undisturbed(steps: seq<Step>) { forall k | 0 <= k < |steps| :: !steps[k].ControllerCancelled? }

  predicate Excused(a: Attempt) {
    a.cause == Some(Lost) || (EndedItself(a) && a.runner.result.Failure? && a.runner.result.metadata.None?)
  }

  predicate Reported(a: Attempt) {
    a.phase.Completing? || a.phase.Ending? || a.phase.Settled? ==> a.submitted != [] || Excused(a)
  }

  lemma StepReports(a: Attempt, step: Step)
    requires Inv(a) && Reported(a) && !step.ControllerCancelled?
    ensures Reported(Next(a, step))
  {
  }

  /** Every attempt reports: unless its controller is cancelled, it ends without an outcome only if
      its lease was lost or its own failure cannot be encoded. */
  lemma {:induction false} EveryAttemptReports(isProcess: bool, steps: seq<Step>)
    requires Undisturbed(steps)
    ensures Reported(Exec(isProcess, steps))
    decreases |steps|
  {
    if steps != [] {
      var before := steps[..|steps| - 1];
      EveryAttemptReports(isProcess, before);
      RunsKeepInv(isProcess, before);
      StepReports(Exec(isProcess, before), steps[|steps| - 1]);
    }
  }

  // ----------------------------------------------------------------- the object, field by field

  /** The controller's fields, its execution's (`proc`, `stopAsked`, and `runner` for where the
      execution stands), and the outcomes handed to the batcher. */
  class Controller {
    const isProcess: bool
    var phase: Phase
    var cause: Option<Cause>
    var stopped: bool
    var fatal: bool
    var runner: Runner
    var hasProc: bool
    var stopAsked: bool
    var sandbox: Sandbox
    var submitted: seq<Submission>

    function State(): Attempt
      reads this
    {
      Attempt(isProcess, phase, cause, stopped, fatal, runner, hasProc, stopAsked, sandbox, submitted)
    }

    constructor (isProcess: bool)
      ensures State() == Fresh(isProcess)
    {
      this.isProcess := isProcess;
      phase, cause, stopped, fatal, runner := Created, None, false, false, NoRunner;
      hasProc, stopAsked, sandbox, submitted := false, false, Never, [];
    }

    method StopFor(why: Cause)
      modifies this`cause
      ensures State() == Next(old(State()), Stop(why))
      ensures cause.Some? && (old(cause).Some? ==> cause == old(cause))
    {
      if cause == None { cause := Some(why); }
    }

    /** The first wait of the attempt is over: by its runner, a stop, or its time limit. */
    method FirstWaitEnds()
      requires phase.Waiting? && !runner.NotStarted?
      modifies this
      ensures State() == Next(old(State()), WaitEnds)
    {
      if runner.Done? {
        Proceed();
        return;
      }
      stopped := true;
      if cause == None { cause := Some(TimedOut); }
      stopAsked := true;
      phase := Stopping;
    }

    method Proceed()
      modifies this`phase, this`submitted
      ensures State() == Conclude(old(State()))
    {
      if isProcess { phase := Verifying; } else { Settle(); }
    }

    /** One answer of kill() in the loop before any outcome of a process attempt. */
    method KillAnswered(dead: bool)
      requires phase.Verifying? && (dead ==> !isProcess || !runner.Spawning?)
      modifies this
      ensures State() == Next(old(State()), VerifyReturns(dead))
      ensures !dead ==> submitted == old(submitted)
    {
      if dead {
        if hasProc { sandbox := Dead; }
        Settle();
      }
    }

    /** What is owed now is handed over. */
    method Settle()
      modifies this`phase, this`submitted
      ensures State() == Finish(old(State()))
      ensures if submitted == old(submitted) then phase.Ending?
              else |submitted| == |old(submitted)| + 1 && old(submitted) == submitted[..|old(submitted)|] && phase.Completing?
      ensures !runner.NoRunner? && submitted != old(submitted) ==> Accounted(State(), submitted[|old(submitted)|])
      ensures submitted == old(submitted) ==>
                cause == Some(Lost) || (stopped && cause == None) || (!stopped && !runner.Done?)
                || (EndedItself(State()) && runner.result.Failure? && runner.result.metadata.None?)
    {
      var outcome: Option<Submission> := None;
      if stopped {
        outcome := OfCause(cause);
      } else if cause != Some(Lost) && runner.Done? {
        outcome := OfResult(runner.result);
      }
      phase := Ending;
      if outcome.Some? {
        submitted := submitted + [outcome.value];
        phase := Completing;
      }
    }

    /** The spawn inside the execution's run() is over; a stop that came meanwhile is passed on. */
    method SpawnReturned(failure: Option<Result>)
      requires runner.Spawning? && (failure.Some? ==> !failure.value.Value?)
      modifies this`runner, this`hasProc, this`sandbox
      ensures State() == Next(old(State()), SpawnEnds(failure))
    {
      if failure.Some? {
        runner, sandbox := Done(failure.value), Dead;
        return;
      }
      hasProc, sandbox, runner := true, Alive, Working;
      if stopAsked { runner := Signalling; }
    }
  }
}
