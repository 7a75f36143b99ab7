/** Coalesced hints: nothing added while the emitter is open is ever lost, through any failures. */
module Hints {
  datatype Hint = Wake(typ: string) | CancelTask(id: nat) | FeedState(state: string)

  /** Where the runner task is suspended. Its batch is what it took at `began`. */
  datatype Runner =
    | NoTask
    | Waiting
    | Sending(batch: set<Hint>, began: nat)
    | Sleeping
    | Returned
    | Cancelled

  /** `added` (when each hint was last added) and `sent` (when its latest successful send began) are
      history, on the step counter `clock`. */
  datatype Emitter = Emitter(
    pending: set<Hint>, ready: bool, closing: bool, runner: Runner,
    clock: nat, added: map<Hint, nat>, sent: map<Hint, nat>)

  const Open := Emitter({}, false, false, NoTask, 0, map[], map[])

  datatype Step = Add(hints: set<Hint>) | Resume | SendOk | SendFails | SleepEnds | Close | GiveUp

  predicate Alive(r: Runner) { r.Waiting? || r.Sending? || r.Sleeping? }

  function Scheduled(r: Runner): Runner { if Alive(r) then r else Waiting }

  function Stamp(m: map<Hint, nat>, hints: set<Hint>, at: nat): map<Hint, nat> {
    m + map h | h in hints :: at
  }

  /** One stretch between two awaits. */
  function Next(e: Emitter, step: Step): Emitter {
    match step
    case Add(hints) =>
      // wake / cancel / feed, then _schedule
      e.(pending := e.pending + hints, ready := true, runner := Scheduled(e.runner),
         clock := e.clock + 1, added := Stamp(e.added, hints, e.clock))
    case Resume =>
      if !e.runner.Waiting? || !e.ready then e
      else if e.closing && e.pending == {} then e.(ready := false, runner := Returned)
      else e.(ready := false, pending := {}, runner := Sending(e.pending, e.clock), clock := e.clock + 1)
    case SendOk =>
      if !e.runner.Sending? then e
      else e.(sent := Stamp(e.sent, e.runner.batch, e.runner.began), runner := Waiting, ready := e.ready || e.closing)
    case SendFails =>
      if !e.runner.Sending? then e
      else e.(pending := e.pending + e.runner.batch, ready := true, runner := Sleeping)
    case SleepEnds => if e.runner.Sleeping? then e.(runner := Waiting) else e
    case Close => e.(closing := true, ready := true)
    case GiveUp =>
      // close() cancels the task after its flush, its time-out or at once, and clears what is left
      if e.closing then e.(runner := if Alive(e.runner) then Cancelled else e.runner, pending := {}) else e
  }

  function Exec(steps: seq<Step>): Emitter
    decreases |steps|
  {
    if steps == [] then Open else Next(Exec(steps[..|steps| - 1]), steps[|steps| - 1])
  }

  predicate InFlight(e: Emitter, h: Hint) { e.runner.Sending? && h in e.runner.batch }

  predicate Covered(e: Emitter, h: Hint) { h in e.sent && h in e.added && e.sent[h] > e.added[h] }

  /** An add that this hint still answers for: waiting, on its way, or sent since. */
  predicate Kept(e: Emitter, h: Hint) { h in e.pending || InFlight(e, h) || Covered(e, h) }

  ghost predicate Inv(e: Emitter) {
    && (e.pending != {} ==> e.ready && Alive(e.runner))
    && (forall h | h in e.pending :: h in e.added)
    && (forall h | h in e.added :: Kept(e, h))
    && (forall h | h in e.added :: e.added[h] < e.clock)
    && (e.runner.Sending? ==> e.runner.began < e.clock)
    && (forall h | InFlight(e, h) :: h in e.added && (h !in e.pending ==> e.added[h] < e.runner.began))
  }

  lemma AddKeepsInv(e: Emitter, hints: set<Hint>)
    requires Inv(e)
    ensures Inv(Next(e, Add(hints)))
  {
    var e' := Next(e, Add(hints));
    forall h | h in e'.added ensures Kept(e', h) && e'.added[h] < e'.clock { if h !in hints { assert Kept(e, h); } }
  }

  lemma ResumeKeepsInv(e: Emitter)
    requires Inv(e)
    ensures Inv(Next(e, Resume))
  {
    var e' := Next(e, Resume);
    forall h | h in e'.added ensures Kept(e', h) { assert Kept(e, h); }
  }

  lemma SendKeepsInv(e: Emitter, step: Step)
    requires Inv(e) && (step.SendOk? || step.SendFails?)
    ensures Inv(Next(e, step))
  {
    var e' := Next(e, step);
    forall h | h in e'.added ensures Kept(e', h) { assert Kept(e, h); }
  }

  lemma StepKeepsInv(e: Emitter, step: Step)
    requires Inv(e) && !step.GiveUp?
    ensures Inv(Next(e, step))
  {
    var e' := Next(e, step);
    match step
    case Add(hints) => AddKeepsInv(e, hints);
    case Resume => ResumeKeepsInv(e);
    case SendOk => SendKeepsInv(e, step);
    case SendFails => SendKeepsInv(e, step);
    case SleepEnds =>
      forall h | h in e'.added ensures Kept(e', h) { assert Kept(e, h); }
    case Close =>
      forall h | h in e'.added ensures Kept(e', h) { assert Kept(e, h); }
    case GiveUp =>
  }

  predicate NeverGivesUp(steps: seq<Step>) {
    forall k | 0 <= k < |steps| :: !steps[k].GiveUp?
  }

  lemma {:induction false} RunsKeepInv(steps: seq<Step>)
    requires NeverGivesUp(steps)
    ensures Inv(Exec(steps))
    decreases |steps|
  {
    if steps != [] {
      RunsKeepInv(steps[..|steps| - 1]);
      StepKeepsInv(Exec(steps[..|steps| - 1]), steps[|steps| - 1]);
    }
  }

  /** No lost wake-up. Until close gives up, at every await and through any failures, reconnects and
      concurrent adds: something pending means the event is set and a runner will see it; and every
      hint added is pending, in flight, or covered by a successful send that began after its last add. */
  lemma NoHintIsLost(steps: seq<Step>, h: Hint)
    requires NeverGivesUp(steps)
    ensures
      var e := Exec(steps);
      && (e.pending != {} ==> e.ready && Alive(e.runner))
      && (h in e.added ==> Kept(e, h))
  {
    RunsKeepInv(steps);
  }

  /** Only a close makes the runner return. */
  predicate ReturnedOk(e: Emitter) { e.runner.Returned? ==> e.closing }

  lemma {:induction false} RunsReturnClosing(steps: seq<Step>)
    ensures ReturnedOk(Exec(steps))
    decreases |steps|
  {
    if steps != [] { RunsReturnClosing(steps[..|steps| - 1]); }
  }

  /** The runner returns only in a close, and a graceful close whose flush completes has sent everything. */
  lemma CompletedFlushSentAll(steps: seq<Step>, h: Hint)
    requires NeverGivesUp(steps) && Exec(steps).runner.Returned?
    ensures Exec(steps).closing && Exec(steps).pending == {} && (h in Exec(steps).added ==> Covered(Exec(steps), h))
  {
    RunsKeepInv(steps);
    RunsReturnClosing(steps);
    assert h in Exec(steps).added ==> Kept(Exec(steps), h);
  }

  /** A close that gives up leaves nothing pending and no runner. */
  lemma GivingUpLeavesNothing(steps: seq<Step>)
    requires Exec(steps).closing
    ensures var e := Exec(steps + [GiveUp]); e.pending == {} && !Alive(e.runner)
  {
    OneMore(steps, GiveUp);
  }

  /** While open, whatever is pending can be on its way after at most three more stretches of the
      runner: its send ends, its sleep ends, it resumes. */
  lemma PendingGetsGoing(steps: seq<Step>) returns (more: seq<Step>)
    requires NeverGivesUp(steps) && Exec(steps).pending != {}
    ensures |more| <= 3 && forall k | 0 <= k < |more| :: !more[k].Add? && !more[k].GiveUp?
    ensures var e := Exec(steps + more); e.runner.Sending? && Exec(steps).pending <= e.runner.batch
  {
    RunsKeepInv(steps);
    var e := Exec(steps);
    assert e.ready && Alive(e.runner);
    hide Exec, Inv, NeverGivesUp;
    if e.runner.Sending? {
      more := [SendFails, SleepEnds, Resume];
      ThreeMore(steps, more);
    } else if e.runner.Sleeping? {
      more := [SleepEnds, Resume];
      TwoMore(steps, more);
    } else {
      more := [Resume];
      OneMore(steps, Resume);
    }
  }

  /** The runner's own stretches. */
  predicate Own(step: Step) { step.Resume? || step.SendOk? || step.SendFails? || step.SleepEnds? }

  /** How often in these further steps the runner gets on: its send or its sleep ends, or it resumes. */
  function Stretches(steps: seq<Step>, more: seq<Step>): nat
    decreases |more|
  {
    if more == [] then 0
    else
      var before, step := more[..|more| - 1], more[|more| - 1];
      var e := Exec(steps + before);
      Stretches(steps, before) + if Own(step) && Next(e, step) != e then 1 else 0
  }

  ghost predicate Taken(steps: seq<Step>, more: seq<Step>, h: Hint) {
    exists k | 0 <= k <= |more| :: InFlight(Exec(steps + more[..k]), h)
  }

  /** How many stretches the runner can make at most before it takes what is pending. */
  function Distance(e: Emitter): nat {
    match e.runner
    case Sending(_, _) => 3
    case Sleeping => 2
    case _ => 1
  }

  lemma StretchComesCloser(e: Emitter, step: Step, h: Hint)
    requires Inv(e) && h in e.pending && !step.GiveUp?
    ensures
      var e' := Next(e, step);
      || InFlight(e', h)
      || (h in e'.pending && Distance(e') + (if Own(step) && e' != e then 1 else 0) <= Distance(e))
  {
  }

  lemma TakenEarlier(steps: seq<Step>, more: seq<Step>, n: nat, h: Hint)
    requires n <= |more| && Taken(steps, more[..n], h)
    ensures Taken(steps, more, h)
  {
    var k :| 0 <= k <= n && InFlight(Exec(steps + more[..n][..k]), h);
    assert more[..n][..k] == more[..k];
  }

  lemma {:induction false} TakenOrCloser(steps: seq<Step>, more: seq<Step>, h: Hint)
    requires NeverGivesUp(steps + more) && h in Exec(steps).pending
    ensures
      || Taken(steps, more, h)
      || (h in Exec(steps + more).pending && Stretches(steps, more) + Distance(Exec(steps + more)) <= Distance(Exec(steps)))
    decreases |more|
  {
    hide Next, Inv;
    if more != [] {
      var k := |more| - 1;
      assert (steps + more)[..|steps + more| - 1] == steps + more[..k];
      assert forall i :: 0 <= i < |steps + more[..k]| ==> (steps + more[..k])[i] == (steps + more)[i];
      TakenOrCloser(steps, more[..k], h);
      if Taken(steps, more[..k], h) {
        TakenEarlier(steps, more, k, h);
      } else {
        RunsKeepInv(steps + more[..k]);
        assert more[k] == (steps + more)[|steps| + k];
        StretchComesCloser(Exec(steps + more[..k]), more[k], h);
        if InFlight(Exec(steps + more), h) { assert more[..|more|] == more; }
      }
    } else {
      assert steps + more == steps;
    }
  }

  /** Every fair continuation takes every pending hint along: whatever else happens meanwhile, once the
      runner has got on three times the hint has been on its way. */
  lemma FairRunsTakePending(steps: seq<Step>, more: seq<Step>, h: Hint)
    requires NeverGivesUp(steps + more) && h in Exec(steps).pending && Stretches(steps, more) >= 3
    ensures Taken(steps, more, h)
  {
    TakenOrCloser(steps, more, h);
  }

  // ------------------------------------------------------------------------------- a graceful close

  /** While closing, a runner that waits or sleeps will be woken. */
  predicate WillWake(e: Emitter) { e.closing && (e.runner.Waiting? || e.runner.Sleeping?) ==> e.ready }

  lemma {:induction false} RunsWillWake(steps: seq<Step>)
    ensures WillWake(Exec(steps))
    decreases |steps|
  {
    if steps != [] { RunsWillWake(steps[..|steps| - 1]); }
  }

  /** How many stretches a closing runner makes at most before it returns, if its sends succeed and
      nothing is added. */
  function Flushing(e: Emitter): nat {
    var rest := if e.pending == {} then 1 else 3;
    match e.runner
    case Waiting => rest
    case Sending(_, _) => 1 + rest
    case Sleeping => 1 + rest
    case _ => 0
  }

  lemma StretchFlushes(e: Emitter, step: Step)
    requires e.closing && WillWake(e) && !step.Add? && !step.GiveUp? && !step.SendFails?
    ensures
      var e' := Next(e, step);
      && e'.closing && Flushing(e') + (if Own(step) && e' != e then 1 else 0) <= Flushing(e)
      && (Alive(e.runner) ==> Alive(e'.runner) || e'.runner.Returned?) && (e.runner.Returned? ==> e'.runner.Returned?)
  {
  }

  predicate Flushes(step: Step) { !step.Add? && !step.GiveUp? && !step.SendFails? }

  lemma {:induction false} FlushGoesOn(steps: seq<Step>, more: seq<Step>)
    requires Exec(steps).closing && Alive(Exec(steps).runner) && forall k | 0 <= k < |more| :: Flushes(more[k])
    ensures var e := Exec(steps + more); e.closing && (Alive(e.runner) || e.runner.Returned?)
    ensures Stretches(steps, more) + Flushing(Exec(steps + more)) <= Flushing(Exec(steps))
    decreases |more|
  {
    hide Next, WillWake, Flushing;
    if more != [] {
      var k := |more| - 1;
      assert (steps + more)[..|steps + more| - 1] == steps + more[..k];
      FlushGoesOn(steps, more[..k]);
      RunsWillWake(steps + more[..k]);
      StretchFlushes(Exec(steps + more[..k]), more[k]);
    } else {
      assert steps + more == steps;
    }
  }

  /** A graceful close ends. From any reachable state that is closing with a live runner, once nothing more
      is added and sends succeed, four stretches of the runner's own are enough for it to return; and
      until it has returned it can always make one more. */
  lemma GracefulCloseEnds(steps: seq<Step>, more: seq<Step>)
    requires Exec(steps).closing && Alive(Exec(steps).runner) && forall k | 0 <= k < |more| :: Flushes(more[k])
    ensures Stretches(steps, more) >= 4 ==> Exec(steps + more).runner.Returned?
    ensures
      var e := Exec(steps + more);
      e.runner.Returned? || exists step :: Own(step) && Flushes(step) && Next(e, step) != e
  {
    FlushGoesOn(steps, more);
    RunsWillWake(steps + more);
    var e := Exec(steps + more);
    hide Exec, Stretches;
    if e.runner.Waiting? { assert Next(e, Resume) != e && Own(Resume) && Flushes(Resume); }
    if e.runner.Sending? { assert Next(e, SendOk) != e && Own(SendOk) && Flushes(SendOk); }
    if e.runner.Sleeping? { assert Next(e, SleepEnds) != e && Own(SleepEnds) && Flushes(SleepEnds); }
  }

  lemma OneMore(steps: seq<Step>, step: Step)
    ensures Exec(steps + [step]) == Next(Exec(steps), step)
  {
    assert (steps + [step])[..|steps|] == steps;
  }

  lemma TwoMore(steps: seq<Step>, more: seq<Step>)
    requires |more| == 2
    ensures Exec(steps + more) == Next(Next(Exec(steps), more[0]), more[1])
  {
    hide Next;
    OneMore(steps, more[0]);
    OneMore(steps + [more[0]], more[1]);
    assert steps + more == steps + [more[0]] + [more[1]];
  }

  lemma ThreeMore(steps: seq<Step>, more: seq<Step>)
    requires |more| == 3
    ensures Exec(steps + more) == Next(Next(Next(Exec(steps), more[0]), more[1]), more[2])
  {
    hide Next;
    TwoMore(steps, more[..2]);
    OneMore(steps + more[..2], more[2]);
    assert steps + more == steps + more[..2] + [more[2]];
  }

  // -------------------------------------------------------------------- the object, field by field

  function Tagged(wakes: set<string>, cancels: set<nat>, feeds: set<string>): set<Hint> {
    (set t | t in wakes :: Wake(t)) + (set i | i in cancels :: CancelTask(i)) + (set f | f in feeds :: FeedState(f))
  }

  function WakesOf(batch: set<Hint>): set<string> { set h | h in batch && h.Wake? :: h.typ }

  function CancelsOf(batch: set<Hint>): set<nat> { set h | h in batch && h.CancelTask? :: h.id }

  function FeedsOf(batch: set<Hint>): set<string> { set h | h in batch && h.FeedState? :: h.state }

  /** Merging a failed batch back into the three sets restores it among whatever they hold by then. */
  lemma MergeBack(wakes: set<string>, cancels: set<nat>, feeds: set<string>, batch: set<Hint>)
    ensures Tagged(wakes + WakesOf(batch), cancels + CancelsOf(batch), feeds + FeedsOf(batch))
         == Tagged(wakes, cancels, feeds) + batch
  {
    var merged := Tagged(wakes + WakesOf(batch), cancels + CancelsOf(batch), feeds + FeedsOf(batch));
    forall h: Hint ensures h in merged <==> h in Tagged(wakes, cancels, feeds) + batch {
      match h
      case Wake(t) => assert t in WakesOf(batch) <==> h in batch;
      case CancelTask(i) => assert i in CancelsOf(batch) <==> h in batch;
      case FeedState(f) => assert f in FeedsOf(batch) <==> h in batch;
    }
  }

  class Emission {
    var wakes: set<string>
    var cancels: set<nat>
    var feeds: set<string>
    var ready: bool
    var closing: bool
    var runner: Runner
    var clock: nat
    var added: map<Hint, nat>
    var sent: map<Hint, nat>

    ghost function Pending(): set<Hint>
      reads this
    {
      Tagged(wakes, cancels, feeds)
    }

    ghost function State(): Emitter
      reads this
    {
      Emitter(Pending(), ready, closing, runner, clock, added, sent)
    }

    constructor ()
      ensures State() == Open
    {
      wakes, cancels, feeds := {}, {}, {};
      ready, closing, runner := false, false, NoTask;
      clock, added, sent := 0, map[], map[];
    }

    method WakeTypes(types: set<string>)
      modifies this
      ensures State() == Next(old(State()), Add(set t | t in types :: Wake(t)))
    {
      wakes := wakes + types;
      Schedule(set t | t in types :: Wake(t));
      assert Pending() == old(Pending()) + (set t | t in types :: Wake(t));
    }

    method CancelTasks(ids: set<nat>)
      modifies this
      ensures State() == Next(old(State()), Add(set i | i in ids :: CancelTask(i)))
    {
      cancels := cancels + ids;
      Schedule(set i | i in ids :: CancelTask(i));
      assert Pending() == old(Pending()) + (set i | i in ids :: CancelTask(i));
    }

    method FeedStates(states: set<string>)
      modifies this
      ensures State() == Next(old(State()), Add(set s | s in states :: FeedState(s)))
    {
      feeds := feeds + states;
      Schedule(set s | s in states :: FeedState(s));
      assert Pending() == old(Pending()) + (set s | s in states :: FeedState(s));
    }

    method Schedule(hints: set<Hint>)
      modifies this`ready, this`runner, this`clock, this`added
      ensures ready && runner == Scheduled(old(runner))
      ensures clock == old(clock) + 1 && added == Stamp(old(added), hints, old(clock))
    {
      ready := true;
      if !runner.Waiting? && !runner.Sending? && !runner.Sleeping? { runner := Waiting; }
      added := Stamp(added, hints, clock);
      clock := clock + 1;
    }

    /** From the event to the send: clear it, return when closing and empty, otherwise take all. */
    method ResumeRunner()
      requires runner.Waiting? && ready
      modifies this
      ensures State() == Next(old(State()), Resume)
    {
      ready := false;
      if closing && wakes == {} && cancels == {} && feeds == {} {
        runner := Returned;
        return;
      }
      NothingPending();
      var batch := Tagged(wakes, cancels, feeds);
      wakes, cancels, feeds := {}, {}, {};
      runner := Sending(batch, clock);
      clock := clock + 1;
    }

    lemma NothingPending()
      ensures Pending() == {} ==> wakes == {} && cancels == {} && feeds == {}
    {
      if wakes != {} { var t :| t in wakes; assert Wake(t) in Pending(); }
      if cancels != {} { var i :| i in cancels; assert CancelTask(i) in Pending(); }
      if feeds != {} { var s :| s in feeds; assert FeedState(s) in Pending(); }
    }

    method SendSucceeds()
      requires runner.Sending?
      modifies this
      ensures State() == Next(old(State()), SendOk)
    {
      sent := Stamp(sent, runner.batch, runner.began);
      if closing { ready := true; }
      runner := Waiting;
    }

    /** Merge the batch back into the three sets, whatever was added meanwhile. */
    method SendFailed()
      requires runner.Sending?
      modifies this
      ensures State() == Next(old(State()), SendFails)
    {
      var batch := runner.batch;
      wakes := wakes + WakesOf(batch);
      cancels := cancels + CancelsOf(batch);
      feeds := feeds + FeedsOf(batch);
      ready := true;
      runner := Sleeping;
      MergeBack(old(wakes), old(cancels), old(feeds), batch);
    }

    method BeginClose()
      modifies this
      ensures State() == Next(old(State()), Close)
    {
      closing := true;
      ready := true;
    }

    method FinishClose()
      requires closing
      modifies this
      ensures State() == Next(old(State()), GiveUp)
    {
      if runner.Waiting? || runner.Sending? || runner.Sleeping? { runner := Cancelled; }
      wakes, cancels, feeds := {}, {}, {};
      assert Pending() == {};
    }
  }
}
