/** What holds of the batcher after any run, and the batcher as an object. */
module CompletionsRuns {
  import opened Rows
  import opened Completions
  import opened CompletionsSteps

  predicate NeverClosedBeforeItsFirstStep(steps: seq<Step>)
    decreases |steps|
  {
    steps == [] ||
    (NeverClosedBeforeItsFirstStep(steps[..|steps| - 1])
     && !(steps[|steps| - 1].Close? && Exec(steps[..|steps| - 1]).runner.Scheduled?))
  }

  predicate Running(b: Batcher) { b.runner.Scheduled? || b.runner.Writing? }

  /** At every point of the run, whatever is pending has a runner. */
  predicate NeverStranded(steps: seq<Step>)
    decreases |steps|
  {
    (Exec(steps).pending != [] ==> Running(Exec(steps)))
    && (steps == [] || NeverStranded(steps[..|steps| - 1]))
  }

  lemma {:induction false} RunsKeepInv(steps: seq<Step>)
    ensures Inv(Exec(steps)) && (Exec(steps).runner.Scheduled? ==> Exec(steps).pending != [])
    decreases |steps|
  {
    hide Inv;
    if steps != [] {
      var b, step := Exec(steps[..|steps| - 1]), steps[|steps| - 1];
      RunsKeepInv(steps[..|steps| - 1]);
      StepKeepsInv(b, step);
      RunnerMoves(b, step);
    } else {
      FreshIsFine();
    }
  }

  lemma FreshIsFine()
    ensures Inv(Fresh)
  {
  }

  lemma StartMoves(b: Batcher)
    requires Inv(b) && b.runner.Scheduled?
    ensures !Dispatch(b).runner.Scheduled? && (Dispatch(b).pending != [] ==> Dispatch(b).runner.Writing?)
  {
    hide Inv, Dispatch;
    IdleKeepsInv(b);
    DispatchKeepsInv(b);
  }

  lemma WriteMoves(b: Batcher, states: map<nat, State>)
    requires Inv(b) && b.runner.Writing?
    ensures
      var b' := Next(b, WriteReturns(states));
      !b'.runner.Scheduled? && (b'.pending != [] ==> b'.runner.Writing?)
  {
    hide Inv, Dispatch, Settle;
    var reply := Applied(states);
    assert Queue(b)[..|b.batch|] == b.batch && Queue(b)[|b.batch|..] == b.pending;
    ConcludeKeepsInv(b, |b.batch|, reply);
    var d := b.(done := Settle(b.done, b.batch, reply), batch := [], writes := Closed(b.writes, reply));
    assert Idle(d) == Concluded(b, |b.batch|, reply);
    DispatchKeepsInv(d);
  }

  /** How a step changes the runner: only closing it before its first step strands anything. */
  lemma RunnerMoves(b: Batcher, step: Step)
    requires Inv(b) && (b.runner.Scheduled? ==> b.pending != [])
    ensures
      var b' := Next(b, step);
      && (b'.runner.Scheduled? ==> b'.pending != [])
      && ((b.pending != [] ==> Running(b)) && !(step.Close? && b.runner.Scheduled?) ==> (b'.pending != [] ==> Running(b')))
      && (step.Close? && b.runner.Scheduled? ==> b'.pending != [] && !Running(b'))
  {
    hide Inv, Dispatch, Settle, Closed;
    if step.Start? && b.runner.Scheduled? { StartMoves(b); }
    if step.WriteReturns? && b.runner.Writing? { WriteMoves(b, step.states); }
  }

  // -------------------------------------------------------------------------------- the theorems

  function Occurrences(entries: seq<Entry>, k: nat): nat {
    if entries == [] then 0 else (if entries[0].future == k then 1 else 0) + Occurrences(entries[1..], k)
  }

  lemma {:induction false} RisingOccurs(entries: seq<Entry>, k: nat)
    requires Rising(entries)
    ensures Occurrences(entries, k) == if k in Futures(entries) then 1 else 0
  {
    if entries != [] {
      RisingOccurs(entries[1..], k);
      SplitFutures(entries, 1);
      SplitRising(entries, 1);
      assert forall e | e in entries[1..] :: entries[0].future < e.future;
      assert Futures(entries[..1]) == {entries[0].future};
    }
  }

  /** Conservation. Every submitted outcome that is not resolved sits exactly once in pending or in
      the batch in flight, under its own future; a resolved one that still sits there was abandoned
      by its controller; nothing else is there, and the queue keeps submission order. */
  lemma EveryOutcomeIsSomewhere(steps: seq<Step>, k: nat)
    ensures
      var b := Exec(steps);
      && (k < |b.submitted| && k !in b.done ==> Occurrences(b.batch + b.pending, k) == 1)
      && (k in b.done ==> k < |b.submitted|)
      && (k in b.done && !b.done[k].Abandoned? ==> Occurrences(b.batch + b.pending, k) == 0)
      && Rising(b.batch + b.pending)
      && (forall e | e in b.batch + b.pending :: e.future < |b.submitted| && b.submitted[e.future] == e.job)
  {
    RunsKeepInv(steps);
    var b := Exec(steps);
    RisingOccurs(Queue(b), k);
    assert forall e | e in Queue(b) :: Own(b, e);
  }

  /** What store.complete demands of its callers, and the order of writes: every write gets 1 to 256
      outcomes of distinct ids, and later writes carry later submissions only, so outcomes of one
      task are written at most once each and in the order they were submitted. */
  lemma WritesAreAdmissible(steps: seq<Step>, i: nat)
    requires i < |Exec(steps).writes|
    ensures
      var b := Exec(steps);
      && 1 <= |b.writes[i].jobs| <= 256
      && DistinctIds(b.writes[i].jobs)
      && Rising(b.writes[i].jobs)
      && (forall j | i < j < |b.writes| :: Before(b.writes[i].jobs, b.writes[j].jobs))
      && Before(b.writes[i].jobs, b.pending)
  {
    RunsKeepInv(steps);
    assert GoodWrite(Exec(steps), Exec(steps).writes[i]);
  }

  /** Each outcome of a finished write has the answer for its own row, or the exception, unless its
      controller abandoned it; and nobody is answered without such a write. */
  lemma AnswersAreOnesOwn(steps: seq<Step>)
    ensures
      var b := Exec(steps);
      && (forall i, e | 0 <= i < |b.writes| && e in b.writes[i].jobs && b.writes[i].reply.Applied? ::
            e.future in b.done && (b.done[e.future].Abandoned?
              || b.done[e.future] == Answered(if e.job.id in b.writes[i].reply.states then Some(b.writes[i].reply.states[e.job.id]) else None)))
      && (forall i, e | 0 <= i < |b.writes| && e in b.writes[i].jobs && b.writes[i].reply.Failed? ::
            e.future in b.done && (b.done[e.future].Abandoned? || b.done[e.future].Raised?))
      && (forall k | k in b.done && b.done[k].Answered? ::
            exists i, e :: 0 <= i < |b.writes| && e in b.writes[i].jobs && e.future == k
              && b.writes[i].reply.Applied? && b.done[k].state == Lookup(b.writes[i].reply.states, e.job.id))
  {
    RunsKeepInv(steps);
    var b := Exec(steps);
    forall i, e | 0 <= i < |b.writes| && e in b.writes[i].jobs && !b.writes[i].reply.InFlight?
      ensures AnswersTo(b.done, b.writes[i], e)
    {
    }
    forall k | k in b.done && b.done[k].Answered?
      ensures exists i, e :: 0 <= i < |b.writes| && e in b.writes[i].jobs && e.future == k
                          && b.writes[i].reply.Applied? && b.done[k].state == Lookup(b.writes[i].reply.states, e.job.id)
    {
      assert Explained(b, k);
    }
  }

  /** An outcome is handed to a write only while its controller waits for it: none that is written is done
      as the write begins. */
  lemma AbandonedAreNotWritten(steps: seq<Step>, step: Step, e: Entry)
    requires |Next(Exec(steps), step).writes| > |Exec(steps).writes|
    ensures
      var b := Next(Exec(steps), step);
      e in b.writes[|b.writes| - 1].jobs ==> e.future !in b.done
  {
    hide *;
    RunsKeepInv(steps);
    var b := Exec(steps);
    StepKeepsInv(b, step);
    var c := Next(b, step);
    var d := OnlyDispatchWrites(b, step);
    WritesTheWaiting(d, e);
    if e in c.writes[|c.writes| - 1].jobs && e.future in c.done { WrittenIsQueued(c, e); }
  }

  lemma OnlyDispatchWrites(b: Batcher, step: Step) returns (d: Batcher)
    requires |Next(b, step).writes| > |b.writes|
    ensures Next(b, step) == Dispatch(d) && |d.writes| == |b.writes|
  {
    hide Dispatch, Settle;
    d := if step.WriteReturns? then b.(done := Settle(b.done, b.batch, Applied(step.states)), batch := [], writes := Closed(b.writes, Applied(step.states))) else b;
  }

  /** What a batch hands to its write has not been abandoned. */
  lemma {:induction false} WritesTheWaiting(b: Batcher, e: Entry)
    requires |Dispatch(b).writes| > |b.writes|
    ensures
      var c := Dispatch(b);
      && c.runner.Writing?
      && (e in c.writes[|c.writes| - 1].jobs ==> !(e.future in c.done && c.done[e.future].Abandoned?))
    decreases |b.pending|
  {
    if b.pending != [] {
      BatchShape(b.pending, 0);
      var n := BatchLength(b.pending, 0);
      if Active(b.pending[..n], b.done) == [] { WritesTheWaiting(b.(batch := [], pending := b.pending[n..]), e); }
      else { ActiveWaits(b.pending[..n], b.done, e); }
    }
  }

  lemma {:induction false} ActiveWaits(entries: seq<Entry>, done: map<nat, Outcome>, e: Entry)
    ensures e in Active(entries, done) ==> !(e.future in done && done[e.future].Abandoned?)
  {
    if entries != [] { ActiveWaits(entries[1..], done, e); }
  }

  /** What is in flight is done only if it was abandoned. */
  lemma WrittenIsQueued(b: Batcher, e: Entry)
    requires Inv(b) && b.writes != [] && b.runner.Writing? && e in b.writes[|b.writes| - 1].jobs && e.future in b.done
    ensures b.done[e.future].Abandoned?
  {
    assert e in b.batch;
    assert e in Queue(b);
  }

  /** Why a future ended as it did: a cancelled one was abandoned by its own controller or cut off by a
      close, and one that raised was in a batch whose write raised. */
  lemma {:induction false} EndsHaveReasons(steps: seq<Step>, k: nat)
    requires k in Exec(steps).done
    ensures Exec(steps).done[k].Abandoned? ==> ControllerCancelled(k) in steps || Close in steps
    ensures Exec(steps).done[k].Raised? ==> WriteRaises in steps
    decreases |steps|
  {
    var before, step := steps[..|steps| - 1], steps[|steps| - 1];
    var b := Exec(before);
    assert step in steps && forall x | x in before :: x in steps;
    DoneIsFinal(b, step);
    if k in b.done {
      EndsHaveReasons(before, k);
    } else {
      RunsKeepInv(before);
      StepResolves(b, step, k);
    }
  }

  /** A controller that is cancelled while it waits abandons its outcome. */
  lemma CancelledIsAbandoned(b: Batcher, k: nat)
    requires k < |b.submitted| && k !in b.done
    ensures var c := Next(b, ControllerCancelled(k)); c == b.(done := c.done) && c.done == b.done[k := Abandoned]
  {
  }

  lemma StepResolves(b: Batcher, step: Step, k: nat)
    requires Inv(b) && k !in b.done && k in Next(b, step).done
    ensures
      match Next(b, step).done[k]
      case Abandoned => step == ControllerCancelled(k) || step.Close?
      case Raised => step.WriteRaises?
      case Answered(_) => step.WriteReturns?
  {
    QueueRises(b);
    hide Inv, Dispatch, Settle, Rising, Closed;
    match step
    case Start => DispatchDone(b);
    case WriteReturns(states) =>
      DispatchDone(b.(done := Settle(b.done, b.batch, Applied(states)), batch := [], writes := Closed(b.writes, Applied(states))));
      if b.runner.Writing? { ResolvedBy(b.done, b.batch, Applied(states), k); }
    case WriteRaises => if b.runner.Writing? { ResolvedBy(b.done, b.batch + b.pending, Reply.Failed, k); }
    case Close => if b.runner.Writing? { ResolvedBy(b.done, b.batch + b.pending, Cut, k); }
    case Submit(_) =>
    case ControllerCancelled(_) =>
  }

  lemma QueueRises(b: Batcher)
    requires Inv(b)
    ensures Rising(b.batch + b.pending) && Rising(b.batch)
  {
    assert Queue(b)[..|b.batch|] == b.batch;
    SplitRising(Queue(b), |b.batch|);
  }

  lemma ResolvedBy(done: map<nat, Outcome>, entries: seq<Entry>, reply: Reply, k: nat)
    requires !reply.InFlight? && Rising(entries) && k !in done && k in Settle(done, entries, reply)
    ensures
      match reply
      case Applied(_) => Settle(done, entries, reply)[k].Answered?
      case Failed => Settle(done, entries, reply)[k].Raised?
      case Cut => Settle(done, entries, reply)[k].Abandoned?
      case InFlight => true
  {
    var e := SettledFrom(done, entries, reply, k);
  }

  /** A future is resolved once: no step changes what is done. */
  lemma DoneIsFinal(b: Batcher, step: Step)
    ensures b.done.Keys <= Next(b, step).done.Keys && forall k | k in b.done :: Next(b, step).done[k] == b.done[k]
  {
    match step
    case Start => DispatchDone(b);
    case WriteReturns(states) =>
      SettledKeys(b.done, b.batch, Applied(states));
      DispatchDone(b.(done := Settle(b.done, b.batch, Applied(states)), batch := [], writes := Closed(b.writes, Applied(states))));
    case WriteRaises => SettledKeys(b.done, b.batch + b.pending, Reply.Failed);
    case Close => SettledKeys(b.done, b.batch + b.pending, Cut);
    case Submit(_) =>
    case ControllerCancelled(_) =>
  }

  lemma {:induction false} DispatchDone(b: Batcher)
    ensures Dispatch(b).done == b.done
    decreases |b.pending|
  {
    if b.pending != [] {
      BatchShape(b.pending, 0);
      var n := BatchLength(b.pending, 0);
      if Active(b.pending[..n], b.done) == [] { DispatchDone(b.(batch := [], pending := b.pending[n..])); }
    }
  }

  /** Nothing stays pending without a runner exactly when no close arrives between a submission that
      started a runner task and that task's first step: cancelled before it starts, the coroutine
      never reaches its except clause, so nobody resolves what is pending. */
  lemma {:induction false} NothingStaysPendingIff(steps: seq<Step>)
    ensures NeverStranded(steps) <==> NeverClosedBeforeItsFirstStep(steps)
    decreases |steps|
  {
    hide Inv;
    if steps != [] {
      var before, step := steps[..|steps| - 1], steps[|steps| - 1];
      NothingStaysPendingIff(before);
      RunsKeepInv(before);
      RunnerMoves(Exec(before), step);
      assert NeverStranded(before) ==> (Exec(before).pending != [] ==> Running(Exec(before)));
    }
  }

  /** The shortest such run: the outcome is neither written nor resolved by closing again. */
  lemma ClosedTooEarly(job: Completion)
    ensures
      var b := Exec([Submit(job), Close]);
      && b.pending == [Entry(0, job)] && b.done == map[] && b.writes == [] && !Running(b)
      && Next(b, Close) == b
  {
    var s := [Submit(job), Close];
    assert s[..1] == [Submit(job)];
    assert [Submit(job)][..0] == [];
    assert Exec([Submit(job)]) == Next(Fresh, Submit(job));
  }

  // ----------------------------------------------------------------- the object, field by field

  /** The inner loop: pop from the front while the batch has room and the id is new. */
  method TakeBatch(pending: seq<Entry>) returns (batch: seq<Entry>, rest: seq<Entry>)
    ensures batch + rest == pending && |batch| == BatchLength(pending, 0)
    ensures |batch| <= 256 && DistinctIds(batch) && (pending != [] ==> batch != [])
    ensures rest != [] && |batch| < 256 ==> HasId(batch, rest[0].job.id)
  {
    var ids := {};
    batch, rest := [], pending;
    while rest != [] && |batch| < BATCH_LIMIT && rest[0].job.id !in ids
      invariant |batch| <= |pending| && batch == pending[..|batch|] && rest == pending[|batch|..]
      invariant |batch| <= BATCH_LIMIT && DistinctIds(batch)
      invariant forall id :: id in ids <==> HasId(batch, id)
      invariant BatchLength(pending, |batch|) == BatchLength(pending, 0)
      decreases |rest|
    {
      ids := ids + {rest[0].job.id};
      ghost var was := batch;
      batch, rest := batch + [rest[0]], rest[1..];
      assert forall k :: 0 <= k < |was| ==> batch[k] == was[k];
      assert batch[|was|].job.id in ids;
    }
    BatchShape(pending, 0);
  }

  /** Walk the entries and resolve the futures that still wait. */
  method Resolve(done: map<nat, Outcome>, entries: seq<Entry>, reply: Reply) returns (after: map<nat, Outcome>)
    requires !reply.InFlight?
    ensures after == Settle(done, entries, reply)
    ensures after.Keys == done.Keys + Futures(entries) && forall k | k in done :: after[k] == done[k]
  {
    after := done;
    for i := 0 to |entries|
      invariant Settle(after, entries[i..], reply) == Settle(done, entries, reply)
    {
      assert entries[i..][1..] == entries[i + 1..];
      if entries[i].future !in after { after := after[entries[i].future := Verdict(reply, entries[i])]; }
    }
    SettledKeys(done, entries, reply);
  }

  class Coalescer {
    var submitted: seq<Completion>
    var pending: seq<Entry>
    var batch: seq<Entry>
    var done: map<nat, Outcome>
    var runner: Runner
    var writes: seq<Write>

    function State(): Batcher
      reads this
    {
      Batcher(submitted, pending, batch, done, runner, writes)
    }

    constructor ()
      ensures State() == Fresh
    {
      submitted, pending, batch, done, runner, writes := [], [], [], map[], NoTask, [];
    }

    method Complete(job: Completion) returns (future: nat)
      modifies this
      ensures State() == Next(old(State()), Submit(job)) && future == |old(submitted)|
    {
      future := |submitted|;
      pending := pending + [Entry(future, job)];
      submitted := submitted + [job];
      if runner.NoTask? || runner.Ended? { runner := Scheduled; }
    }

    /** From the loop head to the next await, or to the end. */
    method RunToWrite()
      requires batch == []
      modifies this`pending, this`batch, this`runner, this`writes
      ensures State() == Dispatch(old(State()))
    {
      while pending != []
        invariant batch == [] && Dispatch(State()) == Dispatch(old(State()))
        decreases |pending|
      {
        var taken, rest := TakeBatch(pending);
        assert pending[..|taken|] == taken && pending[|taken|..] == rest;
        var active := Active(taken, done);
        ghost var was := State();
        pending := rest;
        if active != [] {
          batch, runner, writes := taken, Writing, writes + [Write(active, InFlight)];
          return;
        }
        assert State() == was.(batch := [], pending := rest);
      }
      runner := Ended;
    }

    method FirstStep()
      requires runner.Scheduled? && batch == []
      modifies this
      ensures State() == Next(old(State()), Start)
    {
      RunToWrite();
    }

    method WriteReturned(states: map<nat, State>)
      requires runner.Writing?
      modifies this
      ensures State() == Next(old(State()), WriteReturns(states))
    {
      done := Resolve(done, batch, Applied(states));
      writes := Closed(writes, Applied(states));
      batch := [];
      RunToWrite();
    }

    /** The except clause, for a failed write and for a cancellation. */
    method Unwind(reply: Reply)
      requires !reply.InFlight?
      modifies this
      ensures State() == FailAll(old(State()), reply)
    {
      done := Resolve(done, batch + pending, reply);
      writes := Closed(writes, reply);
      batch, pending, runner := [], [], Ended;
    }

    method CloseDown()
      modifies this
      ensures State() == Next(old(State()), Close)
    {
      if runner.Writing? {
        Unwind(Cut);
      } else if runner.Scheduled? {
        runner := Ended;
      }
    }
  }
}
