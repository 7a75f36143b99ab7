/** Exactly which steps endanger lease exclusion. `_attempt_done` pops by task id, so where a worker comes
    to track two attempts of one task, the end of the old one unregisters the new one. */
module FleetTangle {
  import opened Rows
  import opened Fleet
  import opened FleetLease
  import opened FleetHistory

  /** Every unfinished attempt is the one registered under its worker and task id. */
  ghost predicate Registered(s: World) {
    forall t | t in s.attempts && !s.attempts[t].done ::
      var k := (s.attempts[t].worker, s.attempts[t].id); k in s.tracked && s.tracked[k] == t
  }

  /** It is so at every moment of the run. */
  ghost predicate AlwaysRegistered(steps: seq<Step>)
    decreases |steps|
  {
    Registered(Exec(Start, steps)) && (steps == [] || AlwaysRegistered(steps[..|steps| - 1]))
  }

  ghost predicate TrackedOk(s: World) {
    forall k | k in s.tracked ::
      var t := s.tracked[k]; t in s.attempts && !s.attempts[t].done && (s.attempts[t].worker, s.attempts[t].id) == k
  }

  /** The worker starts no row whose id it still tracks. */
  predicate Apart(s: World, step: Step) {
    step.StartOne? ==>
      var p := PhaseOf(s, step.w);
      p.Starting? && step.token in p.got ==> (step.w, p.got[step.token]) !in s.tracked
  }

  /** A schedule in which no worker ever starts a row it still tracks. */
  ghost predicate NeverTangled(steps: seq<Step>)
    decreases |steps|
  {
    steps == [] ||
    var before := steps[..|steps| - 1];
    NeverTangled(before) && Apart(Exec(Start, before), steps[|steps| - 1])
  }

  /** In every run: tokens belong to the worker and task they were drawn for, claimed rows have no attempt
      yet, and the registry names only unfinished attempts. */
  ghost predicate RegistryOk(s: World) {
    && TrackedOk(s)
    && (forall t | t in s.attempts :: t < |s.db.issued| && s.db.issued[t] == Issue(s.attempts[t].id, s.attempts[t].worker))
    && (forall w | w in s.phases :: ClaimedOk(s, w))
  }

  predicate ClaimedOk(s: World, w: Worker) {
    forall t | t in GotOf(s, w) :: t < |s.db.issued| && s.db.issued[t] == Issue(GotOf(s, w)[t], w) && t !in s.attempts
  }

  /** Registrations, what they name, claims and tokens stayed. */
  predicate SameRegistry(s: World, s': World) {
    && s'.tracked == s.tracked && s.db.issued <= s'.db.issued
    && s'.attempts.Keys == s.attempts.Keys
    && (forall t | t in s.attempts :: SameWork(s.attempts[t], s'.attempts[t]))
    && (forall w | w in s'.phases :: forall t | t in GotOf(s', w) :: w in s.phases && t in GotOf(s, w) && GotOf(s', w)[t] == GotOf(s, w)[t])
  }

  predicate SameWork(a: Attempt, b: Attempt) { b.worker == a.worker && b.id == a.id && b.done == a.done }

  lemma SameRegistryKeeps(s: World, s': World)
    requires RegistryOk(s) && SameRegistry(s, s')
    ensures RegistryOk(s') && (Registered(s) ==> Registered(s'))
  {
    forall w | w in s'.phases ensures ClaimedOk(s', w) {
      if w in s.phases { assert ClaimedOk(s, w); }
    }
  }

  lemma ClaimLoopKeepsRegistry(s: World, step: Step)
    requires step.ClaimBegin? || step.ClaimAnswered? || step.ClaimLost? || step.StartsDone? || step.ReleaseUnstarted?
          || step.OrphanScan? || step.LateScan? || step.OrphansDone?
    ensures SameRegistry(s, Next(s, step))
  {
    hide IsOrphan, Unlisted;
  }

  lemma AttemptsKeepRegistry(s: World, step: Step)
    requires step.Renew? || step.Receive? || step.Report? || step.Sweep? || step.StopFor? || step.Submit? || step.Settle?
    ensures SameRegistry(s, Next(s, step))
  {
    TokensOnlyGrow(s, step);
    hide Run, Query, Accepts;
    assert Next(s, step).tracked == s.tracked && Next(s, step).phases == s.phases;
  }

  lemma StatementsKeepRegistry(s: World, step: Step)
    requires step.Tick? || step.Enqueue? || step.LateClaim? || step.Deliver? || step.AskCancel? || step.ReapRow? || step.RequeueRow? || step.PurgeRow?
    ensures SameRegistry(s, Next(s, step))
  {
    TokensOnlyGrow(s, step);
    hide Run, Query, Accepts;
  }

  lemma ClaimKeepsRegistry(s: World, w: Worker, id: Id, at: Time, stamp: Time)
    requires RegistryOk(s)
    ensures RegistryOk(Next(s, ClaimRow(w, id, at, stamp))) && (Registered(s) ==> Registered(Next(s, ClaimRow(w, id, at, stamp))))
  {
    var step := ClaimRow(w, id, at, stamp);
    var s' := Next(s, step);
    TokensOnlyGrow(s, step);
    forall v | v in s'.phases ensures ClaimedOk(s', v) {
      if v in s.phases { assert ClaimedOk(s, v); }
    }
  }

  /** One claimed row of worker w becomes a registered attempt. */
  predicate Starts(s: World, s': World, w: Worker, t: Token) {
    && w in s.phases && t in GotOf(s, w) && t in s'.attempts
    && s'.db == s.db && s'.attempts == s.attempts[t := s'.attempts[t]]
    && s'.attempts[t].worker == w && s'.attempts[t].id == GotOf(s, w)[t] && !s'.attempts[t].done
    && s'.tracked == s.tracked[(w, GotOf(s, w)[t]) := t]
    && s'.phases.Keys == s.phases.Keys && (forall v | v in s.phases && v != w :: GotOf(s', v) == GotOf(s, v))
    && GotOf(s', w) == GotOf(s, w) - {t}
  }

  lemma StartedClaims(s: World, s': World, w: Worker, t: Token, v: Worker)
    requires Starts(s, s', w, t) && v in s.phases && ClaimedOk(s, v) && ClaimedOk(s, w)
    ensures ClaimedOk(s', v)
  {
  }

  lemma StartedTracks(s: World, s': World, w: Worker, t: Token)
    requires Starts(s, s', w, t) && ClaimedOk(s, w) && TrackedOk(s)
    ensures TrackedOk(s') && (Registered(s) && (w, GotOf(s, w)[t]) !in s.tracked ==> Registered(s'))
  {
    assert t !in s.attempts;
    hide ClaimedOk, GotOf;
  }

  lemma StartedRegistry(s: World, s': World, w: Worker, t: Token)
    requires RegistryOk(s) && Starts(s, s', w, t)
    ensures RegistryOk(s') && (Registered(s) && (w, GotOf(s, w)[t]) !in s.tracked ==> Registered(s'))
  {
    assert ClaimedOk(s, w);
    assert s'.attempts[t].worker == w && s.db.issued[t] == Issue(s'.attempts[t].id, w);
    StartedTracks(s, s', w, t);
    hide TrackedOk, Registered, ClaimedOk, GotOf;
    forall v | v in s'.phases ensures ClaimedOk(s', v) { StartedClaims(s, s', w, t, v); }
  }

  lemma StartShape(s: World, w: Worker, t: Token)
    ensures
      var s' := Next(s, StartOne(w, t));
      if PhaseOf(s, w).Starting? && t in PhaseOf(s, w).got then Starts(s, s', w, t) else s' == s
  {
  }

  lemma StartKeepsRegistry(s: World, w: Worker, t: Token)
    requires RegistryOk(s)
    ensures RegistryOk(Next(s, StartOne(w, t)))
    ensures Registered(s) && Apart(s, StartOne(w, t)) ==> Registered(Next(s, StartOne(w, t)))
  {
    StartShape(s, w, t);
    hide RegistryOk, Registered, Next, Starts;
    if PhaseOf(s, w).Starting? && t in PhaseOf(s, w).got { StartedRegistry(s, Next(s, StartOne(w, t)), w, t); }
  }

  lemma RetireKeepsRegistry(s: World, t: Token)
    requires RegistryOk(s)
    ensures RegistryOk(Next(s, Retire(t))) && (Registered(s) ==> Registered(Next(s, Retire(t))))
  {
    var s' := Next(s, Retire(t));
    forall v | v in s'.phases ensures ClaimedOk(s', v) { assert ClaimedOk(s, v); }
  }

  lemma StepKeepsRegistry(s: World, step: Step)
    requires RegistryOk(s)
    ensures RegistryOk(Next(s, step)) && (Registered(s) && Apart(s, step) ==> Registered(Next(s, step)))
  {
    hide Next, RegistryOk, Registered, Apart, SameRegistry;
    match step
    case ClaimRow(w, id, at, stamp) => ClaimKeepsRegistry(s, w, id, at, stamp);
    case StartOne(w, t) => StartKeepsRegistry(s, w, t);
    case Retire(t) => RetireKeepsRegistry(s, t);
    case _ =>
      if step.Tick? || step.Enqueue? || step.LateClaim? || step.Deliver? || step.AskCancel? || step.ReapRow? || step.RequeueRow? || step.PurgeRow? {
        StatementsKeepRegistry(s, step);
      } else if step.Renew? || step.Receive? || step.Report? || step.Sweep? || step.StopFor? || step.Submit? || step.Settle? {
        AttemptsKeepRegistry(s, step);
      } else {
        ClaimLoopKeepsRegistry(s, step);
      }
      SameRegistryKeeps(s, Next(s, step));
  }

  lemma {:induction false} RunsKeepRegistry(steps: seq<Step>)
    ensures RegistryOk(Exec(Start, steps)) && (NeverTangled(steps) ==> Registered(Exec(Start, steps)))
    decreases |steps|
  {
    hide Next, Apart;
    if steps != [] {
      var before := steps[..|steps| - 1];
      RunsKeepRegistry(before);
      StepKeepsRegistry(Exec(Start, before), steps[|steps| - 1]);
    }
  }

  lemma TangledLosesTheOther(s: World, step: Step)
    requires RegistryOk(s) && !Apart(s, step)
    ensures !Registered(Next(s, step))
  {
    var p := PhaseOf(s, step.w);
    var k := (step.w, p.got[step.token]);
    var first := s.tracked[k];
    assert ClaimedOk(s, step.w);
    var s' := Next(s, step);
    assert first in s'.attempts && !s'.attempts[first].done && s'.tracked[k] == step.token;
  }

  /** A worker's registry names every unfinished attempt throughout a run if and only if it never
      starts a row whose id it still tracks. */
  lemma {:induction false} RegistryIsCompleteIff(steps: seq<Step>)
    ensures NeverTangled(steps) <==> AlwaysRegistered(steps)
    decreases |steps|
  {
    hide Next, Apart;
    if steps != [] {
      var before := steps[..|steps| - 1];
      RegistryIsCompleteIff(before);
      if NeverTangled(before) {
        RunsKeepRegistry(before);
        if Apart(Exec(Start, before), steps[|steps| - 1]) {
          RunsKeepRegistry(steps);
        } else {
          TangledLosesTheOther(Exec(Start, before), steps[|steps| - 1]);
        }
      }
    }
  }

  // -------------------------------------------------------------------- futures with nothing out of order

  /** After `steps`, every step is orderly. */
  ghost predicate OrderlySince(steps: seq<Step>, more: seq<Step>)
    decreases |more|
  {
    more == [] ||
    var before := more[..|more| - 1];
    OrderlySince(steps, before) && Orderly(Exec(Start, steps + before), more[|more| - 1])
  }

  lemma {:induction false} StaysOrderly(steps: seq<Step>, more: seq<Step>)
    requires AlwaysOrderly(steps) && OrderlySince(steps, more)
    ensures AlwaysOrderly(steps + more)
    decreases |more|
  {
    hide Orderly, Exec;
    if more != [] {
      var before := more[..|more| - 1];
      StaysOrderly(steps, before);
      assert (steps + more)[..|steps + more| - 1] == steps + before;
    } else {
      assert steps + more == steps;
    }
  }

  /** Exclusion fails in some future in which nothing else is out of order. */
  ghost predicate CanBreakExclusion(steps: seq<Step>) {
    exists more: seq<Step>, t: Token ::
      OrderlySince(steps, more) && Confident(Exec(Start, steps + more), t) && !Exclusive(Exec(Start, steps + more), t)
  }

  lemma OrderlyIsSafe(steps: seq<Step>)
    requires AlwaysOrderly(steps)
    ensures !CanBreakExclusion(steps)
  {
    hide Exec, Orderly, Exclusive;
    if CanBreakExclusion(steps) {
      var more: seq<Step>, u: Token :|
        OrderlySince(steps, more) && Confident(Exec(Start, steps + more), u) && !Exclusive(Exec(Start, steps + more), u);
      StaysOrderly(steps, more);
      LeaseExclusion(steps + more, u);
    }
  }

  /** The run goes on after `begun` and every step since then is orderly. */
  ghost predicate Follows(begun: seq<Step>, run: seq<Step>) {
    begun <= run && OrderlySince(begun, run[|begun|..])
  }

  lemma FollowsItself(begun: seq<Step>)
    ensures Follows(begun, begun)
  {
    assert begun[|begun|..] == [];
  }

  lemma Breaks(begun: seq<Step>, run: seq<Step>, t: Token)
    requires Follows(begun, run) && Confident(Exec(Start, run), t) && !Exclusive(Exec(Start, run), t)
    ensures CanBreakExclusion(begun)
  {
    hide Exec, OrderlySince, Confident, Exclusive;
    assert begun + run[|begun|..] == run;
  }

  lemma GrownOrderly(begun: seq<Step>, run: seq<Step>, step: Step) returns (longer: seq<Step>)
    requires Follows(begun, run) && Orderly(Exec(Start, run), step)
    ensures Follows(begun, longer) && Exec(Start, longer) == Next(Exec(Start, run), step)
  {
    longer := run + [step];
    assert longer[..|run|] == run;
    hide Exec, Orderly;
    var more := longer[|begun|..];
    assert more[..|more| - 1] == run[|begun|..] && begun + run[|begun|..] == run;
  }

  /** Only starts and late scans can be out of order. */
  lemma Grown(begun: seq<Step>, run: seq<Step>, step: Step) returns (longer: seq<Step>)
    requires Follows(begun, run) && !step.StartOne? && !step.LateScan?
    ensures Follows(begun, longer) && Exec(Start, longer) == Next(Exec(Start, run), step)
  {
    assert Orderly(Exec(Start, run), step);
    hide Exec, Follows, Orderly;
    longer := GrownOrderly(begun, run, step);
  }

  /** Whatever is registered under k has ended; nothing else has changed. */
  predicate Cleared(s: World, s': World, k: (Worker, Id)) {
    && s'.db == s.db && s'.now == s.now && s'.phases == s.phases && s'.wire == s.wire && s'.tracked == s.tracked - {k}
    && s'.attempts.Keys == s.attempts.Keys
    && (forall y | y in s.attempts && (s.attempts[y].worker, s.attempts[y].id) == k && (k !in s.tracked || s.tracked[k] != y) ::
          s'.attempts[y] == s.attempts[y])
    && (forall y | y in s.attempts && (s.attempts[y].worker, s.attempts[y].id) != k :: s'.attempts[y] == s.attempts[y])
  }

  lemma Ended(s: World, k: (Worker, Id))
    requires TrackedOk(s) && k in s.tracked
    ensures Cleared(s, Next(Next(s, Settle(s.tracked[k])), Retire(s.tracked[k])), k)
  {
    var y := s.tracked[k];
    var s1 := Next(s, Settle(y));
    assert s1 == SetAttempt(s, y, s.attempts[y].(settled := true));
    assert Next(s1, Retire(y)) == SetAttempt(s1, y, s1.attempts[y].(done := true)).(tracked := s.tracked - {k});
  }

  /** The attempt registered under k, if any, ends. */
  lemma Clears(begun: seq<Step>, run: seq<Step>, k: (Worker, Id)) returns (longer: seq<Step>)
    requires Follows(begun, run)
    ensures Follows(begun, longer) && Cleared(Exec(Start, run), Exec(Start, longer), k)
  {
    longer := run;
    RunsKeepRegistry(run);
    assert TrackedOk(Exec(Start, run));
    var s := Exec(Start, run);
    if k in s.tracked {
      Ended(s, k);
      hide Exec, Next, Follows, Cleared;
      longer := Grown(begun, longer, Settle(s.tracked[k]));
      longer := Grown(begun, longer, Retire(s.tracked[k]));
    } else {
      assert s.tracked - {k} == s.tracked;
    }
  }

  // ----------------------------------------------------------------------------------- a tangled start

  /** An unfinished attempt of worker w and an open task, which the registry does not name. */
  predicate Dropped(s: World, w: Worker, id: Id, other: Token) {
    && other in s.attempts && s.attempts[other].worker == w && s.attempts[other].id == id && !s.attempts[other].done
    && ((w, id) in s.tracked ==> s.tracked[(w, id)] != other)
    && Open(s.db, id)
  }

  lemma TangledStartDrops(s: World, w: Worker, t: Token)
    requires RegistryOk(s) && !Untangled(s, StartOne(w, t))
    ensures
      var id := PhaseOf(s, w).got[t];
      var s' := Next(s, StartOne(w, t));
      PhaseOf(s', w).Starting? && Dropped(s', w, id, s.tracked[(w, id)])
  {
    assert ClaimedOk(s, w);
    assert t in GotOf(s, w);
  }

  lemma ClearingDropsNot(s: World, s': World, k: (Worker, Id), w: Worker, id: Id, other: Token)
    requires Dropped(s, w, id, other) && Cleared(s, s', k)
    ensures Dropped(s', w, id, other) && k !in s'.tracked
  {
  }

  lemma FreeStart(s: World, w: Worker, id: Id, other: Token, u: Token)
    requires RegistryOk(s) && Dropped(s, w, id, other)
    requires PhaseOf(s, w).Starting? && u in PhaseOf(s, w).got && (w, PhaseOf(s, w).got[u]) !in s.tracked
    ensures Orderly(s, StartOne(w, u))
    ensures
      var s' := Next(s, StartOne(w, u));
      Dropped(s', w, id, other) && PhaseOf(s', w).Starting? && |PhaseOf(s', w).got| < |PhaseOf(s, w).got|
  {
    assert ClaimedOk(s, w);
    assert u in GotOf(s, w);
    var got := PhaseOf(s, w).got;
    assert PhaseOf(Next(s, StartOne(w, u)), w).got == got - {u};
    assert (got - {u}).Keys == got.Keys - {u};
    assert |(got - {u}).Keys| == |got - {u}| && |got.Keys| == |got|;
  }

  /** The remaining rows of the claim are started, each after any attempt of its own task has ended. */
  lemma {:induction false} StartRest(begun: seq<Step>, run: seq<Step>, w: Worker, id: Id, other: Token) returns (longer: seq<Step>)
    requires Follows(begun, run) && PhaseOf(Exec(Start, run), w).Starting? && Dropped(Exec(Start, run), w, id, other)
    ensures Follows(begun, longer) && Dropped(Exec(Start, longer), w, id, other)
    ensures PhaseOf(Exec(Start, longer), w).Starting? && PhaseOf(Exec(Start, longer), w).got == map[]
    decreases |PhaseOf(Exec(Start, run), w).got|
  {
    hide Exec, Next, Orderly, Follows, Dropped, RegistryOk;
    longer := run;
    if PhaseOf(Exec(Start, run), w).got != map[] {
      var u :| u in PhaseOf(Exec(Start, run), w).got;
      var k := (w, PhaseOf(Exec(Start, run), w).got[u]);
      longer := Clears(begun, run, k);
      ClearingDropsNot(Exec(Start, run), Exec(Start, longer), k, w, id, other);
      RunsKeepRegistry(longer);
      FreeStart(Exec(Start, longer), w, id, other, u);
      longer := GrownOrderly(begun, longer, StartOne(w, u));
      longer := StartRest(begun, longer, w, id, other);
    }
  }

  // -------------------------------------------------------- an open task can always be claimed again

  /** Only the database and the clock have moved. */
  predicate OnlyRows(s: World, s': World) {
    s'.attempts == s.attempts && s'.tracked == s.tracked && s'.phases == s.phases && s'.now >= s.now
  }

  /** Row j may have moved, keeping its type and key and, if open, staying open. */
  predicate OnlyRow(s: World, s': World, j: Id) {
    && OnlyRows(s, s') && j in s.db.rows && j in s'.db.rows && s'.db.rows == s.db.rows[j := s'.db.rows[j]]
    && s'.db.rows[j].typ == s.db.rows[j].typ && s'.db.rows[j].key == s.db.rows[j].key
    && (Open(s.db, j) ==> Open(s'.db, j))
  }

  function Max(a: Time, b: Time): Time { if a < b then b else a }

  lemma LeaseRunsOut(s: World, j: Id)
    requires j in s.db.rows && s.db.rows[j].state.Running? && s.db.rows[j].leaseUntil.Some?
    ensures
      var s1 := Next(s, Tick(Max(s.db.rows[j].leaseUntil.value - s.now, 0.0) + 1.0));
      var s2 := Next(s1, ReapRow(j, s1.now, s1.now));
      OnlyRow(s, s2, j) && !s2.db.rows[j].state.Running?
  {
  }

  /** A running row is left to the reaper. */
  lemma ReapIfRunning(begun: seq<Step>, run: seq<Step>, j: Id) returns (longer: seq<Step>)
    requires Follows(begun, run) && j in Exec(Start, run).db.rows
    ensures Follows(begun, longer) && OnlyRow(Exec(Start, run), Exec(Start, longer), j)
    ensures !Exec(Start, longer).db.rows[j].state.Running?
  {
    hide Exec, Next, Follows, OnlyRow, HistoryOk;
    longer := run;
    var s := Exec(Start, run);
    RunsKeepHistory(run);
    RunningHasLease(s.db, j);
    if s.db.rows[j].state.Running? {
      LeaseRunsOut(s, j);
      longer := Grown(begun, longer, Tick(Max(s.db.rows[j].leaseUntil.value - s.now, 0.0) + 1.0));
      var now := Exec(Start, longer).now;
      longer := Grown(begun, longer, ReapRow(j, now, now));
    } else {
      Unmoved(s, j);
    }
  }

  lemma RunningHasLease(db: Db, j: Id)
    requires HistoryOk(db) && j in db.rows
    ensures db.rows[j].state.Running? ==> db.rows[j].leaseUntil.Some?
  {
    assert Shaped(db.rows[j]);
  }

  lemma Unmoved(s: World, j: Id)
    requires j in s.db.rows
    ensures OnlyRow(s, s, j)
  {
    assert s.db.rows[j := s.db.rows[j]] == s.db.rows;
  }

  lemma QueuedIsCancelled(s: World, j: Id)
    requires j in s.db.rows && s.db.rows[j].state.Queued?
    ensures var s' := Next(s, AskCancel(j, s.now)); OnlyRow(s, s', j) && s'.db.rows[j].state.Cancelled?
  {
  }

  lemma OnlyRowTwice(s: World, s1: World, s2: World, j: Id)
    requires OnlyRow(s, s1, j) && OnlyRow(s1, s2, j)
    ensures OnlyRow(s, s2, j)
  {
  }

  /** A task that holds a key gives it up. */
  lemma GivesUpItsKey(begun: seq<Step>, run: seq<Step>, j: Id) returns (longer: seq<Step>)
    requires Follows(begun, run) && j in Exec(Start, run).db.rows
    ensures Follows(begun, longer) && OnlyRow(Exec(Start, run), Exec(Start, longer), j)
    ensures !Exec(Start, longer).db.rows[j].state.Active()
  {
    hide Exec, Next, Follows;
    longer := ReapIfRunning(begun, run, j);
    var s := Exec(Start, longer);
    if s.db.rows[j].state.Queued? {
      QueuedIsCancelled(s, j);
      var more := Grown(begun, longer, AskCancel(j, s.now));
      OnlyRowTwice(Exec(Start, run), s, Exec(Start, more), j);
      longer := more;
    }
  }

  /** The key of task id is free once the one task that may hold it has given it up. */
  lemma KeyIsFree(s: World, s': World, id: Id, j: Id)
    requires KeysOk(s.db.rows) && id in s.db.rows && j in s.db.rows && j != id && s.db.rows[j].state.Active()
    requires s.db.rows[j].typ == s.db.rows[id].typ && s.db.rows[j].key == s.db.rows[id].key
    requires OnlyRow(s, s', j) && !s'.db.rows[j].state.Active()
    ensures KeyFree(s'.db.rows, s.db.rows[id].typ, s.db.rows[id].key, id)
  {
  }

  lemma RequeueOpens(s: World, id: Id)
    requires id in s.db.rows && (s.db.rows[id].state.Failed? || s.db.rows[id].state.Cancelled?)
    requires KeyFree(s.db.rows, s.db.rows[id].typ, s.db.rows[id].key, id)
    ensures var s' := Next(s, RequeueRow(id, s.now)); OnlyRows(s, s') && id in s'.db.rows && s'.db.rows[id].state.Queued?
  {
  }

  /** A failed or cancelled task is requeued, once its key is free. */
  lemma Requeues(begun: seq<Step>, run: seq<Step>, id: Id) returns (longer: seq<Step>)
    requires Follows(begun, run) && id in Exec(Start, run).db.rows
    requires Exec(Start, run).db.rows[id].state.Failed? || Exec(Start, run).db.rows[id].state.Cancelled?
    ensures Follows(begun, longer) && OnlyRows(Exec(Start, run), Exec(Start, longer))
    ensures id in Exec(Start, longer).db.rows && Exec(Start, longer).db.rows[id].state.Queued?
  {
    hide Exec, Next, Follows, KeysOk;
    longer := run;
    var s := Exec(Start, run);
    var r := s.db.rows[id];
    if !KeyFree(s.db.rows, r.typ, r.key, id) {
      var j :| j in s.db.rows && j != id && s.db.rows[j].state.Active() && s.db.rows[j].typ == r.typ && s.db.rows[j].key == r.key;
      RunsKeepHistory(run);
      longer := GivesUpItsKey(begun, run, j);
      KeyIsFree(s, Exec(Start, longer), id, j);
    }
    var s1 := Exec(Start, longer);
    assert s1.db.rows[id] == r;
    RequeueOpens(s1, id);
    longer := Grown(begun, longer, RequeueRow(id, s1.now));
  }

  /** The task is due and so is its row. */
  predicate Due(s: World, id: Id) {
    id in s.db.rows && s.db.rows[id].state.Queued? && s.db.rows[id].runAt <= s.now
  }

  lemma WaitingMakesDue(s: World, id: Id)
    requires id in s.db.rows && s.db.rows[id].state.Queued?
    ensures var s' := Next(s, Tick(Max(s.db.rows[id].runAt - s.now, 0.0))); OnlyRows(s, s') && Due(s', id)
  {
  }

  /** Time, the reaper and operators can always bring an open task back into the queue. */
  lemma ComesDue(begun: seq<Step>, run: seq<Step>, id: Id) returns (longer: seq<Step>)
    requires Follows(begun, run) && Open(Exec(Start, run).db, id)
    ensures Follows(begun, longer) && OnlyRows(Exec(Start, run), Exec(Start, longer)) && Due(Exec(Start, longer), id)
  {
    hide Exec, Next, Follows;
    longer := ReapIfRunning(begun, run, id);
    if !Exec(Start, longer).db.rows[id].state.Queued? { longer := Requeues(begun, longer, id); }
    var s := Exec(Start, longer);
    WaitingMakesDue(s, id);
    longer := Grown(begun, longer, Tick(Max(s.db.rows[id].runAt - s.now, 0.0)));
  }

  // ------------------------------------------------------------------ and its next attempt loses the row

  /** The worker's registry and the row of token t in the states of the run below. */
  predicate Doomed(s: World, w: Worker, id: Id, t: Token, p: Phase) {
    && PhaseOf(s, w) == p && Confident(s, t) && s.attempts[t].id == id
    && id in s.db.rows && Holds(s.db.rows[id], t) && s.db.rows[id].worker == Some(w)
  }

  /** An unfinished attempt of the same worker and task. */
  predicate Another(s: World, w: Worker, id: Id, t: Token, other: Token) {
    other != t && other in s.attempts && s.attempts[other].worker == w && s.attempts[other].id == id && !s.attempts[other].done
  }

  lemma ClaimedAgain(s: World, w: Worker, id: Id, other: Token)
    requires RegistryOk(s) && PhaseOf(s, w).Idle? && Dropped(s, w, id, other) && (w, id) !in s.tracked && Due(s, id)
    ensures
      var t := |s.db.issued|;
      var s' := Next(Next(Next(s, ClaimBegin(w, 30.0)), ClaimRow(w, id, s.now, s.now)), ClaimAnswered(w));
      && PhaseOf(s', w) == Starting(s.now, 30.0, map[t := id]) && s'.now == s.now
      && s'.attempts == s.attempts && s'.tracked == s.tracked && t !in s.attempts
      && id in s'.db.rows && Holds(s'.db.rows[id], t) && s'.db.rows[id].worker == Some(w)
  {
    var s1 := Next(s, ClaimBegin(w, 30.0));
    var s2 := Next(s1, ClaimRow(w, id, s.now, s.now));
    assert PhaseOf(s1, w) == Claiming(s.now, 30.0, map[]);
    assert s2.db.rows[id].state.Running?;
  }

  lemma StartedAlone(s: World, w: Worker, id: Id, t: Token, other: Token)
    requires PhaseOf(s, w) == Starting(s.now, 30.0, map[t := id]) && (w, id) !in s.tracked && t !in s.attempts
    requires id in s.db.rows && Holds(s.db.rows[id], t) && s.db.rows[id].worker == Some(w) && Another(s, w, id, t, other)
    ensures Orderly(s, StartOne(w, t))
    ensures var s' := Next(Next(s, StartOne(w, t)), StartsDone(w)); Doomed(s', w, id, t, Idle) && Another(s', w, id, t, other)
  {
    assert map[t := id] - {t} == map[];
  }

  lemma OtherEnds(s: World, w: Worker, id: Id, t: Token, other: Token)
    requires Doomed(s, w, id, t, Idle) && Another(s, w, id, t, other)
    ensures var s' := Next(Next(s, Settle(other)), Retire(other)); Doomed(s', w, id, t, Idle) && (w, id) !in s'.tracked
  {
  }

  lemma ReplyIsLost(s: World, w: Worker, id: Id, t: Token)
    requires Doomed(s, w, id, t, Idle) && (w, id) !in s.tracked
    ensures var s' := Next(Next(s, ClaimBegin(w, 1.0)), ClaimLost(w)); Doomed(s', w, id, t, Releasing) && (w, id) !in s'.tracked
  {
  }

  lemma RowIsReleased(s: World, w: Worker, id: Id, t: Token)
    requires Doomed(s, w, id, t, Releasing) && (w, id) !in s.tracked
    ensures
      var s' := Next(Next(s, OrphanScan(w, {id})), Deliver(Outcome(t, id, Release, None), s.now, s.now));
      Confident(s', t) && !Exclusive(s', t)
  {
    assert IsOrphan(s, w, id);
    var s1 := Next(s, OrphanScan(w, {id}));
    assert Outcome(t, id, Release, None) in s1.wire;
    var s' := Next(s1, Deliver(Outcome(t, id, Release, None), s.now, s.now));
    assert !Holds(s'.db.rows[id], t);
  }

  /** The worker claims the task once more and starts it. */
  lemma Reclaim(begun: seq<Step>, run: seq<Step>, w: Worker, id: Id, other: Token) returns (longer: seq<Step>, t: Token)
    requires Follows(begun, run)
    requires var s := Exec(Start, run); PhaseOf(s, w).Idle? && Dropped(s, w, id, other) && (w, id) !in s.tracked && Due(s, id)
    ensures Follows(begun, longer)
    ensures Doomed(Exec(Start, longer), w, id, t, Idle) && Another(Exec(Start, longer), w, id, t, other)
  {
    RunsKeepRegistry(run);
    var s := Exec(Start, run);
    hide Exec, Next, Follows, Orderly, RegistryOk, Doomed;
    t := |s.db.issued|;
    ClaimedAgain(s, w, id, other);
    longer := Grown(begun, run, ClaimBegin(w, 30.0));
    longer := Grown(begun, longer, ClaimRow(w, id, s.now, s.now));
    longer := Grown(begun, longer, ClaimAnswered(w));
    StartedAlone(Exec(Start, longer), w, id, t, other);
    longer := GrownOrderly(begun, longer, StartOne(w, t));
    longer := Grown(begun, longer, StartsDone(w));
  }

  /** The dropped attempt ends, which unregisters the new one, and an orphan release gives the row away. */
  lemma LosesItsRow(begun: seq<Step>, run: seq<Step>, w: Worker, id: Id, t: Token, other: Token)
    requires Follows(begun, run) && Doomed(Exec(Start, run), w, id, t, Idle) && Another(Exec(Start, run), w, id, t, other)
    ensures CanBreakExclusion(begun)
  {
    hide Exec, Next, Follows, Doomed, Another, CanBreakExclusion, Confident, Exclusive;
    OtherEnds(Exec(Start, run), w, id, t, other);
    var end := Grown(begun, run, Settle(other));
    end := Grown(begun, end, Retire(other));
    ReplyIsLost(Exec(Start, end), w, id, t);
    end := Grown(begun, end, ClaimBegin(w, 1.0));
    end := Grown(begun, end, ClaimLost(w));
    RowIsReleased(Exec(Start, end), w, id, t);
    var now := Exec(Start, end).now;
    end := Grown(begun, end, OrphanScan(w, {id}));
    end := Grown(begun, end, Deliver(Outcome(t, id, Release, None), now, now));
    Breaks(begun, end, t);
  }

  lemma StartsAreDone(s: World, w: Worker, id: Id, other: Token)
    requires PhaseOf(s, w).Starting? && PhaseOf(s, w).got == map[] && Dropped(s, w, id, other)
    ensures var s' := Next(s, StartsDone(w)); PhaseOf(s', w).Idle? && Dropped(s', w, id, other)
  {
  }

  lemma RowsDropNothing(s: World, s': World, w: Worker, id: Id, other: Token)
    requires Dropped(s, w, id, other) && OnlyRows(s, s') && Due(s', id)
    ensures Dropped(s', w, id, other)
  {
  }

  lemma TangledStartBreaks(steps: seq<Step>, w: Worker, t: Token)
    requires !Untangled(Exec(Start, steps), StartOne(w, t))
    ensures CanBreakExclusion(steps + [StartOne(w, t)])
  {
    var s := Exec(Start, steps);
    var id := PhaseOf(s, w).got[t];
    var other := s.tracked[(w, id)];
    RunsKeepRegistry(steps);
    TangledStartDrops(s, w, t);
    var begun := steps + [StartOne(w, t)];
    assert begun[..|steps|] == steps;
    assert Exec(Start, begun) == Next(s, StartOne(w, t));
    hide *;
    FollowsItself(begun);
    var run := StartRest(begun, begun, w, id, other);
    StartsAreDone(Exec(Start, run), w, id, other);
    run := Grown(begun, run, StartsDone(w));
    ReclaimBreaks(begun, run, w, id, other);
  }

  lemma ReclaimBreaks(begun: seq<Step>, run: seq<Step>, w: Worker, id: Id, other: Token)
    requires Follows(begun, run) && PhaseOf(Exec(Start, run), w).Idle? && Dropped(Exec(Start, run), w, id, other)
    ensures CanBreakExclusion(begun)
  {
    hide Exec, Follows, CanBreakExclusion, Doomed, Another;
    var idle := Clears(begun, run, (w, id));
    ClearingDropsNot(Exec(Start, run), Exec(Start, idle), (w, id), w, id, other);
    var due := ComesDue(begun, idle, id);
    RowsDropNothing(Exec(Start, idle), Exec(Start, due), w, id, other);
    var end, t := Reclaim(begun, due, w, id, other);
    LosesItsRow(begun, end, w, id, t, other);
  }

  // --------------------------------------------------------------------- orphan releases that run late

  /** A release of row id is on the wire, and the holder of its token may count on its lease. */
  ghost predicate Overdue(s: World, id: Id, t: Token) {
    && id in s.db.rows && Holds(s.db.rows[id], t) && Outcome(t, id, Release, None) in s.wire && CanCount(s, t)
    && t < |s.db.issued| && s.db.issued[t].id == id
  }

  lemma LateScanSends(s: World, step: Step) returns (id: Id, t: Token)
    requires RowsOk(s.db) && !Punctual(s, step)
    ensures Overdue(Next(s, step), id, t)
  {
    id :| id in step.ids && Unlisted(s, step.w, step.live, id) && CanCount(s, s.db.rows[id].token.value);
    t := s.db.rows[id].token.value;
    assert TokenOk(s.db, id);
    var s' := Next(s, step);
    assert Outcome(t, id, Release, None) in s'.wire;
    if CanWork(s, t) {
      var since :| LeaseStart(s, t, since) && s.now - since < s.attempts[t].lease;
      assert LeaseStart(s', t, since);
    } else {
      var w :| t in GotOf(s, w) && YoungClaim(s, w);
      assert t in GotOf(s', w) && YoungClaim(s', w);
    }
  }

  /** The attempt counts on its lease while the release of its row is on the wire. */
  predicate AboutToLose(s: World, id: Id, t: Token) {
    && id in s.db.rows && Holds(s.db.rows[id], t) && Outcome(t, id, Release, None) in s.wire
    && Confident(s, t) && s.attempts[t].id == id
  }

  lemma ReleasedLate(s: World, id: Id, t: Token)
    requires AboutToLose(s, id, t)
    ensures var s' := Next(s, Deliver(Outcome(t, id, Release, None), s.now, s.now)); Confident(s', t) && !Exclusive(s', t)
  {
    var s' := Next(s, Deliver(Outcome(t, id, Release, None), s.now, s.now));
    assert !Holds(s'.db.rows[id], t);
  }

  lemma LateReleaseBreaks(begun: seq<Step>, run: seq<Step>, id: Id, t: Token)
    requires Follows(begun, run) && AboutToLose(Exec(Start, run), id, t)
    ensures CanBreakExclusion(begun)
  {
    hide Exec, Next, Follows, CanBreakExclusion, Confident, Exclusive, AboutToLose;
    var s := Exec(Start, run);
    ReleasedLate(s, id, t);
    var end := Grown(begun, run, Deliver(Outcome(t, id, Release, None), s.now, s.now));
    Breaks(begun, end, t);
  }

  /** A young confirmation is received. */
  lemma ReplyArrives(s: World, id: Id, t: Token, since: Time, flagged: bool)
    requires RegistryOk(s) && Overdue(s, id, t) && t in s.attempts && Working(s.attempts[t])
    requires s.now - since < s.attempts[t].lease && Confirmed(t, since, flagged) in s.replies
    ensures AboutToLose(Next(s, Receive(Confirmed(t, since, flagged))), id, t)
  {
  }

  /** A young renewal reaches the row, which is still the attempt's. */
  lemma RenewalArrives(s: World, id: Id, t: Token, since: Time)
    requires RegistryOk(s) && Overdue(s, id, t) && t in s.attempts && Working(s.attempts[t])
    requires s.now - since < s.attempts[t].lease && Renewal(t, id, since, s.attempts[t].lease) in s.wire
    ensures
      var m := Renewal(t, id, since, s.attempts[t].lease);
      var r := AnswerOf(s, m);
      AboutToLose(Next(Next(s, Deliver(m, s.now, s.now)), Receive(r)), id, t)
  {
    var m := Renewal(t, id, since, s.attempts[t].lease);
    var s1 := Next(s, Deliver(m, s.now, s.now));
    assert AnswerOf(s, m).Confirmed?;
    assert s1.db.rows[id].token == Some(t);
  }

  lemma WorkingBreaks(begun: seq<Step>, run: seq<Step>, id: Id, t: Token)
    requires Follows(begun, run) && Overdue(Exec(Start, run), id, t) && CanWork(Exec(Start, run), t)
    ensures CanBreakExclusion(begun)
  {
    RunsKeepRegistry(run);
    var s := Exec(Start, run);
    var since :| LeaseStart(s, t, since) && s.now - since < s.attempts[t].lease;
    assert s.attempts[t].id == id;
    hide Exec, Next, Follows, CanBreakExclusion, Overdue;
    var end := run;
    if since == s.attempts[t].renewedAt {
      assert AboutToLose(s, id, t);
    } else if Confirmed(t, since, false) in s.replies || Confirmed(t, since, true) in s.replies {
      var flagged := Confirmed(t, since, true) in s.replies;
      ReplyArrives(s, id, t, since, flagged);
      end := Grown(begun, end, Receive(Confirmed(t, since, flagged)));
    } else {
      RenewalArrives(s, id, t, since);
      var m := Renewal(t, id, since, s.attempts[t].lease);
      end := Grown(begun, end, Deliver(m, s.now, s.now));
      end := Grown(begun, end, Receive(AnswerOf(s, m)));
    }
    LateReleaseBreaks(begun, end, id, t);
  }

  /** A young claim that waits to be started is started after all. */
  predicate Startable(s: World, w: Worker, id: Id, t: Token) {
    && PhaseOf(s, w).Starting? && t in PhaseOf(s, w).got && PhaseOf(s, w).got[t] == id && YoungClaim(s, w)
    && id in s.db.rows && Holds(s.db.rows[id], t) && Outcome(t, id, Release, None) in s.wire
  }

  lemma ClaimIsAnswered(s: World, w: Worker, id: Id, t: Token)
    requires RegistryOk(s) && Overdue(s, id, t) && t in GotOf(s, w) && YoungClaim(s, w)
    ensures PhaseOf(s, w).Starting? ==> Startable(s, w, id, t)
    ensures PhaseOf(s, w).Claiming? ==> Startable(Next(s, ClaimAnswered(w)), w, id, t)
  {
    assert w in s.phases && ClaimedOk(s, w);
  }

  lemma StartedLate(s: World, w: Worker, id: Id, t: Token)
    requires Startable(s, w, id, t) && (w, id) !in s.tracked
    ensures Orderly(s, StartOne(w, t)) && AboutToLose(Next(s, StartOne(w, t)), id, t)
  {
  }

  lemma ClaimedBreaks(begun: seq<Step>, run: seq<Step>, w: Worker, id: Id, t: Token)
    requires Follows(begun, run) && Overdue(Exec(Start, run), id, t)
    requires t in GotOf(Exec(Start, run), w) && YoungClaim(Exec(Start, run), w)
    ensures CanBreakExclusion(begun)
  {
    hide Exec, Next, Follows, CanBreakExclusion, Overdue, RegistryOk, Orderly, AboutToLose;
    RunsKeepRegistry(run);
    var end := run;
    ClaimIsAnswered(Exec(Start, run), w, id, t);
    if PhaseOf(Exec(Start, run), w).Claiming? { end := Grown(begun, end, ClaimAnswered(w)); }
    var clear := Clears(begun, end, (w, id));
    assert Startable(Exec(Start, clear), w, id, t);
    StartedLate(Exec(Start, clear), w, id, t);
    end := GrownOrderly(begun, clear, StartOne(w, t));
    LateReleaseBreaks(begun, end, id, t);
  }

  lemma LateScanBreaks(steps: seq<Step>, step: Step)
    requires !Punctual(Exec(Start, steps), step)
    ensures CanBreakExclusion(steps + [step])
  {
    var begun := steps + [step];
    assert begun[..|steps|] == steps;
    RunsKeepHistory(steps);
    var id, t := LateScanSends(Exec(Start, steps), step);
    var s := Exec(Start, begun);
    assert Overdue(s, id, t);
    hide Exec, Next, CanWork, YoungClaim, GotOf, CanBreakExclusion;
    FollowsItself(begun);
    if CanWork(s, t) {
      WorkingBreaks(begun, begun, id, t);
    } else {
      var w :| t in GotOf(s, w) && YoungClaim(s, w);
      ClaimedBreaks(begun, begun, w, id, t);
    }
  }

  // -------------------------------------------------------------------------------- exactly these steps

  /** After an orderly run, a step endangers exclusion if and only if it is out of order. */
  lemma ExclusionBreaksIff(steps: seq<Step>, step: Step)
    requires AlwaysOrderly(steps)
    ensures CanBreakExclusion(steps + [step]) <==> !Orderly(Exec(Start, steps), step)
  {
    hide Exec, CanBreakExclusion, Untangled, Punctual;
    var begun := steps + [step];
    assert begun[..|begun| - 1] == steps;
    if Orderly(Exec(Start, steps), step) {
      OrderlyIsSafe(begun);
    } else if !Punctual(Exec(Start, steps), step) {
      LateScanBreaks(steps, step);
    } else {
      OnlyStartsTangle(Exec(Start, steps), step);
      TangledStartBreaks(steps, step.w, step.token);
    }
  }

  lemma OnlyStartsTangle(s: World, step: Step)
    requires !Untangled(s, step)
    ensures step.StartOne?
  {
  }

  /** Over whole runs: exclusion is in danger at no moment if and only if every step is orderly. */
  lemma {:induction false} SafeRunsIff(steps: seq<Step>)
    ensures AlwaysOrderly(steps) <==> forall k | 0 <= k <= |steps| :: !CanBreakExclusion(steps[..k])
    decreases |steps|
  {
    hide Exec, CanBreakExclusion, Orderly;
    assert steps[..|steps|] == steps;
    if steps == [] {
      OrderlyIsSafe(steps);
    } else {
      var before := steps[..|steps| - 1];
      SafeRunsIff(before);
      assert before + [steps[|steps| - 1]] == steps;
      assert forall k | 0 <= k < |steps| :: before[..k] == steps[..k];
      if AlwaysOrderly(before) { ExclusionBreaksIff(before, steps[|steps| - 1]); }
    }
  }

  /** What `_start_attempt` could check: a start endangers exclusion if and only if the worker still tracks
      the task and the task is still there and has not succeeded. */
  lemma StartIsSafeIff(steps: seq<Step>, w: Worker, t: Token)
    requires AlwaysOrderly(steps)
    requires var p := PhaseOf(Exec(Start, steps), w); p.Starting? && t in p.got
    ensures
      var s := Exec(Start, steps);
      var id := PhaseOf(s, w).got[t];
      CanBreakExclusion(steps + [StartOne(w, t)])
      <==> (w, id) in s.tracked && id in s.db.rows && !s.db.rows[id].state.Succeeded?
  {
    hide Exec, CanBreakExclusion;
    ExclusionBreaksIff(steps, StartOne(w, t));
  }

  /** A late orphan release endangers exclusion if and only if it finds a row whose holder may count on its
      lease, now or later: an attempt at work that has, or may still be told, a lease start younger than
      the lease, or a claim younger than that whose row is still to be started. */
  lemma LateScanIsSafeIff(steps: seq<Step>, w: Worker, live: set<Id>, ids: set<Id>)
    requires AlwaysOrderly(steps)
    ensures
      var s := Exec(Start, steps);
      CanBreakExclusion(steps + [LateScan(w, live, ids)])
      <==> (w, live) in s.scans
           && exists id :: id in ids && Unlisted(s, w, live, id) && CanCount(s, s.db.rows[id].token.value)
  {
    hide Exec, CanBreakExclusion, CanCount;
    ExclusionBreaksIff(steps, LateScan(w, live, ids));
  }

  // ------------------------------------------------------------------------ a run that goes wrong

  lemma {:induction false} StatesAreExec(run: seq<Step>, states: seq<World>)
    requires |states| == |run| + 1 && states[0] == Start
    requires forall k | 0 <= k < |run| :: states[k + 1] == Next(states[k], run[k])
    ensures Exec(Start, run) == states[|run|]
    decreases |run|
  {
    hide Next;
    if run != [] { StatesAreExec(run[..|run| - 1], states[..|run|]); }
  }

  const FIRST := Attempt(0, 1, 30.0, 0.0, None, None, false, false)
  const SECOND := FIRST.(renewedAt := 31.0)
  const FIRST_ENDED := FIRST.(settled := true, done := true)

  /** Worker 0's side and task 1's row, at one moment. */
  predicate Scene(s: World, now: Time, p: Phase, token: Option<Token>, attempts: map<Token, Attempt>, tracked: map<(Worker, Id), Token>) {
    && s.now == now && PhaseOf(s, 0) == p && s.attempts == attempts && s.tracked == tracked
    && s.db.rows.Keys == {1} && |s.db.issued| == (if now == 0.0 then if token.None? then 0 else 1 else if token.None? then 1 else 2)
    && var r := s.db.rows[1];
    && r.token == token && r.state == (if token.Some? then Running else Queued)
    && r.cancelRequestedAt == None && r.failures == (if now == 0.0 then 0 else 1) && r.maxAttempts == 3
    && (token.Some? ==> r.leaseUntil == Some(now + 30.0) && r.worker == Some(0))
    && (token.None? ==> r.runAt <= now)
  }

  lemma Plays(s: World, steps: seq<Step>) returns (t: World, states: seq<World>)
    requires |steps| == 3
    ensures t == Next(Next(Next(s, steps[0]), steps[1]), steps[2])
    ensures states == [Next(s, steps[0]), Next(Next(s, steps[0]), steps[1]), t]
  {
    t := Next(Next(Next(s, steps[0]), steps[1]), steps[2]);
    states := [Next(s, steps[0]), Next(Next(s, steps[0]), steps[1]), t];
  }

  const RUN: seq<Step> := [
    Enqueue("t", None, 3, 0.0), ClaimBegin(0, 30.0), ClaimRow(0, 1, 0.0, 0.0),
    ClaimAnswered(0), StartOne(0, 0), StartsDone(0),
    Tick(30.0), Tick(1.0), ReapRow(1, 31.0, 31.0),
    ClaimBegin(0, 30.0), ClaimRow(0, 1, 31.0, 31.0), ClaimAnswered(0),
    StartOne(0, 1), StartsDone(0), Settle(0),
    Retire(0), ClaimBegin(0, 30.0), ClaimLost(0)]

  const LAST: seq<Step> := [OrphanScan(0, {1}), Deliver(Outcome(1, 1, Release, None), 31.0, 31.0)]

  lemma FirstEnqueued(s: World)
    requires s == Start
    ensures Scene(Next(s, RUN[0]), 0.0, Idle, None, map[], map[])
  {
  }

  lemma Claimed(s: World)
    requires s == Start
    ensures Scene(Next(Next(Next(s, RUN[0]), RUN[1]), RUN[2]), 0.0, Claiming(0.0, 30.0, map[0 := 1]), Some(0), map[], map[])
  {
    var s1 := Next(s, RUN[0]);
    FirstEnqueued(s);
    hide Next;
    ClaimedFirst(s1);
  }

  lemma ClaimedFirst(s: World)
    requires Scene(s, 0.0, Idle, None, map[], map[])
    ensures Scene(Next(Next(s, RUN[1]), RUN[2]), 0.0, Claiming(0.0, 30.0, map[0 := 1]), Some(0), map[], map[])
  {
  }

  lemma Started(s: World)
    requires Scene(s, 0.0, Claiming(0.0, 30.0, map[0 := 1]), Some(0), map[], map[])
    ensures Scene(Next(Next(Next(s, RUN[3]), RUN[4]), RUN[5]), 0.0, Idle, Some(0), map[0 := FIRST], map[(0, 1) := 0])
  {
  }

  lemma Reaped(s: World)
    requires Scene(s, 0.0, Idle, Some(0), map[0 := FIRST], map[(0, 1) := 0])
    ensures Scene(Next(Next(Next(s, RUN[6]), RUN[7]), RUN[8]), 31.0, Idle, None, map[0 := FIRST], map[(0, 1) := 0])
  {
  }

  lemma Reclaimed(s: World)
    requires Scene(s, 31.0, Idle, None, map[0 := FIRST], map[(0, 1) := 0])
    ensures Scene(Next(Next(Next(s, RUN[9]), RUN[10]), RUN[11]), 31.0, Starting(31.0, 30.0, map[1 := 1]), Some(1),
                  map[0 := FIRST], map[(0, 1) := 0])
  {
  }

  lemma StartedAgain(s: World)
    requires Scene(s, 31.0, Starting(31.0, 30.0, map[1 := 1]), Some(1), map[0 := FIRST], map[(0, 1) := 0])
    ensures Scene(Next(s, RUN[12]), 31.0, Starting(31.0, 30.0, map[]), Some(1), map[0 := FIRST, 1 := SECOND], map[(0, 1) := 1])
  {
    var s1 := Next(s, RUN[12]);
    assert s1.attempts == map[0 := FIRST, 1 := SECOND] && s1.tracked == map[(0, 1) := 1];
  }

  lemma FirstSettles(s: World)
    requires Scene(s, 31.0, Starting(31.0, 30.0, map[]), Some(1), map[0 := FIRST, 1 := SECOND], map[(0, 1) := 1])
    ensures Scene(Next(Next(s, RUN[13]), RUN[14]), 31.0, Idle, Some(1), map[0 := FIRST.(settled := true), 1 := SECOND], map[(0, 1) := 1])
  {
    assert Next(s, RUN[13]) == SetPhase(s, 0, Idle);
  }

  lemma Restarted(s: World)
    requires Scene(s, 31.0, Starting(31.0, 30.0, map[1 := 1]), Some(1), map[0 := FIRST], map[(0, 1) := 0])
    ensures Scene(Next(Next(Next(s, RUN[12]), RUN[13]), RUN[14]), 31.0, Idle, Some(1),
                  map[0 := FIRST.(settled := true), 1 := SECOND], map[(0, 1) := 1])
  {
    hide Next, Scene;
    StartedAgain(s);
    FirstSettles(Next(s, RUN[12]));
  }

  lemma Unregistered(s: World)
    requires Scene(s, 31.0, Idle, Some(1), map[0 := FIRST.(settled := true), 1 := SECOND], map[(0, 1) := 1])
    ensures Scene(Next(Next(Next(s, RUN[15]), RUN[16]), RUN[17]), 31.0, Releasing, Some(1),
                  map[0 := FIRST_ENDED, 1 := SECOND], map[])
  {
  }

  lemma GivenAway(s: World)
    requires Scene(s, 31.0, Releasing, Some(1), map[0 := FIRST_ENDED, 1 := SECOND], map[])
    ensures var t := Next(Next(s, LAST[0]), LAST[1]); Confident(t, 1) && !Exclusive(t, 1)
  {
    assert IsOrphan(s, 0, 1);
    var t := Next(Next(s, LAST[0]), LAST[1]);
    assert t.db.rows[1].state == Queued;
  }

  /** Worker 0 claims task 1 and stalls; the row is reaped and worker 0 claims it again while its
      first attempt is still ending. That end unregisters the second attempt, and the next orphan
      release gives the row away although the attempt has just been granted a whole lease. */
  lemma TangledRunBreaksExclusion() returns (steps: seq<Step>, t: Token)
    ensures Confident(Exec(Start, steps), t) && !Exclusive(Exec(Start, steps), t)
  {
    hide Next, Scene, Confident, Exclusive;
    steps, t := RUN + LAST, 1;
    var states := [Start];
    var s := Start;
    var more;
    Claimed(s);
    s, more := Plays(s, RUN[..3]);
    states := states + more;
    Started(s);
    s, more := Plays(s, RUN[3..6]);
    states := states + more;
    Reaped(s);
    s, more := Plays(s, RUN[6..9]);
    states := states + more;
    Reclaimed(s);
    s, more := Plays(s, RUN[9..12]);
    states := states + more;
    Restarted(s);
    s, more := Plays(s, RUN[12..15]);
    states := states + more;
    Unregistered(s);
    s, more := Plays(s, RUN[15..]);
    states := states + more;
    GivenAway(s);
    states := states + [Next(s, LAST[0]), Next(Next(s, LAST[0]), LAST[1])];
    StatesAreExec(steps, states);
  }

  /** A worker sends an orphan release, loses the connection, sends it again and goes on to claim task 1;
      then the first statement is run after all, with the list of live ids it was sent with. */
  const LATE: seq<Step> := [
    Enqueue("t", None, 3, 0.0), ClaimBegin(0, 30.0), ClaimLost(0),
    OrphanScan(0, {}), OrphansDone(0), ClaimBegin(0, 30.0),
    ClaimRow(0, 1, 0.0, 0.0), ClaimAnswered(0), StartOne(0, 0)]

  const OVERDUE: seq<Step> := [LateScan(0, {}, {1}), Deliver(Outcome(0, 1, Release, None), 0.0, 0.0)]

  lemma ScanIsSent(s: World)
    requires Scene(s, 0.0, Idle, None, map[], map[])
    ensures
      var s' := Next(Next(s, LATE[1]), LATE[2]);
      Scene(s', 0.0, Releasing, None, map[], map[])
  {
  }

  lemma ScanIsRepeated(s: World)
    requires Scene(s, 0.0, Releasing, None, map[], map[])
    ensures
      var s' := Next(Next(Next(s, LATE[3]), LATE[4]), LATE[5]);
      Scene(s', 0.0, Claiming(0.0, 30.0, map[]), None, map[], map[]) && (0, {}) in s'.scans
  {
    assert LiveIds(s, 0) == {};
  }

  lemma TaskIsClaimed(s: World)
    requires Scene(s, 0.0, Claiming(0.0, 30.0, map[]), None, map[], map[]) && (0, {}) in s.scans
    ensures
      var s' := Next(Next(Next(s, LATE[6]), LATE[7]), LATE[8]);
      Scene(s', 0.0, Starting(0.0, 30.0, map[]), Some(0), map[0 := FIRST], map[(0, 1) := 0]) && (0, {}) in s'.scans
  {
  }

  lemma ScanIsRun(s: World)
    requires Scene(s, 0.0, Starting(0.0, 30.0, map[]), Some(0), map[0 := FIRST], map[(0, 1) := 0]) && (0, {}) in s.scans
    ensures var t := Next(Next(s, OVERDUE[0]), OVERDUE[1]); Confident(t, 0) && !Exclusive(t, 0)
  {
    assert Unlisted(s, 0, {}, 1);
    assert Outcome(0, 1, Release, None) in Next(s, OVERDUE[0]).wire;
    var t := Next(Next(s, OVERDUE[0]), OVERDUE[1]);
    assert t.db.rows[1].state == Queued;
  }

  lemma LateRunBreaksExclusion()
    ensures var s := Exec(Start, LATE + OVERDUE); Confident(s, 0) && !Exclusive(s, 0)
  {
    hide Next, Scene, Confident, Exclusive;
    FirstEnqueued(Start);
    var s1 := Next(Start, LATE[0]);
    ScanIsSent(s1);
    var s2 := Next(s1, LATE[1]);
    var s3 := Next(s2, LATE[2]);
    ScanIsRepeated(s3);
    var s6, states := Plays(s3, LATE[3..6]);
    TaskIsClaimed(s6);
    var s9, more := Plays(s6, LATE[6..9]);
    ScanIsRun(s9);
    var s10 := Next(s9, OVERDUE[0]);
    StatesAreExec(LATE + OVERDUE, [Start, s1, s2, s3] + states + more + [s10, Next(s10, OVERDUE[1])]);
  }
}
