/** `unsubscribe` deletes the registration and then the name's events in two statements. When the
    first finds no registration it locks nothing, so the second can delete events of a registration
    created in between, which stays registered. */
module FeedStray {
  import opened Rows
  import opened Feed
  import opened FeedPurity
  import opened FeedDelivery
  import opened FeedRuns

  /** The second DELETE of an unsubscribe whose first found nothing, while events are waiting. */
  ghost predicate Blind(s: World, step: Step) {
    && step.LeaveDone? && step.u in s.leaving && s.leaving[step.u].Unmatched?
    && s.backlog != {} && (forall t | t in s.txns :: s.txns[t].pulled == {})
  }

  ghost predicate NeverBlind(steps: seq<Step>)
    decreases |steps|
  {
    steps == [] ||
    var before := steps[..|steps| - 1];
    NeverBlind(before) && !Blind(Exec(before), steps[|steps| - 1])
  }

  lemma BlindStepsStray(s: World, step: Step)
    requires FeedInv(s)
    ensures s.strayed <= Next(s, step).strayed
    ensures Next(s, step).strayed != s.strayed <==> Blind(s, step)
    ensures Blind(s, step) ==> s.reg.Some? && Next(s, step).reg == s.reg && Next(s, step).strayed - s.strayed == s.backlog
  {
    if Blind(s, step) {
      var e :| e in s.backlog;
      assert OfGen(s, e);
      assert forall f :: Parts(s, f) == One(f in s.published);
      forall f | f in s.backlog ensures f !in s.strayed { assert Parts(s, f) <= 1; }
    } else {
      OthersDoNotStray(s, step);
    }
  }

  lemma OthersDoNotStray(s: World, step: Step)
    requires !Blind(s, step)
    ensures Next(s, step).strayed == s.strayed
  {
    hide Apply, Publishes, IsPull, Scans;
    if Quiet(step) { QuietShape(s, step); }
  }

  /** Unsubscribing loses no event of a live registration if and only if no unsubscribe that found
      the name unregistered reaches its second statement while events are waiting. */
  lemma {:induction false} NothingStraysIff(steps: seq<Step>)
    ensures Exec(steps).strayed == {} <==> NeverBlind(steps)
    decreases |steps|
  {
    hide Next, FeedInv;
    if steps != [] {
      var before := steps[..|steps| - 1];
      NothingStraysIff(before);
      RunsKeepFeed(before);
      BlindStepsStray(Exec(before), steps[|steps| - 1]);
    }
  }

  // ----------------------------------------------------------------- seen from the unsubscribe call

  /** The call `u` is still under way after these steps. */
  predicate Unfinished(more: seq<Step>, u: nat) {
    forall k | 0 <= k < |more| :: more[k] != LeaveDone(u) && more[k] != LeaveAbort(u)
  }

  /** The call `u`, under way after `steps`, comes to delete events of a live registration in some future. */
  ghost predicate CallCanStray(steps: seq<Step>, u: nat) {
    exists more: seq<Step> :: Unfinished(more, u) && Blind(Exec(steps + more), LeaveDone(u))
  }

  predicate Holds(s: World, u: nat) { u in s.leaving && s.leaving[u].Holding? }

  lemma StaysHolding(s: World, step: Step, u: nat)
    requires Holds(s, u) && step != LeaveDone(u) && step != LeaveAbort(u)
    ensures Holds(Next(s, step), u)
  {
    if step.Leave? || step.LeaveDone? || step.LeaveAbort? {
      if step.Leave? { LeaveMoves(s, step.u); }
      hide StartLeaving;
    } else {
      hide Next, Holds;
      OthersLeaveAlone(s, step);
      SameHolds(s, Next(s, step), u);
    }
  }

  lemma SameHolds(s: World, s': World, u: nat)
    requires Holds(s, u) && s'.leaving == s.leaving
    ensures Holds(s', u)
  {
  }

  lemma OthersLeaveAlone(s: World, step: Step)
    requires !step.Leave? && !step.LeaveDone? && !step.LeaveAbort?
    ensures Next(s, step).leaving == s.leaving
  {
    hide Apply, Publishes, IsPull, Scans;
  }

  lemma {:induction false} HoldingThroughout(steps: seq<Step>, more: seq<Step>, u: nat)
    requires Holds(Exec(steps), u) && Unfinished(more, u)
    ensures Holds(Exec(steps + more), u)
    decreases |more|
  {
    hide Next;
    if more != [] {
      var before := more[..|more| - 1];
      HoldingThroughout(steps, before, u);
      assert (steps + more)[..|steps + more| - 1] == steps + before;
      StaysHolding(Exec(steps + before), more[|more| - 1], u);
    } else {
      assert steps + more == steps;
    }
  }

  /** A call whose first statement has run, or is waiting, can come to delete events of a live
      registration if and only if it does not hold the row it was asked to delete. */
  lemma UnderWayIsSafeIff(steps: seq<Step>, u: nat)
    requires u in Exec(steps).leaving
    ensures CallCanStray(steps, u) <==> !Exec(steps).leaving[u].Holding?
  {
    hide *;
    if Exec(steps).leaving[u].Holding? {
      HoldingIsSafe(steps, u);
    } else {
      var more := CanComeToStray(steps, u);
      StraysBy(steps, more, u);
    }
  }

  lemma StraysBy(steps: seq<Step>, more: seq<Step>, u: nat)
    requires Unfinished(more, u) && Blind(Exec(steps + more), LeaveDone(u))
    ensures CallCanStray(steps, u)
  {
    hide Exec, Blind, Unfinished;
  }

  lemma HoldingIsSafe(steps: seq<Step>, u: nat)
    requires u in Exec(steps).leaving && Exec(steps).leaving[u].Holding?
    ensures !CallCanStray(steps, u)
  {
    if CallCanStray(steps, u) {
      var more: seq<Step> :| Unfinished(more, u) && Blind(Exec(steps + more), LeaveDone(u));
      HoldingThroughout(steps, more, u);
    }
  }

  /** What a caller can check: a call deletes nobody else's events, whatever happens while it runs, if
      and only if when it is made the name is registered and nobody holds a lock on its row. If it has
      to wait, another unsubscribe may be done first and the name registered anew meanwhile. */
  lemma UnsubscribeIsSafeIff(steps: seq<Step>, u: nat)
    requires u !in Exec(steps).leaving
    ensures CallCanStray(steps + [Leave(u)], u) <==> !(Exec(steps).reg.Some? && Unlocked(Exec(steps)))
  {
    hide *;
    var begun := Extended(steps, Leave(u));
    CallTakesRow(Exec(steps), u);
    UnderWayIsSafeIff(begun, u);
  }

  lemma CallTakesRow(s: World, u: nat)
    requires u !in s.leaving
    ensures u in Next(s, Leave(u)).leaving
    ensures Next(s, Leave(u)).leaving[u].Holding? <==> s.reg.Some? && Unlocked(s)
  {
  }

  // ------------------------------------------------------------------ a future in which a call strays

  lemma Then(run: seq<Step>, step: Step)
    ensures Exec(run + [step]) == Next(Exec(run), step)
  {
    assert (run + [step])[..|run|] == run;
  }

  lemma Extended(run: seq<Step>, step: Step) returns (longer: seq<Step>)
    ensures longer == run + [step] && Exec(longer) == Next(Exec(run), step)
  {
    longer := run + [step];
    Then(run, step);
  }

  lemma FreshKey(used: set<nat>) returns (k: nat)
    ensures k !in used
  {
    k := 0;
    var left := used;
    while left != {}
      invariant forall n | n in used && n !in left :: n < k
      decreases left
    {
      var n :| n in left;
      left := left - {n};
      k := if n < k then k else n + 1;
    }
  }

  /** Rolling one transaction back; a batch is rolled back by its consumer. */
  lemma EndOne(s: World, t: nat) returns (step: Step)
    requires t in s.txns
    ensures (step.Rollback? || step.Abort?) && Next(s, step).txns == s.txns - {t} && Next(s, step).leaving == s.leaving
  {
    if IsBatch(s, t) {
      var c :| c in s.feeds && s.feeds[c].batch == Some(t);
      step := Rollback(c);
    } else {
      step := Abort(t);
    }
  }

  lemma {:induction false} EndAll(run: seq<Step>, u: nat) returns (longer: seq<Step>)
    requires u in Exec(run).leaving
    ensures run <= longer && Unfinished(longer[|run|..], u)
    ensures Exec(longer).txns == map[] && Exec(longer).leaving == Exec(run).leaving
    decreases |Exec(run).txns|
  {
    if Exec(run).txns == map[] {
      longer := run;
    } else {
      hide Next, Exec;
      var t :| t in Exec(run).txns;
      var step := EndOne(Exec(run), t);
      var next := Extended(run, step);
      OneUnfinished(step, u);
      Removed(Exec(run).txns, t);
      assert next[|run|..] == [step];
      hide Unfinished;
      longer := EndAll(next, u);
      Longer(run, next, longer, u);
    }
  }

  lemma OneUnfinished(step: Step, u: nat)
    requires step.Rollback? || step.Abort?
    ensures Unfinished([step], u)
  {
  }

  lemma Removed(m: map<nat, Txn>, t: nat)
    requires t in m
    ensures |m - {t}| < |m|
  {
    assert (m - {t}).Keys == m.Keys - {t};
    assert |(m - {t}).Keys| == |m - {t}| && |m.Keys| == |m|;
  }

  predicate Waits(s: World, u: nat) { u in s.leaving && !s.leaving[u].Holding? }

  /** With every transaction ended, whoever holds the row can let go of it. */
  lemma LetGo(s: World, u: nat) returns (step: Step)
    requires FeedInv(s) && s.txns == map[] && Waits(s, u) && !s.lock.Free?
    ensures step != LeaveDone(u) && step != LeaveAbort(u)
    ensures var s' := Next(s, step); s'.lock.Free? && s'.txns == map[] && Waits(s', u)
  {
    step := if s.lock.ByChunk? then Crash(s.lock.b) else LeaveDone(s.lock.u);
  }

  /** Another unsubscribe, `v`, is done first. */
  lemma AnotherFirst(s: World, u: nat, v: nat)
    requires s.txns == map[] && s.lock.Free? && s.reg.Some? && Waits(s, u) && v !in s.leaving
    ensures v != u
    ensures
      var s' := Next(Next(s, Leave(v)), LeaveDone(v));
      s'.reg.None? && s'.txns == map[] && Waits(s', u)
  {
  }

  lemma FreeTheName(run: seq<Step>, u: nat) returns (longer: seq<Step>)
    requires Waits(Exec(run), u) && Exec(run).txns == map[]
    ensures run <= longer && Unfinished(longer[|run|..], u)
    ensures Exec(longer).reg.None? && Exec(longer).txns == map[] && Waits(Exec(longer), u)
  {
    hide Next, Exec, FeedInv, Waits;
    longer := run;
    if !Exec(longer).lock.Free? {
      RunsKeepFeed(longer);
      var step := LetGo(Exec(longer), u);
      longer := Extended(longer, step);
    }
    if Exec(longer).reg.Some? {
      var v := FreshKey(Exec(longer).leaving.Keys);
      AnotherFirst(Exec(longer), u, v);
      longer := Extended(longer, Leave(v));
      longer := Extended(longer, LeaveDone(v));
    }
  }

  /** Ready for the last act: the call has matched nothing and the name has just been registered. */
  ghost predicate Fits(s: World, u: nat) {
    && s.reg.Some? && s.reg.value.filter == Filter({Queued}, None) && s.lock.Free?
    && u in s.leaving && s.leaving[u].Unmatched? && s.txns == map[]
    && s.nextId !in s.tasks && (forall c | c in s.feeds :: s.feeds[c].batch.None?)
  }

  /** The waiting call finds its row gone. */
  lemma MatchNothing(run: seq<Step>, u: nat) returns (longer: seq<Step>)
    requires Waits(Exec(run), u) && Exec(run).reg.None? && Exec(run).txns == map[]
    ensures run <= longer && Unfinished(longer[|run|..], u)
    ensures Exec(longer).reg.None? && Exec(longer).txns == map[]
    ensures u in Exec(longer).leaving && Exec(longer).leaving[u].Unmatched?
  {
    hide Exec;
    longer := run;
    if Exec(run).leaving[u].Asking? { longer := Extended(run, Leave(u)); }
  }

  lemma NameIsTaken(s: World, u: nat, b: nat)
    requires FeedInv(s) && s.reg.None? && s.txns == map[] && u in s.leaving && s.leaving[u].Unmatched? && b !in s.bfs
    ensures Fits(Next(s, Register(b, Filter({Queued}, None), None)), u)
  {
    forall c | c in s.feeds ensures s.feeds[c].batch.None? { assert FeedOk(s, c); }
  }

  lemma PublishOnce(s: World, u: nat)
    requires Fits(s, u)
    ensures
      var t := s.clock;
      var s' := Next(Next(Next(s, Begin), Look(t)), Write(t, s.nextId, Insert("t", None, 1, 0.0)));
      && s'.txns.Keys == {t} && s'.txns[t].events != {}
      && s'.leaving == s.leaving && s'.feeds == s.feeds && s'.reg == s.reg
  {
    var t := s.clock;
    var s2 := Next(Next(s, Begin), Look(t));
    var op := Insert("t", None, 1, 0.0);
    assert s2.txns == map[t := Txn(Open(s.reg), map[], {}, false, {}, [])];
    assert !LockedByOther(s2, t, s.nextId);
    assert Found(s2, s2.txns[t], s.nextId) == None;
    assert Apply(op, None) == Wrote(Inserted(op));
    assert NewRow(s2, t, s.nextId, op) == Some(Inserted(op));
    assert Emits(s2, t, op, Inserted(op));
    assert EventFor(s2, s.nextId, Inserted(op)) in Buffered(s2, t, s.nextId, op, Inserted(op)).events;
  }

  lemma CommitOnce(s: World, u: nat, t: nat)
    requires s.txns.Keys == {t} && s.txns[t].events != {} && (forall c | c in s.feeds :: s.feeds[c].batch.None?)
    requires u in s.leaving && s.leaving[u].Unmatched?
    ensures Blind(Next(s, Commit(t)), LeaveDone(u))
  {
    assert !IsBatch(s, t);
    assert Next(s, Commit(t)).txns == s.txns - {t};
    var e :| e in s.txns[t].events;
    assert e in Next(s, Commit(t)).backlog;
  }

  lemma FitsMeans(s: World, u: nat)
    requires Fits(s, u)
    ensures u in s.leaving && s.leaving[u].Unmatched? && forall c | c in s.feeds :: s.feeds[c].batch.None?
  {
  }

  lemma LastAct(run: seq<Step>, u: nat) returns (longer: seq<Step>)
    requires Exec(run).reg.None? && Exec(run).txns == map[] && u in Exec(run).leaving && Exec(run).leaving[u].Unmatched?
    ensures run <= longer && Unfinished(longer[|run|..], u) && Blind(Exec(longer), LeaveDone(u))
  {
    hide Next, Exec, FeedInv, Fits, Blind;
    RunsKeepFeed(run);
    var b := FreshKey(Exec(run).bfs.Keys);
    NameIsTaken(Exec(run), u, b);
    longer := Extended(run, Register(b, Filter({Queued}, None), None));
    var s := Exec(longer);
    FitsMeans(s, u);
    PublishOnce(s, u);
    longer := Extended(longer, Begin);
    longer := Extended(longer, Look(s.clock));
    longer := Extended(longer, Write(s.clock, s.nextId, Insert("t", None, 1, 0.0)));
    CommitOnce(Exec(longer), u, s.clock);
    longer := Extended(longer, Commit(s.clock));
    assert longer[|run|..] == [Register(b, Filter({Queued}, None), None), Begin, Look(s.clock),
                               Write(s.clock, s.nextId, Insert("t", None, 1, 0.0)), Commit(s.clock)];
  }

  lemma Longer(a: seq<Step>, b: seq<Step>, c: seq<Step>, u: nat)
    requires a <= b <= c && Unfinished(b[|a|..], u) && Unfinished(c[|b|..], u)
    ensures a <= c && Unfinished(c[|a|..], u)
  {
    assert c[|a|..] == b[|a|..] + c[|b|..];
  }

  lemma CanComeToStray(steps: seq<Step>, u: nat) returns (more: seq<Step>)
    requires u in Exec(steps).leaving && !Exec(steps).leaving[u].Holding?
    ensures Unfinished(more, u) && Blind(Exec(steps + more), LeaveDone(u))
  {
    assert Waits(Exec(steps), u);
    hide Exec, Blind, Unfinished;
    var run1 := EndAll(steps, u);
    assert Waits(Exec(run1), u);
    var run2 := FreeTheName(run1, u);
    Longer(steps, run1, run2, u);
    var run3 := MatchNothing(run2, u);
    Longer(steps, run2, run3, u);
    var run4 := LastAct(run3, u);
    Longer(steps, run3, run4, u);
    more := run4[|steps|..];
    assert steps + more == run4;
  }

  // ------------------------------------------------------------------------------- a run that does

  const RACE: seq<Step> := [
    Leave(0), Register(0, Filter({Queued}, None), None),
    Begin, Look(1), Write(1, 1, Insert("t", None, 3, 0.0)), Commit(1), LeaveDone(0)]

  const LOST := Event(0, 0, 1, Face("t", Queued, 0), false)

  lemma Registered(s: World)
    requires s == Start
    ensures
      var s' := Next(Next(s, RACE[0]), RACE[1]);
      && s'.reg.Some? && s'.reg.value.gen == 0 && s'.reg.value.filter == Filter({Queued}, None)
      && s'.clock == 1 && s'.leaving == map[0 := Unmatched] && s'.lock == Free && s'.txns == map[] && s'.tasks == map[]
      && s'.nextId == 1 && s'.nextSeq == 0 && s'.feeds == map[] && s'.backlog == {}
  {
  }

  lemma Enqueued(s: World)
    requires s.reg.Some? && s.reg.value.gen == 0 && s.reg.value.filter == Filter({Queued}, None)
    requires s.clock == 1 && s.leaving == map[0 := Unmatched] && s.lock == Free && s.txns == map[] && s.tasks == map[]
    requires s.nextId == 1 && s.nextSeq == 0 && s.feeds == map[] && s.backlog == {}
    ensures
      var s' := Next(Next(Next(Next(s, RACE[2]), RACE[3]), RACE[4]), RACE[5]);
      s'.backlog == {LOST} && s'.leaving == map[0 := Unmatched] && s'.txns == map[] && s'.reg == s.reg
  {
    var s1 := Next(Next(s, RACE[2]), RACE[3]);
    assert s1.txns == map[1 := Txn(Open(s.reg), map[], {}, false, {}, [])];
    assert !LockedByOther(s1, 1, 1);
    assert Apply(Insert("t", None, 3, 0.0), Found(s1, s1.txns[1], 1)).Wrote?;
    var s2 := Next(s1, RACE[4]);
    assert s2.txns[1].events == {LOST};
    assert !IsBatch(s2, 1);
  }

  lemma {:induction false} StatesAreExec(run: seq<Step>, states: seq<World>)
    requires |states| == |run| + 1 && states[0] == Start
    requires forall k | 0 <= k < |run| :: states[k + 1] == Next(states[k], run[k])
    ensures Exec(run) == states[|run|]
    decreases |run|
  {
    hide Next;
    if run != [] { StatesAreExec(run[..|run| - 1], states[..|run|]); }
  }

  /** The name is free when the unsubscribe looks, registered and published to before it deletes the
      events: the new registration lives on and its event is gone. */
  lemma UnsubscribeRace()
    ensures Exec(RACE).reg.Some? && LOST in Exec(RACE).strayed && LOST !in Exec(RACE).backlog
  {
    var s1 := Next(Start, RACE[0]);
    var s2 := Next(s1, RACE[1]);
    Registered(Start);
    Enqueued(s2);
    hide Next;
    var s3 := Next(s2, RACE[2]);
    var s4 := Next(s3, RACE[3]);
    var s5 := Next(s4, RACE[4]);
    var s6 := Next(s5, RACE[5]);
    var s7 := Next(s6, RACE[6]);
    StatesAreExec(RACE, [Start, s1, s2, s3, s4, s5, s6, s7]);
    Deleted(s6);
  }

  /** Two overlapping calls on a registered name: the second waits for the first and wakes to find its
      row gone. */
  const OVERLAP: seq<Step> := [
    Register(0, Filter({Queued}, None), None), Leave(0), Leave(1), LeaveDone(0), Leave(1)]

  lemma SecondWaits()
    ensures
      var s' := Next(Next(Next(Start, OVERLAP[0]), OVERLAP[1]), OVERLAP[2]);
      s'.reg.Some? && s'.lock == ByLeave(0) && s'.leaving == map[0 := Holding, 1 := Asking(0)] && s'.txns == map[]
    ensures Next(Next(Start, OVERLAP[0]), OVERLAP[1]).reg.Some?
  {
  }

  lemma SecondWakes(s: World)
    requires s.reg.Some? && s.lock == ByLeave(0) && s.leaving == map[0 := Holding, 1 := Asking(0)] && s.txns == map[]
    ensures
      var s' := Next(Next(s, OVERLAP[3]), OVERLAP[4]);
      s'.reg.None? && s'.txns == map[] && s'.leaving == map[1 := Unmatched]
  {
  }

  /** The name is registered when the second call is made, and that call goes on to delete the events of
      a registration made after it woke. */
  lemma OverlapRace() returns (run: seq<Step>)
    ensures OVERLAP <= run && Exec(OVERLAP[..2]).reg.Some? && OVERLAP[2] == Leave(1) && run[|run| - 1] == LeaveDone(1)
    ensures Exec(run).reg.Some? && exists e :: e in Exec(run).strayed && e.gen == Exec(run).reg.value.gen
  {
    var s1 := Next(Start, OVERLAP[0]);
    var s2 := Next(s1, OVERLAP[1]);
    SecondWaits();
    hide Next, FeedInv, Blind;
    var s3 := Next(s2, OVERLAP[2]);
    SecondWakes(s3);
    var s4 := Next(s3, OVERLAP[3]);
    var s5 := Next(s4, OVERLAP[4]);
    StatesAreExec(OVERLAP[..2], [Start, s1, s2]);
    StatesAreExec(OVERLAP, [Start, s1, s2, s3, s4, s5]);
    var longer := LastAct(OVERLAP, 1);
    RunsKeepFeed(longer);
    BlindLosesLive(Exec(longer), LeaveDone(1));
    run := Extended(longer, LeaveDone(1));
  }

  lemma BlindLosesLive(s: World, step: Step)
    requires FeedInv(s) && Blind(s, step)
    ensures var s' := Next(s, step); s'.reg.Some? && exists e :: e in s'.strayed && e.gen == s'.reg.value.gen
  {
    BlindStepsStray(s, step);
    var e :| e in s.backlog;
    assert OfGen(s, e) && e in Next(s, step).strayed;
  }

  lemma Deleted(s: World)
    requires s.backlog == {LOST} && s.leaving == map[0 := Unmatched] && s.txns == map[] && s.reg.Some?
    ensures var s' := Next(s, RACE[6]); s'.reg == s.reg && LOST in s'.strayed && s'.backlog == {}
  {
  }
}
