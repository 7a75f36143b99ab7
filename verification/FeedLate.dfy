/** An event that commits late, after higher numbers were delivered and acknowledged, is never skipped. */
module FeedLate {
  import opened Rows
  import opened Feed
  import opened FeedPurity
  import opened FeedDelivery
  import opened FeedRuns

  /** The only ways a waiting event leaves: a batch that was given it is acknowledged, retention takes it
      while no batch holds it, or an unsubscribe deletes it. */
  predicate Removes(s: World, step: Step, e: Event) {
    match step
    case Ack(c) =>
      && c in s.feeds && s.feeds[c].batch.Some? && s.feeds[c].batch.value in s.txns
      && e.seqno in s.txns[s.feeds[c].batch.value].pulled
    case Expire(seqnos) => e.seqno in seqnos && !Pulled(s, e.seqno)
    case LeaveDone(u) => u in s.leaving && !s.leaving[u].Asking?
    case _ => false
  }

  lemma LeavesOnlyBy(s: World, step: Step, e: Event)
    requires e in s.backlog && !Removes(s, step, e)
    ensures e in Next(s, step).backlog
  {
    hide Apply, Publishes, IsPull, Scans;
    if step.Leave? { LeaveMoves(s, step.u); hide StartLeaving; }
  }

  lemma {:induction false} StaysUntilRemoved(steps: seq<Step>, more: seq<Step>, e: Event)
    requires e in Exec(steps).backlog
    ensures e in Exec(steps + more).backlog || RemovedIn(steps, more, e)
    decreases |more|
  {
    hide Next, Removes;
    if more != [] {
      var k := |more| - 1;
      StaysUntilRemoved(steps, more[..k], e);
      assert (steps + more)[..|steps + more| - 1] == steps + more[..k];
      if RemovedIn(steps, more[..k], e) {
        RemovedEarlier(steps, more, k, e);
      } else if !Removes(Exec(steps + more[..k]), more[k], e) {
        LeavesOnlyBy(Exec(steps + more[..k]), more[k], e);
      }
    } else {
      assert steps + more == steps;
    }
  }

  ghost predicate RemovedIn(steps: seq<Step>, more: seq<Step>, e: Event) {
    exists k | 0 <= k < |more| :: Removes(Exec(steps + more[..k]), more[k], e)
  }

  lemma RemovedEarlier(steps: seq<Step>, more: seq<Step>, n: nat, e: Event)
    requires n <= |more| && RemovedIn(steps, more[..n], e)
    ensures RemovedIn(steps, more, e)
  {
    var k :| 0 <= k < n && Removes(Exec(steps + more[..n][..k]), more[..n][k], e);
    assert more[..n][..k] == more[..k];
  }

  /** The pull opened a batch for the consumer. */
  predicate Opened(s: World, s': World, c: nat) {
    c in s.feeds && c in s'.feeds && s.feeds[c].batch.None? && s'.feeds[c].batch.Some? && s'.feeds[c].batch.value in s'.txns
  }

  function Given(s: World, c: nat): set<nat>
    requires c in s.feeds && s.feeds[c].batch.Some? && s.feeds[c].batch.value in s.txns
  {
    s.txns[s.feeds[c].batch.value].pulled
  }

  /** One pull, whatever is in the backlog: it takes the event, or somebody else holds it, or the batch
      is full of lower numbers. */
  lemma PullReaches(s: World, c: nat, seqnos: set<nat>, size: nat, e: Event)
    requires e in s.backlog && Opened(s, Next(s, Pull(c, seqnos, size)), c)
    ensures
      var given := Given(Next(s, Pull(c, seqnos, size)), c);
      e.seqno in given || Pulled(s, e.seqno) || (|given| == size && forall n | n in given :: n < e.seqno)
  {
    var s' := Next(s, Pull(c, seqnos, size));
    assert Given(s', c) == seqnos && IsPull(s, seqnos, size);
  }

  /** Over whole runs. From the moment an event is committed, whatever numbers were delivered and
      acknowledged before, it waits until a batch that was given it is acknowledged, or it expires or
      goes with an unsubscribe; and as long as it waits, no batch is given a higher number without
      either taking it too or leaving it to a batch that holds it already. */
  lemma LateEventsAreNotSkipped(steps: seq<Step>, more: seq<Step>, e: Event, c: nat, seqnos: set<nat>, size: nat)
    requires e in Exec(steps).backlog
    ensures e in Exec(steps + more).backlog || RemovedIn(steps, more, e)
    ensures
      var s := Exec(steps + more);
      var s' := Exec(steps + more + [Pull(c, seqnos, size)]);
      e in s.backlog && Opened(s, s', c) ==>
        || e.seqno in Given(s', c)
        || Pulled(s, e.seqno)
        || (|Given(s', c)| == size && forall n | n in Given(s', c) :: n < e.seqno)
  {
    StaysUntilRemoved(steps, more, e);
    var run := steps + more;
    var pull := Pull(c, seqnos, size);
    assert (run + [pull])[..|run|] == run;
    assert Exec(run + [pull]) == Next(Exec(run), pull);
    hide Exec, Next, RemovedIn;
    if e in Exec(run).backlog && Opened(Exec(run), Next(Exec(run), pull), c) {
      PullReaches(Exec(run), c, seqnos, size, e);
    }
  }

  // ------------------------------------------------------------------------------ and it comes closer

  function Ahead(backlog: set<Event>, e: Event): set<nat> { set f | f in backlog && f.seqno < e.seqno :: f.seqno }

  /** A batch that does not reach the event brings it `size` places forward when it is acknowledged,
      but for what the batch's own reactions publish. */
  lemma OvertakenOnlyByLower(steps: seq<Step>, c: nat, e: Event, size: nat)
    requires var s := Exec(steps); e in s.backlog && c in s.feeds && s.feeds[c].batch.Some? && s.feeds[c].batch.value in s.txns
    requires |Given(Exec(steps), c)| == size && forall n | n in Given(Exec(steps), c) :: n < e.seqno
    ensures
      var s, s' := Exec(steps), Next(Exec(steps), Ack(c));
      e in s'.backlog && |Ahead(s'.backlog - s.txns[s.feeds[c].batch.value].events, e)| == |Ahead(s.backlog, e)| - size
  {
    hide Exec;
    RunsKeepFeed(steps);
    AckTakesExactlyTheBatch(steps, c);
    AckMovesForward(Exec(steps), c, e, size);
  }

  lemma AckMovesForward(s: World, c: nat, e: Event, size: nat)
    requires FeedInv(s) && e in s.backlog && c in s.feeds && s.feeds[c].batch.Some? && s.feeds[c].batch.value in s.txns
    requires |Given(s, c)| == size && forall n | n in Given(s, c) :: n < e.seqno
    ensures
      var s' := Next(s, Ack(c));
      e in s'.backlog && |Ahead(s'.backlog - s.txns[s.feeds[c].batch.value].events, e)| == |Ahead(s.backlog, e)| - size
  {
    var t := s.feeds[c].batch.value;
    AckIsExact(s, c, t);
    NumbersAreUnique(s);
    AckRemoves(s, c, t);
    hide *;
    GivenIs(s, c, t);
    AheadShrinks(s.backlog, PulledEvents(s, t), e);
  }

  lemma GivenIs(s: World, c: nat, t: nat)
    requires c in s.feeds && s.feeds[c].batch == Some(t) && t in s.txns
    ensures Given(s, c) == s.txns[t].pulled && PulledEvents(s, t) <= s.backlog
  {
  }

  lemma AckRemoves(s: World, c: nat, t: nat)
    requires FeedInv(s) && c in s.feeds && s.feeds[c].batch == Some(t) && t in s.txns
    ensures Next(s, Ack(c)).backlog - s.txns[t].events == s.backlog - PulledEvents(s, t)
    ensures s.backlog - PulledEvents(s, t) <= Next(s, Ack(c)).backlog
  {
    forall f | f in s.txns[t].events ensures f !in s.backlog {
      assert At(s, InTxn(t), f);
      assert Parts(s, f) == One(f in s.published);
      assert f in s.published ==> At(s, Committed, f);
    }
    assert Next(s, Ack(c)).backlog == s.backlog + s.txns[t].events - PulledEvents(s, t);
  }

  lemma AheadShrinks(backlog: set<Event>, mine: set<Event>, e: Event)
    requires mine <= backlog && e in backlog && forall n | n in Seqnos(mine) :: n < e.seqno
    requires forall f, g | f in backlog && g in backlog && f.seqno == g.seqno :: f == g
    ensures e in backlog - mine && |Ahead(backlog - mine, e)| == |Ahead(backlog, e)| - |Seqnos(mine)|
  {
    forall n | n in Seqnos(mine) ensures n in Ahead(backlog, e) { var f :| f in mine && f.seqno == n; }
    forall n ensures n in Ahead(backlog - mine, e) <==> n in Ahead(backlog, e) && n !in Seqnos(mine) {
      if n in Ahead(backlog, e) && n !in Seqnos(mine) {
        var f :| f in backlog && f.seqno < e.seqno && f.seqno == n;
        assert f in backlog - mine;
      }
      if n in Ahead(backlog - mine, e) {
        var f :| f in backlog - mine && f.seqno < e.seqno && f.seqno == n;
        assert forall g | g in mine :: g.seqno != n;
      }
    }
    assert Ahead(backlog - mine, e) == Ahead(backlog, e) - Seqnos(mine);
    assert e !in mine by { assert e in mine ==> e.seqno in Seqnos(mine); }
  }

  lemma NumbersAreUnique(s: World)
    requires FeedInv(s)
    ensures forall e, f | e in s.backlog && f in s.backlog && e.seqno == f.seqno :: e == f
  {
    forall e, f | e in s.backlog && f in s.backlog && e.seqno == f.seqno ensures e == f {
      assert Parts(s, e) == One(e in s.published) && Parts(s, f) == One(f in s.published);
      assert At(s, Committed, e) && At(s, Committed, f);
    }
  }
}
