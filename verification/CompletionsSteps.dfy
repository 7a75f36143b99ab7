/** Every stretch of the batcher between two awaits keeps its queue, its writes and its answers in order. */
module CompletionsSteps {
  import opened Rows
  import opened Completions

  // ------------------------------------------------------------------------------ small helpers

  lemma {:induction false} ActiveMembers(entries: seq<Entry>, done: map<nat, Outcome>)
    ensures
      var act := Active(entries, done);
      && |act| <= |entries|
      && (forall e | e in act :: e in entries)
      && (forall e | e in entries && e !in act :: e.future in done && done[e.future].Abandoned?)
  {
    if entries != [] {
      ActiveMembers(entries[1..], done);
      assert entries == [entries[0]] + entries[1..];
    }
  }

  lemma {:induction false} ActiveRising(entries: seq<Entry>, done: map<nat, Outcome>)
    requires Rising(entries)
    ensures Rising(Active(entries, done))
  {
    if entries != [] {
      var rest := Active(entries[1..], done);
      ActiveRising(entries[1..], done);
      ActiveMembers(entries[1..], done);
      forall i | 0 <= i < |rest| ensures entries[0].future < rest[i].future { assert rest[i] in entries[1..]; }
    }
  }

  lemma {:induction false} ActiveDistinct(entries: seq<Entry>, done: map<nat, Outcome>)
    requires DistinctIds(entries)
    ensures DistinctIds(Active(entries, done))
  {
    if entries != [] {
      var rest := Active(entries[1..], done);
      ActiveDistinct(entries[1..], done);
      ActiveMembers(entries[1..], done);
      forall i | 0 <= i < |rest| ensures entries[0].job.id != rest[i].job.id { assert rest[i] in entries[1..]; }
    }
  }

  lemma {:induction false} SettledKeys(done: map<nat, Outcome>, entries: seq<Entry>, reply: Reply)
    requires !reply.InFlight?
    ensures
      var after := Settle(done, entries, reply);
      after.Keys == done.Keys + Futures(entries) && forall k | k in done :: after[k] == done[k]
    decreases |entries|
  {
    if entries != [] {
      var e := entries[0];
      SettledKeys(if e.future in done then done else done[e.future := Verdict(reply, e)], entries[1..], reply);
      assert entries == [e] + entries[1..];
      assert Futures(entries) == {e.future} + Futures(entries[1..]);
    }
  }

  lemma {:induction false} SettledVerdict(done: map<nat, Outcome>, entries: seq<Entry>, reply: Reply, e: Entry)
    requires !reply.InFlight? && Rising(entries) && e in entries && e.future !in done
    ensures
      var after := Settle(done, entries, reply);
      e.future in after && after[e.future] == Verdict(reply, e)
    decreases |entries|
  {
    var e0 := entries[0];
    var next := if e0.future in done then done else done[e0.future := Verdict(reply, e0)];
    if e == e0 {
      SettledKeys(next, entries[1..], reply);
    } else {
      assert e in entries[1..];
      SettledVerdict(next, entries[1..], reply, e);
    }
  }

  /** The same, for every key: what Settle adds is the verdict of an entry. */
  lemma SettledFrom(done: map<nat, Outcome>, entries: seq<Entry>, reply: Reply, k: nat) returns (e: Entry)
    requires !reply.InFlight? && Rising(entries) && k !in done && k in Settle(done, entries, reply)
    ensures e in entries && e.future == k && Settle(done, entries, reply)[k] == Verdict(reply, e)
  {
    SettledKeys(done, entries, reply);
    e :| e in entries && e.future == k;
    SettledVerdict(done, entries, reply, e);
  }

  // ------------------------------------------------------------------------------ step by step

  function Idle(b: Batcher): Batcher { b.(runner := Ended) }

  lemma SplitRising(entries: seq<Entry>, n: nat)
    requires Rising(entries) && n <= |entries|
    ensures Rising(entries[..n]) && Rising(entries[n..]) && Before(entries[..n], entries[n..])
  {
    forall x, y | x in entries[..n] && y in entries[n..] ensures x.future < y.future {
      var i :| 0 <= i < n && entries[i] == x;
      var j :| n <= j < |entries| && entries[j] == y;
    }
  }

  lemma SplitFutures(entries: seq<Entry>, n: nat)
    requires n <= |entries|
    ensures Futures(entries) == Futures(entries[..n]) + Futures(entries[n..])
  {
    assert entries == entries[..n] + entries[n..];
    forall k ensures k in Futures(entries) <==> k in Futures(entries[..n]) || k in Futures(entries[n..]) {
      if k in Futures(entries) { var e :| e in entries && e.future == k; assert e in entries[..n] || e in entries[n..]; }
    }
  }

  lemma SuffixIsOwn(b: Batcher, c: Batcher, n: nat)
    requires AllOwn(b) && n <= |Queue(b)| && Queue(c) == Queue(b)[n..] && c.submitted == b.submitted
    ensures AllOwn(c)
  {
    forall e | e in Queue(c) ensures Own(c, e) { assert e in Queue(b) && Own(b, e); }
  }

  /** Entries may leave the front of the queue once they are resolved. */
  lemma SuffixLosesNone(b: Batcher, c: Batcher, n: nat)
    requires NoneLost(b) && n <= |Queue(b)| && Queue(c) == Queue(b)[n..] && c.submitted == b.submitted
    requires b.done.Keys <= c.done.Keys <= b.done.Keys + Futures(Queue(b)[..n])
    requires Futures(Queue(b)[..n]) <= c.done.Keys
    requires forall e | e in Queue(b)[..n] :: e.future < |b.submitted|
    ensures NoneLost(c)
  {
    SplitFutures(Queue(b), n);
  }

  lemma DropKeepsQueue(b: Batcher, n: nat)
    requires b.batch == [] && QueueOk(Idle(b)) && n <= |b.pending|
    requires forall e | e in b.pending[..n] :: e.future in b.done
    ensures QueueOk(Idle(b.(pending := b.pending[n..])))
  {
    var i, c := Idle(b), Idle(b.(pending := b.pending[n..]));
    assert Queue(i) == b.pending && Queue(c) == b.pending[n..];
    assert Futures(b.pending[..n]) <= b.done.Keys;
    hide Rising, Futures, Before;
    assert forall k | k in b.done :: k < |b.submitted|;
    SplitRising(b.pending, n);
    SuffixIsOwn(i, c, n);
    hide AllOwn, Queue, Idle;
    SuffixLosesNone(i, c, n);
  }

  lemma FewerBefore(writes: seq<Write>, xs: seq<Entry>, some: seq<Entry>)
    requires AllBefore(writes, xs) && forall e | e in some :: e in xs
    ensures AllBefore(writes, some)
  {
    forall i | 0 <= i < |writes| ensures Before(writes[i].jobs, some) { BeforeSome(writes[i].jobs, xs, some); }
  }

  lemma StillGood(b: Batcher, c: Batcher)
    requires AllGood(b) && b.submitted <= c.submitted && c.writes == b.writes
    ensures AllGood(c)
  {
    forall i | 0 <= i < |c.writes| ensures GoodWrite(c, c.writes[i]) {
      assert GoodWrite(b, b.writes[i]);
      forall e | e in c.writes[i].jobs ensures Own(c, e) { assert Own(b, e); }
    }
  }

  lemma DropKeepsWrites(b: Batcher, n: nat)
    requires b.batch == [] && WritesOk(Idle(b)) && n <= |b.pending|
    ensures WritesOk(Idle(b.(pending := b.pending[n..])))
  {
    var c := Idle(b.(pending := b.pending[n..]));
    FewerBefore(b.writes, b.pending, b.pending[n..]);
    hide AllBefore, AllGood, InOrder;
    StillGood(Idle(b), c);
  }

  lemma DropKeepsAnswers(b: Batcher, n: nat)
    requires b.batch == [] && AnswersOk(Idle(b)) && n <= |b.pending|
    ensures AnswersOk(Idle(b.(pending := b.pending[n..])))
  {
    var b' := Idle(b.(pending := b.pending[n..]));
    forall k | k in b'.done ensures Explained(b', k) { assert Explained(Idle(b), k); }
    assert Queue(Idle(b)) == b.pending && Queue(b') == b.pending[n..];
  }

  lemma OpenKeepsQueue(b: Batcher, n: nat)
    requires b.batch == [] && QueueOk(Idle(b)) && n <= |b.pending|
    ensures QueueOk(Opened(b, n))
  {
    assert b.pending == b.pending[..n] + b.pending[n..];
    assert Queue(Idle(b)) == b.pending && Queue(Opened(b, n)) == b.pending;
  }

  lemma OpenedWriteIsGood(b: Batcher, n: nat)
    requires b.batch == [] && QueueOk(Idle(b)) && n <= |b.pending| && n <= BATCH_LIMIT
    requires DistinctIds(b.pending[..n]) && Active(b.pending[..n], b.done) != []
    ensures GoodWrite(Opened(b, n), Write(Active(b.pending[..n], b.done), InFlight))
  {
    var batch := b.pending[..n];
    assert Queue(Idle(b)) == b.pending;
    SplitRising(b.pending, n);
    ActiveMembers(batch, b.done);
    ActiveRising(batch, b.done);
    ActiveDistinct(batch, b.done);
    forall e | e in Active(batch, b.done) ensures Own(b, e) {
      assert e in batch && e in Queue(Idle(b));
      assert Own(Idle(b), e);
    }
  }

  lemma OrderExtends(writes: seq<Write>, w: Write)
    requires InOrder(writes) && AllBefore(writes, w.jobs)
    ensures InOrder(writes + [w])
  {
    hide Before;
    var all := writes + [w];
    forall i, j | 0 <= i < j < |all| ensures Before(all[i].jobs, all[j].jobs) { assert all[i] == writes[i]; }
  }

  lemma OpenedBefore(b: Batcher, n: nat)
    requires b.batch == [] && QueueOk(Idle(b)) && AllBefore(b.writes, b.pending) && n <= |b.pending|
    ensures
      var act := Active(b.pending[..n], b.done);
      && AllBefore(b.writes, b.pending[..n]) && AllBefore(b.writes, act) && AllBefore(b.writes, b.pending[n..])
      && Before(act, b.pending[n..])
  {
    var batch := b.pending[..n];
    assert Rising(b.pending) by { assert Queue(Idle(b)) == b.pending; }
    hide QueueOk;
    SplitRising(b.pending, n);
    ActiveMembers(batch, b.done);
    hide Rising, Active, AllBefore;
    FewerBefore(b.writes, b.pending, batch);
    FewerBefore(b.writes, batch, Active(batch, b.done));
    FewerBefore(b.writes, b.pending, b.pending[n..]);
    SomeBefore(batch, b.pending[n..], Active(batch, b.done));
  }

  lemma OneMoreBefore(writes: seq<Write>, w: Write, xs: seq<Entry>)
    requires AllBefore(writes, xs) && Before(w.jobs, xs)
    ensures AllBefore(writes + [w], xs)
  {
  }

  lemma OneMoreGood(b: Batcher, c: Batcher, w: Write)
    requires AllGood(b) && GoodWrite(c, w) && c.submitted == b.submitted && c.writes == b.writes + [w]
    ensures AllGood(c)
  {
    forall i | 0 <= i < |c.writes| ensures GoodWrite(c, c.writes[i]) {
      if i < |b.writes| { assert GoodWrite(b, b.writes[i]); }
    }
  }

  lemma OpenKeepsWrites(b: Batcher, n: nat)
    requires b.batch == [] && QueueOk(Idle(b)) && WritesOk(Idle(b)) && n <= |b.pending| && n <= BATCH_LIMIT
    requires DistinctIds(b.pending[..n]) && Active(b.pending[..n], b.done) != []
    ensures WritesOk(Opened(b, n))
  {
    var batch := b.pending[..n];
    var w := Write(Active(batch, b.done), InFlight);
    var c := Opened(b, n);
    ActiveMembers(batch, b.done);
    hide QueueOk, AllBefore, AllGood, InOrder, Before, GoodWrite, Active, DistinctIds;
    OpenedBefore(b, n);
    OpenedWriteIsGood(b, n);
    OneMoreGood(Idle(b), c, w);
    OrderExtends(b.writes, w);
    OneMoreBefore(b.writes, w, b.pending[n..]);
    assert (b.writes + [w])[..|b.writes|] == b.writes;
  }

  lemma SomeBefore(xs: seq<Entry>, ys: seq<Entry>, some: seq<Entry>)
    requires Before(xs, ys) && forall e | e in some :: e in xs
    ensures Before(some, ys)
  {
  }

  lemma BeforeSome(xs: seq<Entry>, ys: seq<Entry>, some: seq<Entry>)
    requires Before(xs, ys) && forall e | e in some :: e in ys
    ensures Before(xs, some)
  {
  }

  lemma OpenKeepsExplained(b: Batcher, n: nat, k: nat)
    requires n <= |b.pending| && Explained(Idle(b), k)
    ensures Explained(Opened(b, n), k)
  {
    if k in b.done && b.done[k].Answered? {
      var i, e :| 0 <= i < |b.writes| && e in b.writes[i].jobs && e.future == k
        && b.writes[i].reply.Applied? && b.done[k] == Verdict(b.writes[i].reply, e);
      assert Opened(b, n).writes[i] == b.writes[i];
    }
  }

  lemma OpenKeepsAnswered(b: Batcher, n: nat)
    requires WritesAnswered(Idle(b)) && n <= |b.pending|
    ensures WritesAnswered(Opened(b, n))
  {
    hide AnswersTo, Active;
    var c := Opened(b, n);
    forall i, e | 0 <= i < |c.writes| && e in c.writes[i].jobs && !c.writes[i].reply.InFlight?
      ensures AnswersTo(c.done, c.writes[i], e)
    {
      assert c.writes[i] == b.writes[i];
    }
  }

  lemma OpenLeavesOut(b: Batcher, n: nat)
    requires n <= |b.pending|
    ensures LeftOut(Opened(b, n))
  {
    ActiveMembers(b.pending[..n], b.done);
    hide Active;
  }

  lemma OpenKeepsAnswers(b: Batcher, n: nat)
    requires b.batch == [] && AnswersOk(Idle(b)) && n <= |b.pending|
    ensures AnswersOk(Opened(b, n))
  {
    var c := Opened(b, n);
    assert QueueUnanswered(c) by { assert Queue(Idle(b)) == b.pending && Queue(c) == b.pending; }
    assert c.done == b.done;
    hide WritesAnswered, Explained, LeftOut, QueueUnanswered, Active;
    OpenKeepsAnswered(b, n);
    OpenLeavesOut(b, n);
    forall k | k in c.done ensures Explained(c, k) {
      assert Explained(Idle(b), k);
      OpenKeepsExplained(b, n, k);
    }
  }

  lemma DropKeeps(b: Batcher, n: nat)
    requires b.batch == [] && Inv(Idle(b)) && n <= |b.pending|
    requires forall e | e in b.pending[..n] :: e.future in b.done
    ensures Inv(Idle(b.(pending := b.pending[n..])))
  {
    hide QueueOk, WritesOk, AnswersOk;
    DropKeepsQueue(b, n);
    DropKeepsWrites(b, n);
    DropKeepsAnswers(b, n);
  }

  lemma OpenKeeps(b: Batcher, n: nat)
    requires b.batch == [] && Inv(Idle(b)) && n <= |b.pending| && n <= BATCH_LIMIT
    requires DistinctIds(b.pending[..n]) && Active(b.pending[..n], b.done) != []
    ensures Inv(Opened(b, n))
  {
    assert forall i | 0 <= i < |b.writes| :: !b.writes[i].reply.InFlight?;
    hide QueueOk, WritesOk, AnswersOk;
    OpenKeepsQueue(b, n);
    OpenKeepsWrites(b, n);
    OpenKeepsAnswers(b, n);
  }

  lemma {:induction false} DispatchKeepsInv(b: Batcher)
    requires b.batch == [] && Inv(Idle(b))
    ensures Inv(Dispatch(b)) && (Dispatch(b).pending != [] ==> Dispatch(b).runner.Writing?)
    ensures !Dispatch(b).runner.Scheduled?
    decreases |b.pending|
  {
    hide Inv;
    if b.pending != [] {
      BatchShape(b.pending, 0);
      var n := BatchLength(b.pending, 0);
      var batch := b.pending[..n];
      if Active(batch, b.done) == [] {
        ActiveMembers(batch, b.done);
        DropKeeps(b, n);
        var b1 := b.(batch := [], pending := b.pending[n..]);
        assert Idle(b1) == Idle(b.(pending := b.pending[n..]));
        DispatchKeepsInv(b1);
      } else {
        OpenKeeps(b, n);
        assert Dispatch(b) == Opened(b, n);
      }
    } else {
      assert b.(batch := [], runner := Ended) == Idle(b);
    }
  }

  /** The write is over: it resolves the first `n` of the queue, at least its own batch. */
  function Concluded(b: Batcher, n: nat, reply: Reply): Batcher
    requires !reply.InFlight? && n <= |Queue(b)|
  {
    Batcher(b.submitted, Queue(b)[n..], [], Settle(b.done, Queue(b)[..n], reply), Ended, Closed(b.writes, reply))
  }

  lemma ConcludeKeepsQueue(b: Batcher, n: nat, reply: Reply)
    requires QueueOk(b) && !reply.InFlight? && n <= |Queue(b)|
    ensures QueueOk(Concluded(b, n, reply))
  {
    var c := Concluded(b, n, reply);
    assert Queue(c) == Queue(b)[n..];
    SettledKeys(b.done, Queue(b)[..n], reply);
    forall e | e in Queue(b)[..n] ensures e.future < |b.submitted| { assert e in Queue(b) && Own(b, e); }
    hide Rising, Futures, Before, Settle, Queue;
    SplitRising(Queue(b), n);
    SuffixIsOwn(b, c, n);
    hide AllOwn;
    SuffixLosesNone(b, c, n);
  }

  lemma ClosedIsGood(b: Batcher, c: Batcher, reply: Reply)
    requires AllGood(b) && c.submitted == b.submitted && c.writes == Closed(b.writes, reply)
    ensures AllGood(c)
  {
    forall i | 0 <= i < |c.writes| ensures GoodWrite(c, c.writes[i]) { assert GoodWrite(b, b.writes[i]); }
  }

  lemma ClosedInOrder(writes: seq<Write>, reply: Reply)
    requires InOrder(writes)
    ensures InOrder(Closed(writes, reply))
  {
    hide Before;
    var all := Closed(writes, reply);
    forall i, j | 0 <= i < j < |all| ensures Before(all[i].jobs, all[j].jobs) {
      assert Before(writes[i].jobs, writes[j].jobs);
    }
  }

  lemma ClosedBefore(writes: seq<Write>, reply: Reply, xs: seq<Entry>)
    requires AllBefore(writes, xs)
    ensures AllBefore(Closed(writes, reply), xs)
  {
    hide Before;
    var all := Closed(writes, reply);
    forall i | 0 <= i < |all| ensures Before(all[i].jobs, xs) { assert Before(writes[i].jobs, xs); }
  }

  lemma ConcludeKeepsWrites(b: Batcher, n: nat, reply: Reply)
    requires WritesOk(b) && !reply.InFlight? && |b.batch| <= n <= |Queue(b)| && b.runner.Writing?
    ensures WritesOk(Concluded(b, n, reply))
  {
    var c := Concluded(b, n, reply);
    assert c.pending == b.pending[n - |b.batch|..];
    FewerBefore(b.writes, b.pending, c.pending);
    hide AllBefore, AllGood, InOrder, Before, Settle;
    ClosedIsGood(b, c, reply);
    ClosedInOrder(b.writes, reply);
    ClosedBefore(b.writes, reply, c.pending);
  }

  /** The last write's outcomes, and theirs alone, get the answers. */
  lemma LastWriteAnswered(b: Batcher, n: nat, reply: Reply, e: Entry)
    requires QueueOk(b) && WritesOk(b) && AnswersOk(b) && !reply.InFlight? && b.runner.Writing?
    requires |b.batch| <= n <= |Queue(b)| && e in b.writes[|b.writes| - 1].jobs
    ensures AnswersTo(Settle(b.done, Queue(b)[..n], reply), Write(b.writes[|b.writes| - 1].jobs, reply), e)
  {
    var gone := Queue(b)[..n];
    assert e in b.batch && e in Queue(b);
    assert e in gone by { var i :| 0 <= i < |b.batch| && b.batch[i] == e; assert gone[i] == e; }
    SplitRising(Queue(b), n);
    SettledKeys(b.done, gone, reply);
    if e.future !in b.done { SettledVerdict(b.done, gone, reply, e); }
  }

  lemma ConcludeExplains(b: Batcher, n: nat, reply: Reply, k: nat)
    requires QueueOk(b) && WritesOk(b) && AnswersOk(b) && !reply.InFlight? && b.runner.Writing?
    requires |b.batch| <= n <= |Queue(b)| && (reply.Applied? ==> n == |b.batch|)
    requires k in Concluded(b, n, reply).done
    ensures Explained(Concluded(b, n, reply), k)
  {
    var c := Concluded(b, n, reply);
    var gone := Queue(b)[..n];
    SplitRising(Queue(b), n);
    SettledKeys(b.done, gone, reply);
    if k in b.done {
      assert Explained(b, k);
      if b.done[k].Answered? {
        var i, e :| 0 <= i < |b.writes| && e in b.writes[i].jobs && e.future == k
          && b.writes[i].reply.Applied? && b.done[k] == Verdict(b.writes[i].reply, e);
        assert c.writes[i] == b.writes[i];
      }
    } else {
      var e := SettledFrom(b.done, gone, reply, k);
      if reply.Applied? {
        assert gone == b.batch;
        var last := |b.writes| - 1;
        assert e in b.writes[last].jobs;
        assert c.writes[last].jobs == b.writes[last].jobs && c.writes[last].reply == reply;
      }
    }
  }

  lemma ConcludeAnswersWrites(b: Batcher, n: nat, reply: Reply)
    requires QueueOk(b) && WritesOk(b) && AnswersOk(b) && !reply.InFlight? && b.runner.Writing?
    requires |b.batch| <= n <= |Queue(b)|
    ensures WritesAnswered(Concluded(b, n, reply))
  {
    var c := Concluded(b, n, reply);
    var last := |b.writes| - 1;
    SettledKeys(b.done, Queue(b)[..n], reply);
    forall i, e | 0 <= i < |c.writes| && e in c.writes[i].jobs && !c.writes[i].reply.InFlight?
      ensures AnswersTo(c.done, c.writes[i], e)
    {
      if i == last {
        hide *;
        LastWriteAnswered(b, n, reply, e);
      } else {
        assert AnswersTo(b.done, b.writes[i], e);
      }
    }
  }

  /** Resolving earlier entries leaves a later one as it was. */
  lemma LaterUntouched(done: map<nat, Outcome>, gone: seq<Entry>, keep: seq<Entry>, reply: Reply, e: Entry)
    requires !reply.InFlight? && Before(gone, keep) && e in keep
    ensures
      var after := Settle(done, gone, reply);
      e.future in after ==> e.future in done && after[e.future] == done[e.future]
  {
    SettledKeys(done, gone, reply);
    assert forall x | x in gone :: x.future < e.future;
  }

  lemma ConcludeLeavesUnanswered(b: Batcher, n: nat, reply: Reply)
    requires QueueOk(b) && QueueUnanswered(b) && !reply.InFlight? && n <= |Queue(b)|
    ensures QueueUnanswered(Concluded(b, n, reply))
  {
    var c := Concluded(b, n, reply);
    var gone, keep := Queue(b)[..n], Queue(b)[n..];
    SplitRising(Queue(b), n);
    assert Queue(c) == keep;
    forall i | 0 <= i < |keep| ensures keep[i].future in c.done ==> c.done[keep[i].future].Abandoned? {
      hide Settle, Before, Rising, Closed, QueueOk;
      assert keep[i] == Queue(b)[n + i];
      LaterUntouched(b.done, gone, keep, reply, keep[i]);
    }
  }

  lemma ConcludeKeepsAnswers(b: Batcher, n: nat, reply: Reply)
    requires QueueOk(b) && WritesOk(b) && AnswersOk(b) && !reply.InFlight? && b.runner.Writing?
    requires |b.batch| <= n <= |Queue(b)| && (reply.Applied? ==> n == |b.batch|)
    ensures AnswersOk(Concluded(b, n, reply))
  {
    var c := Concluded(b, n, reply);
    hide QueueOk, WritesOk, WritesAnswered, Explained, QueueUnanswered;
    ConcludeAnswersWrites(b, n, reply);
    ConcludeLeavesUnanswered(b, n, reply);
    forall k | k in c.done ensures Explained(c, k) { ConcludeExplains(b, n, reply, k); }
  }

  lemma ConcludeKeepsInv(b: Batcher, n: nat, reply: Reply)
    requires Inv(b) && !reply.InFlight? && b.runner.Writing?
    requires |b.batch| <= n <= |Queue(b)| && (reply.Applied? ==> n == |b.batch|)
    ensures Inv(Concluded(b, n, reply))
  {
    hide QueueOk, WritesOk, AnswersOk;
    ConcludeKeepsQueue(b, n, reply);
    ConcludeKeepsWrites(b, n, reply);
    ConcludeKeepsAnswers(b, n, reply);
  }

  lemma SubmitLosesNone(b: Batcher, c: Batcher, e0: Entry)
    requires NoneLost(b) && Queue(c) == Queue(b) + [e0] && c.done == b.done
    requires e0.future == |b.submitted| && |c.submitted| == |b.submitted| + 1
    ensures NoneLost(c)
  {
    var q := Queue(b);
    assert (q + [e0])[..|q|] == q && (q + [e0])[|q|..] == [e0];
    SplitFutures(q + [e0], |q|);
    assert e0.future in Futures([e0]);
  }

  lemma SubmitKeepsQueue(b: Batcher, job: Completion)
    requires QueueOk(b)
    ensures QueueOk(Next(b, Submit(job)))
  {
    var c := Next(b, Submit(job));
    var e0 := Entry(|b.submitted|, job);
    var q := Queue(b);
    assert Queue(c) == q + [e0];
    forall e | e in Queue(c) ensures Own(c, e) { assert e == e0 || Own(b, e); }
    forall i | 0 <= i < |q| ensures q[i].future < e0.future { assert q[i] in q && Own(b, q[i]); }
    assert Rising(q + [e0]);
    hide Rising, Futures, Own, Queue;
    SubmitLosesNone(b, c, e0);
  }

  lemma SubmitKeepsWrites(b: Batcher, job: Completion)
    requires QueueOk(b) && WritesOk(b)
    ensures WritesOk(Next(b, Submit(job)))
  {
    var c := Next(b, Submit(job));
    var e0 := Entry(|b.submitted|, job);
    forall i | 0 <= i < |b.writes| ensures Before(b.writes[i].jobs, b.pending + [e0]) {
      assert GoodWrite(b, b.writes[i]) && Before(b.writes[i].jobs, b.pending);
      forall x | x in b.writes[i].jobs ensures x.future < |b.submitted| { assert Own(b, x); }
    }
    hide GoodWrite, AllGood, Before, InOrder, QueueOk;
    StillGood(b, c);
  }

  lemma SubmitKeepsAnswers(b: Batcher, job: Completion)
    requires QueueOk(b) && AnswersOk(b)
    ensures AnswersOk(Next(b, Submit(job)))
  {
    var c := Next(b, Submit(job));
    assert Queue(c) == Queue(b) + [Entry(|b.submitted|, job)];
    forall k | k in c.done ensures Explained(c, k) { assert Explained(b, k); }
  }

  function AbandonedAt(b: Batcher, k: nat): Batcher { b.(done := b.done[k := Abandoned]) }

  lemma AbandonKeepsQueue(b: Batcher, k: nat)
    requires QueueOk(b) && k < |b.submitted|
    ensures QueueOk(AbandonedAt(b, k))
  {
    var c := AbandonedAt(b, k);
    assert Queue(c) == Queue(b);
    forall e | e in Queue(c) ensures Own(c, e) { assert Own(b, e); }
  }

  lemma AbandonKeepsWrites(b: Batcher, k: nat)
    requires WritesOk(b)
    ensures WritesOk(AbandonedAt(b, k))
  {
    var c := AbandonedAt(b, k);
    hide AllGood, AllBefore, InOrder;
    StillGood(b, c);
  }

  lemma AbandonKeepsAnswers(b: Batcher, k: nat)
    requires AnswersOk(b) && k !in b.done
    ensures AnswersOk(AbandonedAt(b, k))
  {
    var c := AbandonedAt(b, k);
    assert Queue(c) == Queue(b);
    forall j | j in c.done ensures Explained(c, j) { if j != k { assert Explained(b, j); } }
    forall i, e | 0 <= i < |c.writes| && e in c.writes[i].jobs && !c.writes[i].reply.InFlight?
      ensures AnswersTo(c.done, c.writes[i], e)
    {
      assert AnswersTo(b.done, b.writes[i], e);
    }
  }

  lemma StepKeepsInv(b: Batcher, step: Step)
    requires Inv(b)
    ensures Inv(Next(b, step))
  {
    match step
    case Submit(job) =>
      hide QueueOk, WritesOk, AnswersOk;
      SubmitKeepsQueue(b, job);
      SubmitKeepsWrites(b, job);
      SubmitKeepsAnswers(b, job);
    case Start =>
      if b.runner.Scheduled? { IdleKeepsInv(b); DispatchKeepsInv(b); }
    case WriteReturns(states) =>
      if b.runner.Writing? {
        var c := Concluded(b, |b.batch|, Applied(states));
        assert Queue(b)[..|b.batch|] == b.batch && Queue(b)[|b.batch|..] == b.pending;
        ConcludeKeepsInv(b, |b.batch|, Applied(states));
        assert Idle(c) == c;
        var d := b.(done := Settle(b.done, b.batch, Applied(states)), batch := [], writes := Closed(b.writes, Applied(states)));
        assert Idle(d) == c;
        DispatchKeepsInv(d);
      }
    case WriteRaises => if b.runner.Writing? { FailKeepsInv(b, Reply.Failed); }
    case ControllerCancelled(k) =>
      if k < |b.submitted| && k !in b.done {
        hide QueueOk, WritesOk, AnswersOk;
        AbandonKeepsQueue(b, k);
        AbandonKeepsWrites(b, k);
        AbandonKeepsAnswers(b, k);
      }
    case Close =>
      if b.runner.Writing? { FailKeepsInv(b, Cut); } else if b.runner.Scheduled? { IdleKeepsInv(b); }
  }

  lemma FailKeepsInv(b: Batcher, reply: Reply)
    requires Inv(b) && b.runner.Writing? && (reply.Cut? || reply.Failed?)
    ensures Inv(FailAll(b, reply))
  {
    assert Queue(b)[..|Queue(b)|] == Queue(b);
    ConcludeKeepsInv(b, |Queue(b)|, reply);
    assert FailAll(b, reply) == Concluded(b, |Queue(b)|, reply);
  }

  lemma IdleKeepsInv(b: Batcher)
    requires Inv(b) && !b.runner.Writing?
    ensures Inv(Idle(b)) && b.batch == []
  {
    var c := Idle(b);
    assert Queue(c) == Queue(b);
    forall k | k in c.done ensures Explained(c, k) { assert Explained(b, k); }
    forall i | 0 <= i < |c.writes| ensures GoodWrite(c, c.writes[i]) { assert GoodWrite(b, b.writes[i]); }
    forall e | e in Queue(c) ensures Own(c, e) { assert Own(b, e); }
  }
}
