/** The outbox follows the lifecycle: committed moves of one task walk the automaton, and under stable
    filters their events are exactly the matching moves, in sequence order. */
module FeedOutbox {
  import opened Rows
  import opened Feed
  import opened FeedPurity
  import opened FeedNoGap
  import opened FeedRuns

  /** Where the task's story stands. */
  function Latest(story: seq<Move>, id: Id): Option<Face>
    decreases |story|
  {
    if story == [] then None
    else
      var m := story[|story| - 1];
      if m.id == id then Some(m.after) else Latest(story[..|story| - 1], id)
  }

  predicate Continues(story: seq<Move>, m: Move) {
    && m.before == Latest(story, m.id)
    && Edge(if m.before.Some? then Some(m.before.value.state) else None, m.after.state)
    && (m.before.Some? ==> m.before.value.typ == m.after.typ && m.before.value.attempt <= m.after.attempt)
  }

  predicate Lawful(story: seq<Move>)
    decreases |story|
  {
    story == [] || (Lawful(story[..|story| - 1]) && Continues(story[..|story| - 1], story[|story| - 1]))
  }

  predicate Apart(xs: seq<Move>, ys: seq<Move>) {
    forall i, j | 0 <= i < |xs| && 0 <= j < |ys| :: xs[i].id != ys[j].id
  }

  lemma {:induction false} LatestSkips(story: seq<Move>, other: seq<Move>, more: seq<Move>, id: Id)
    requires forall i | 0 <= i < |other| :: other[i].id != id
    ensures Latest(story + other + more, id) == Latest(story + more, id)
    decreases |more|, |other|
  {
    if more != [] {
      var n := |more| - 1;
      assert (story + other + more)[..|story + other + more| - 1] == story + other + more[..n];
      assert (story + more)[..|story + more| - 1] == story + more[..n];
      LatestSkips(story, other, more[..n], id);
    } else if other != [] {
      assert story + other + more == story + other && story + more == story;
      assert (story + other)[..|story + other| - 1] == story + other[..|other| - 1];
      LatestSkips(story, other[..|other| - 1], more, id);
      assert story + other[..|other| - 1] + more == story + other[..|other| - 1];
    } else {
      assert story + other + more == story + more;
    }
  }

  /** Moves of other tasks may come in between. */
  lemma {:induction false} LawfulSkips(story: seq<Move>, other: seq<Move>, more: seq<Move>)
    requires Lawful(story + other) && Lawful(story + more) && Apart(other, more)
    ensures Lawful(story + other + more)
    decreases |more|
  {
    if more == [] {
      assert story + other + more == story + other;
    } else {
      var n := |more| - 1;
      assert (story + other + more)[..|story + other + more| - 1] == story + other + more[..n];
      assert (story + more)[..|story + more| - 1] == story + more[..n];
      LawfulSkips(story, other, more[..n]);
      LatestSkips(story, other, more[..n], more[n].id);
    }
  }

  /** Events of one task are numbered in the order of its moves. */
  ghost predicate InOrder(story: seq<Move>) {
    forall i, j | 0 <= i < j < |story| && story[i].id == story[j].id && story[i].event.Some? && story[j].event.Some? ::
      story[i].event.value.seqno < story[j].event.value.seqno
  }

  /** A move made since the registration carries an event exactly when the filter asks for it. */
  predicate Told(s: World, m: Move) {
    && (m.event.Some? ==> m.event.value.seqno < s.nextSeq && m.event.value.id == m.id && m.event.value.face == m.after && !m.event.value.snapshot)
    && (s.reg.Some? && s.reg.value.stable && m.t >= s.reg.value.gen ==>
          (m.event.Some? <==> Matches(s.reg.value.filter, m.after)) && (m.event.Some? ==> m.event.value.gen == s.reg.value.gen))
  }

  ghost predicate Telling(story: seq<Move>, e: Event) {
    exists i | 0 <= i < |story| :: story[i].event == Some(e)
  }

  ghost predicate InLine(story: seq<Move>) { Lawful(story) && InOrder(story) }

  ghost predicate Facts(s: World, x: Txn, t: nat) {
    forall i | 0 <= i < |x.moves| :: x.moves[i].id in x.writes && x.moves[i].t == t && Told(s, x.moves[i])
  }

  predicate UpToDate(story: seq<Move>, x: Txn) {
    forall id | id in x.writes :: Latest(story + x.moves, id) == Some(FaceOf(x.writes[id]))
  }

  ghost predicate AllTold(x: Txn) {
    forall e | e in x.events :: Telling(x.moves, e)
  }

  /** The buffered moves of an open transaction continue the committed story up to its own writes. */
  ghost predicate DraftOk(s: World, t: nat)
    requires t in s.txns
  {
    InLine(s.story + s.txns[t].moves) && Facts(s, s.txns[t], t) && UpToDate(s.story, s.txns[t]) && AllTold(s.txns[t])
  }

  ghost predicate OutboxOk(s: World) {
    && InLine(s.story)
    && (forall i | 0 <= i < |s.story| :: Told(s, s.story[i]) && s.story[i].t < s.clock && s.story[i].id < s.nextId)
    && (forall id | id in s.tasks :: Latest(s.story, id) == Some(FaceOf(s.tasks[id])))
    && (forall id | id >= s.nextId :: Latest(s.story, id) == None)
    && (forall e | e in s.published && !e.snapshot :: Telling(s.story, e))
    && (forall t | t in s.txns :: DraftOk(s, t))
  }

  /** Nothing about stories, rows or filters changed. */
  predicate SameStory(s: World, s': World) {
    && s'.story == s.story && s'.clock >= s.clock && s'.nextId == s.nextId && s'.nextSeq >= s.nextSeq
    && (s'.reg.Some? && s'.reg.value.stable ==>
          (s.reg.Some? && s.reg.value.stable && s.reg.value.gen == s'.reg.value.gen && s.reg.value.filter == s'.reg.value.filter)
          || s'.reg.value.gen >= s.clock)
    && (forall id | id in s'.tasks :: id in s.tasks && s'.tasks[id] == s.tasks[id])
    && (forall t | t in s'.txns :: SameDraft(s, s'.txns[t], t))
    && (forall e | e in s'.published :: e in s.published || e.snapshot)
  }

  predicate SameDraft(s: World, x: Txn, t: nat) {
    if t in s.txns then x.moves == s.txns[t].moves && x.writes == s.txns[t].writes && x.events == s.txns[t].events
    else x.moves == [] && x.writes == map[] && x.events == {}
  }

  lemma SameStoryKeeps(s: World, s': World)
    requires PurityOk(s) && OutboxOk(s) && SameStory(s, s')
    ensures OutboxOk(s')
  {
    forall i | 0 <= i < |s'.story| ensures Told(s', s'.story[i]) { assert Told(s, s.story[i]); }
    forall t | t in s'.txns ensures DraftOk(s', t) {
      if t in s.txns {
        assert DraftOk(s, t);
        forall i | 0 <= i < |s.txns[t].moves| ensures Told(s', s.txns[t].moves[i]) { assert Told(s, s.txns[t].moves[i]); }
      } else {
        assert s.story + [] == s.story;
      }
    }
  }

  // -------------------------------------------------------------------------------------- writing

  /** The move a publishing write appends continues the draft. */
  lemma MoveContinues(s: World, t: nat, id: Id, op: Op)
    requires PurityOk(s) && GapOk(s) && OutboxOk(s) && t in s.txns
    requires NewRow(s, t, id, op).Some? && Publishes(op, NewRow(s, t, id, op).value)
    ensures Continues(s.story + s.txns[t].moves, MoveFor(s, t, id, NewRow(s, t, id, op).value, None))
  {
    var x := s.txns[t];
    var found := Found(s, x, id);
    WritePublishesTheMove(op, found);
    assert DraftOk(s, t);
    if id !in x.writes {
      LatestSkips(s.story, x.moves, [], id);
      assert s.story + x.moves + [] == s.story + x.moves && s.story + [] == s.story;
    }
  }

  lemma MoveIsTold(s: World, t: nat, id: Id, op: Op)
    requires GapOk(s) && t in s.txns && NewRow(s, t, id, op).Some? && Publishes(op, NewRow(s, t, id, op).value)
    ensures
      var row := NewRow(s, t, id, op).value;
      var s' := s.(nextSeq := s.nextSeq + 1);
      if Emits(s, t, op, row) then Told(s', MoveFor(s, t, id, row, Some(EventFor(s, id, row)))) else Told(s', MoveFor(s, t, id, row, None))
  {
    assert ViewOk(s, t);
  }

  lemma OrderGrows(all: seq<Move>, m: Move, next: nat)
    requires InOrder(all) && (m.event.Some? ==> m.event.value.seqno >= next)
    requires forall i | 0 <= i < |all| :: all[i].event.Some? ==> all[i].event.value.seqno < next
    ensures InOrder(all + [m])
  {
  }

  lemma LineGrows(s: World, t: nat, m: Move)
    requires OutboxOk(s) && t in s.txns
    requires Continues(s.story + s.txns[t].moves, m) && (m.event.Some? ==> m.event.value.seqno >= s.nextSeq)
    ensures InLine(s.story + (s.txns[t].moves + [m]))
  {
    var x := s.txns[t];
    var all := s.story + x.moves;
    assert DraftOk(s, t);
    assert s.story + (x.moves + [m]) == all + [m] && (all + [m])[..|all|] == all;
    forall i | 0 <= i < |all| ensures all[i].event.Some? ==> all[i].event.value.seqno < s.nextSeq {
      if i < |s.story| { assert Told(s, s.story[i]); } else { assert Told(s, x.moves[i - |s.story|]); }
    }
    assert InLine(all) && Lawful(all + [m]);
    hide Latest, Continues, Told, OutboxOk, DraftOk, Lawful, InOrder;
    OrderGrows(all, m, s.nextSeq);
  }

  lemma FactsGrow(s: World, s': World, x: Txn, x': Txn, t: nat, id: Id, m: Move)
    requires Facts(s, x, t) && m.id == id && m.t == t && Told(s', m)
    requires s'.reg == s.reg && s'.nextSeq >= s.nextSeq && x'.moves == x.moves + [m] && x'.writes.Keys == x.writes.Keys + {id}
    ensures Facts(s', x', t)
  {
    forall i | 0 <= i < |x'.moves| ensures Told(s', x'.moves[i]) && x'.moves[i].id in x'.writes && x'.moves[i].t == t {
      if i < |x.moves| { assert Told(s, x.moves[i]); }
    }
  }

  lemma UpToDateGrows(story: seq<Move>, x: Txn, x': Txn, id: Id, row: Row, m: Move)
    requires UpToDate(story, x) && m.id == id && m.after == FaceOf(row)
    requires x'.moves == x.moves + [m] && x'.writes == x.writes[id := row]
    ensures UpToDate(story, x')
  {
    var all := story + x.moves;
    assert story + x'.moves == all + [m] && (all + [m])[..|all|] == all;
  }

  lemma AllToldGrows(x: Txn, x': Txn, m: Move)
    requires AllTold(x) && x'.moves == x.moves + [m]
    requires x'.events == x.events + (if m.event.Some? then {m.event.value} else {})
    ensures AllTold(x')
  {
    forall e | e in x'.events ensures Telling(x'.moves, e) {
      if e in x.events {
        var i :| 0 <= i < |x.moves| && x.moves[i].event == Some(e);
        assert x'.moves[i].event == Some(e);
      } else {
        assert x'.moves[|x.moves|].event == Some(e);
      }
    }
  }

  /** A draft that grows by one move. */
  lemma DraftGrows(s: World, s': World, t: nat, id: Id, row: Row, m: Move)
    requires OutboxOk(s) && t in s.txns && t in s'.txns
    requires Continues(s.story + s.txns[t].moves, m) && m.id == id && m.t == t && m.after == FaceOf(row) && Told(s', m)
    requires m.event.Some? ==> m.event.value.seqno >= s.nextSeq
    requires s'.story == s.story && s'.reg == s.reg && s'.nextSeq >= s.nextSeq
    requires s'.txns[t].moves == s.txns[t].moves + [m] && s'.txns[t].writes == s.txns[t].writes[id := row]
    requires s'.txns[t].events == s.txns[t].events + (if m.event.Some? then {m.event.value} else {})
    ensures DraftOk(s', t)
  {
    var x, x' := s.txns[t], s'.txns[t];
    assert DraftOk(s, t);
    LineGrows(s, t, m);
    FactsGrow(s, s', x, x', t, id, m);
    UpToDateGrows(s.story, x, x', id, row, m);
    AllToldGrows(x, x', m);
  }

  lemma WriteKeepsDraft(s: World, t: nat, id: Id, op: Op)
    requires PurityOk(s) && GapOk(s) && OutboxOk(s) && t in s.txns && WriteRow(s, t, id, op) != s
    ensures DraftOk(WriteRow(s, t, id, op), t)
  {
    var s' := WriteRow(s, t, id, op);
    var row := NewRow(s, t, id, op).value;
    if Publishes(op, row) {
      MoveContinues(s, t, id, op);
      MoveIsTold(s, t, id, op);
      var m := MoveFor(s, t, id, row, if Emits(s, t, op, row) then Some(EventFor(s, id, row)) else None);
      assert Continues(s.story + s.txns[t].moves, m);
      hide PurityOk, GapOk, OutboxOk, DraftOk, Continues, NewRow, Publishes;
      DraftGrows(s, s', t, id, row, m);
    } else {
      QuietWriteKeepsDraft(s, t, id, op);
    }
  }

  lemma WriteKeepsOutbox(s: World, t: nat, id: Id, op: Op)
    requires PurityOk(s) && GapOk(s) && OutboxOk(s) && t in s.txns
    ensures OutboxOk(WriteRow(s, t, id, op))
  {
    var s' := WriteRow(s, t, id, op);
    hide PurityOk, GapOk, OutboxOk, DraftOk;
    if s' != s {
      WriteKeepsDraft(s, t, id, op);
      assert s'.txns == s.txns[t := s'.txns[t]];
      hide WriteRow, NewRow, Apply, Publishes, Buffered, Continues;
      OtherDraftsStay(s, s', t);
    }
  }

  lemma LatestBefore(s: World, t: nat, id: Id)
    requires OutboxOk(s) && t in s.txns && Found(s, s.txns[t], id).Some?
    ensures Latest(s.story + s.txns[t].moves, id) == FaceIn(s, s.txns[t], id)
  {
    var x := s.txns[t];
    assert DraftOk(s, t);
    if id !in x.writes {
      LatestSkips(s.story, x.moves, [], id);
      assert s.story + x.moves + [] == s.story + x.moves && s.story + [] == s.story;
    }
  }

  /** A write that is not published leaves the story as it is. */
  lemma DraftStays(s: World, s': World, t: nat, id: Id, row: Row)
    requires OutboxOk(s) && t in s.txns && t in s'.txns && Latest(s.story + s.txns[t].moves, id) == Some(FaceOf(row))
    requires s'.story == s.story && s'.reg == s.reg && s'.nextSeq == s.nextSeq
    requires s'.txns[t] == s.txns[t].(writes := s.txns[t].writes[id := row])
    ensures DraftOk(s', t)
  {
    var x, x' := s.txns[t], s'.txns[t];
    assert DraftOk(s, t);
    hide OutboxOk, InLine, Telling;
    assert UpToDate(s.story, x');
    hide Latest, UpToDate;
    assert Facts(s', x', t) by {
      forall i | 0 <= i < |x.moves| ensures Told(s', x.moves[i]) { assert Told(s, x.moves[i]); }
    }
    hide Facts, Told;
    assert AllTold(x');
  }

  lemma QuietWriteKeepsDraft(s: World, t: nat, id: Id, op: Op)
    requires PurityOk(s) && GapOk(s) && OutboxOk(s) && t in s.txns
    requires NewRow(s, t, id, op).Some? && !Publishes(op, NewRow(s, t, id, op).value)
    ensures DraftOk(WriteRow(s, t, id, op), t)
  {
    var x := s.txns[t];
    var s' := WriteRow(s, t, id, op);
    var row := NewRow(s, t, id, op).value;
    hide OutboxOk, DraftOk;
    QuietWritesShowTheSame(op, Found(s, x, id));
    LatestBefore(s, t, id);
    assert s'.txns[t] == x.(writes := x.writes[id := row]);
    DraftStays(s, s', t, id, row);
  }

  lemma OtherDraftsStay(s: World, s': World, t: nat)
    requires OutboxOk(s) && t in s.txns && t in s'.txns && DraftOk(s', t)
    requires s'.txns == s.txns[t := s'.txns[t]] && s'.story == s.story && s'.tasks == s.tasks && s'.published == s.published
    requires s'.reg == s.reg && s'.clock == s.clock && s'.nextId >= s.nextId && s'.nextSeq >= s.nextSeq
    ensures OutboxOk(s')
  {
    forall i | 0 <= i < |s'.story| ensures Told(s', s'.story[i]) { assert Told(s, s.story[i]); }
    forall u | u in s'.txns ensures DraftOk(s', u) {
      if u != t {
        assert DraftOk(s, u);
        forall i | 0 <= i < |s.txns[u].moves| ensures Told(s', s.txns[u].moves[i]) { assert Told(s, s.txns[u].moves[i]); }
      }
    }
  }

  // ----------------------------------------------------------------------------------- committing

  lemma OrderSkips(story: seq<Move>, other: seq<Move>, more: seq<Move>)
    requires InOrder(story + other) && InOrder(story + more) && Apart(other, more)
    ensures InOrder(story + other + more)
  {
    var all := story + other + more;
    var n, k := |story|, |other|;
    assert forall p | n <= p < n + k :: all[p] == other[p - n];
    forall i, j | 0 <= i < j < |all| && all[i].id == all[j].id && all[i].event.Some? && all[j].event.Some?
      ensures all[i].event.value.seqno < all[j].event.value.seqno
    {
      if j < n + k {
        assert all[i] == (story + other)[i] && all[j] == (story + other)[j];
      } else {
        assert all[j] == more[j - n - k] && all[j] == (story + more)[j - k];
        if i < n { assert all[i] == (story + more)[i]; } else { assert all[i] == (story + more)[i - k]; }
      }
    }
  }

  lemma DraftsAreApart(s: World, t: nat, u: nat)
    requires StoredOk(s) && OutboxOk(s) && t in s.txns && u in s.txns && t != u
    ensures Apart(s.txns[t].moves, s.txns[u].moves)
    ensures forall id | id in s.txns[u].writes :: forall i | 0 <= i < |s.txns[t].moves| :: s.txns[t].moves[i].id != id
  {
    assert DraftOk(s, t) && DraftOk(s, u);
  }

  lemma CommitKeepsDraft(s: World, t: nat, u: nat)
    requires StoredOk(s) && OutboxOk(s) && t in s.txns && u in s.txns && t != u
    ensures DraftOk(CommitTxn(s, t), u)
  {
    var s' := CommitTxn(s, t);
    var xs, ys := s.txns[t].moves, s.txns[u].moves;
    assert DraftOk(s, t) && DraftOk(s, u);
    DraftsAreApart(s, t, u);
    LawfulSkips(s.story, xs, ys);
    OrderSkips(s.story, xs, ys);
    assert s'.story == s.story + xs && s'.txns[u] == s.txns[u] && s'.reg == s.reg && s'.nextSeq == s.nextSeq;
    hide CommitTxn, Lawful, InOrder, Continues, OutboxOk, StoredOk, Apart;
    assert Facts(s', s.txns[u], u) by {
      forall i | 0 <= i < |ys| ensures Told(s', ys[i]) { assert Told(s, ys[i]); }
    }
    hide Told;
    forall id | id in s.txns[u].writes ensures Latest(s'.story + ys, id) == Some(FaceOf(s.txns[u].writes[id])) {
      LatestSkips(s.story, xs, ys, id);
    }
  }

  /** What the committed story says after a commit. */
  lemma CommitTells(s: World, t: nat, i: nat)
    requires ClockOk(s) && StoredOk(s) && OutboxOk(s) && t in s.txns && i < |CommitTxn(s, t).story|
    ensures var s' := CommitTxn(s, t); Told(s', s'.story[i]) && s'.story[i].t < s'.clock && s'.story[i].id < s'.nextId
  {
    hide InLine, UpToDate, AllTold, Telling, Latest, Shaped, Matches;
    var s' := CommitTxn(s, t);
    var x := s.txns[t];
    if i < |s.story| {
      assert s'.story[i] == s.story[i] && Told(s, s.story[i]);
    } else {
      assert DraftOk(s, t);
      assert s'.story[i] == x.moves[i - |s.story|] && Told(s, x.moves[i - |s.story|]);
    }
  }

  lemma CommitTellsEvent(s: World, t: nat, e: Event)
    requires OutboxOk(s) && t in s.txns && e in CommitTxn(s, t).published && !e.snapshot
    ensures Telling(CommitTxn(s, t).story, e)
  {
    var s' := CommitTxn(s, t);
    var x := s.txns[t];
    if e in s.published {
      var i :| 0 <= i < |s.story| && s.story[i].event == Some(e);
      assert s'.story[i].event == Some(e);
    } else {
      assert DraftOk(s, t);
      var i :| 0 <= i < |x.moves| && x.moves[i].event == Some(e);
      assert s'.story[|s.story| + i].event == Some(e);
    }
  }

  /** The committed story ends at the committed rows. */
  lemma CommitKeepsFaces(s: World, t: nat)
    requires PurityOk(s) && GapOk(s) && OutboxOk(s) && t in s.txns
    ensures
      var s' := CommitTxn(s, t);
      && InLine(s'.story)
      && (forall id | id in s'.tasks :: Latest(s'.story, id) == Some(FaceOf(s'.tasks[id])))
      && (forall id | id >= s'.nextId :: Latest(s'.story, id) == None)
  {
    var s' := CommitTxn(s, t);
    assert DraftOk(s, t);
    hide Told, Telling, InLine, DraftOk;
    forall id | id in s'.tasks ensures Latest(s'.story, id) == Some(FaceOf(s'.tasks[id])) { WrittenTasksMove(s, t, id); }
    forall id | id >= s'.nextId ensures Latest(s'.story, id) == None {
      assert id !in s.txns[t].writes;
      UntouchedTasksStay(s, t, id);
    }
  }

  lemma CommitKeepsOutbox(s: World, t: nat)
    requires PurityOk(s) && GapOk(s) && OutboxOk(s) && t in s.txns
    ensures OutboxOk(CommitTxn(s, t))
  {
    hide InLine, DraftOk, Latest, Told, Telling;
    var s' := CommitTxn(s, t);
    CommitKeepsFaces(s, t);
    forall i | 0 <= i < |s'.story| ensures Told(s', s'.story[i]) && s'.story[i].t < s'.clock && s'.story[i].id < s'.nextId { CommitTells(s, t, i); }
    forall e | e in s'.published && !e.snapshot ensures Telling(s'.story, e) { CommitTellsEvent(s, t, e); }
    forall u | u in s'.txns ensures DraftOk(s', u) { CommitKeepsDraft(s, t, u); }
  }

  lemma UntouchedTasksStay(s: World, t: nat, id: Id)
    requires OutboxOk(s) && t in s.txns && id !in s.txns[t].writes
    ensures Latest(s.story + s.txns[t].moves, id) == Latest(s.story, id)
  {
    assert DraftOk(s, t);
    LatestSkips(s.story, s.txns[t].moves, [], id);
    assert s.story + s.txns[t].moves + [] == s.story + s.txns[t].moves && s.story + [] == s.story;
  }

  lemma WrittenTasksMove(s: World, t: nat, id: Id)
    requires OutboxOk(s) && t in s.txns && id in CommitTxn(s, t).tasks
    ensures Latest(s.story + s.txns[t].moves, id) == Some(FaceOf(CommitTxn(s, t).tasks[id]))
  {
    assert DraftOk(s, t);
    if id !in s.txns[t].writes { UntouchedTasksStay(s, t, id); }
  }

  // ------------------------------------------------------------------------------- every schedule

  lemma RegisterKeepsStory(s: World, b: nat, filter: Filter, backfill: Option<Option<Time>>)
    requires PurityOk(s)
    ensures SameStory(s, RegisterName(s, b, filter, backfill))
  {
  }

  lemma ChunkKeepsStory(s: World, b: nat)
    requires PurityOk(s) && b in s.bfs && s.bfs[b].phase.Chunk? && s.bfs[b].phase.work.Some? && s.reg.Some?
    ensures SameStory(s, CommitChunk(s, b, s.bfs[b].phase.work.value))
  {
    assert WorkOk(s, b);
  }

  /** A step that leaves transactions, rows and live events alone. */
  predicate Elsewhere(s: World, s': World) {
    && s'.story == s.story && s'.clock >= s.clock && s'.nextId == s.nextId && s'.nextSeq >= s.nextSeq
    && (s'.reg == s.reg || s'.reg.None?) && s'.tasks == s.tasks && s'.published == s.published && s'.txns == s.txns
  }

  lemma ElsewhereKeeps(s: World, s': World)
    requires PurityOk(s) && OutboxOk(s) && Elsewhere(s, s')
    ensures OutboxOk(s')
  {
    SameStoryKeeps(s, s');
  }

  lemma TxnStepsKeepStory(s: World, t: nat, x: Txn)
    requires PurityOk(s) && OutboxOk(s) && SameDraft(s, x, t)
    ensures OutboxOk(s.(txns := s.txns[t := x])) && OutboxOk(Ended(s, t))
  {
    SameStoryKeeps(s, s.(txns := s.txns[t := x]));
    SameStoryKeeps(s, Ended(s, t));
  }

  lemma BeginKeepsStory(s: World, s': World, x: Txn)
    requires PurityOk(s) && OutboxOk(s) && x.moves == [] && x.writes == map[] && x.events == {}
    requires Elsewhere(s, s'.(txns := s.txns)) && s'.txns == s.txns[s.clock := x]
    ensures OutboxOk(s')
  {
    TxnStepsKeepStory(s, s.clock, x);
    OnlyClock(s.(txns := s.txns[s.clock := x]), s');
  }

  lemma OnlyClock(s: World, s': World)
    requires OutboxOk(s) && Elsewhere(s, s')
    ensures OutboxOk(s')
  {
    forall i | 0 <= i < |s'.story| ensures Told(s', s'.story[i]) { assert Told(s, s.story[i]); }
    forall t | t in s'.txns ensures DraftOk(s', t) {
      assert DraftOk(s, t);
      forall i | 0 <= i < |s.txns[t].moves| ensures Told(s', s.txns[t].moves[i]) { assert Told(s, s.txns[t].moves[i]); }
    }
  }

  lemma PurgeKeepsStory(s: World, id: Id)
    requires PurityOk(s) && OutboxOk(s)
    ensures OutboxOk(s.(tasks := s.tasks - {id}))
  {
    SameStoryKeeps(s, s.(tasks := s.tasks - {id}));
  }

  lemma PullKeepsStory(s: World, c: nat, seqnos: set<nat>, size: nat)
    requires PurityOk(s) && OutboxOk(s) && c in s.feeds
    ensures OutboxOk(PullBatch(s, c, seqnos, size))
  {
    hide IsPull, OutboxOk, PurityOk;
    var s' := PullBatch(s, c, seqnos, size);
    if s'.txns == s.txns { ElsewhereKeeps(s, s'); }
    else { BeginKeepsStory(s, s', Txn(Closed, map[], {}, true, seqnos, [])); }
  }

  lemma ScanKeepsStory(s: World, b: nat, ids: seq<Id>, limit: nat)
    requires PurityOk(s) && OutboxOk(s) && b in s.bfs
    ensures OutboxOk(ScanChunk(s, b, ids, limit))
  {
    hide Scans, OutboxOk, PurityOk;
    ElsewhereKeeps(s, ScanChunk(s, b, ids, limit));
  }

  lemma AckKeepsOutbox(s: World, c: nat, t: nat)
    requires PurityOk(s) && GapOk(s) && OutboxOk(s) && c in s.feeds && t in s.txns
    ensures OutboxOk(AckBatch(s, c, t))
  {
    CommitKeepsOutbox(s, t);
    OnlyClock(CommitTxn(s, t), AckBatch(s, c, t));
  }

  lemma StepKeepsOutbox(s: World, step: Step)
    requires FeedInv(s) && OutboxOk(s)
    ensures OutboxOk(Next(s, step))
  {
    assert PurityOk(s) && GapOk(s);
    if step.Register? {
      RegisterKeepsStory(s, step.b, step.filter, step.backfill);
      SameStoryKeeps(s, RegisterName(s, step.b, step.filter, step.backfill));
    } else if step.Begin? || step.Look? || step.Write? || step.Commit? || step.Abort? {
      TxnStepKeepsOutbox(s, step);
    } else if step.Pull? || step.Ack? || step.Rollback? || step.PurgeTask? {
      FeedStepKeepsOutbox(s, step);
    } else if step.ChunkScan? || step.ChunkCommit? {
      ChunkStepKeepsOutbox(s, step);
    } else {
      OtherStepsAreElsewhere(s, step);
      ElsewhereKeeps(s, Next(s, step));
    }
  }

  lemma TxnStepKeepsOutbox(s: World, step: Step)
    requires PurityOk(s) && GapOk(s) && OutboxOk(s) && (step.Begin? || step.Look? || step.Write? || step.Commit? || step.Abort?)
    ensures OutboxOk(Next(s, step))
  {
    hide PurityOk, GapOk, OutboxOk, WriteRow, CommitTxn;
    match step
    case Begin => BeginKeepsStory(s, Next(s, step), Txn(Closed, map[], {}, false, {}, []));
    case Look(t) => if t in s.txns { TxnStepsKeepStory(s, t, s.txns[t].(view := Open(s.reg))); }
    case Write(t, id, op) => if t in s.txns { WriteKeepsOutbox(s, t, id, op); }
    case Commit(t) => if t in s.txns { CommitKeepsOutbox(s, t); }
    case Abort(t) => if t in s.txns { TxnStepsKeepStory(s, t, s.txns[t]); }
    case _ =>
  }

  lemma FeedStepKeepsOutbox(s: World, step: Step)
    requires PurityOk(s) && GapOk(s) && OutboxOk(s) && (step.Pull? || step.Ack? || step.Rollback? || step.PurgeTask?)
    ensures OutboxOk(Next(s, step))
  {
    hide PurityOk, GapOk, OutboxOk, PullBatch, AckBatch;
    if (step.Ack? || step.Rollback?) && step.c in s.feeds && s.feeds[step.c].batch.Some? { BatchIsOpen(s, step.c); }
    match step
    case Pull(c, seqnos, size) => if c in s.feeds { PullKeepsStory(s, c, seqnos, size); }
    case Ack(c) => if c in s.feeds && s.feeds[c].batch.Some? { AckKeepsOutbox(s, c, s.feeds[c].batch.value); }
    case Rollback(c) => if c in s.feeds && s.feeds[c].batch.Some? { RollbackKeepsOutbox(s, c); }
    case PurgeTask(id) => PurgeKeepsStory(s, id);
    case _ =>
  }

  lemma RollbackKeepsOutbox(s: World, c: nat)
    requires PurityOk(s) && GapOk(s) && OutboxOk(s)
    requires c in s.feeds && s.feeds[c].batch.Some? && s.feeds[c].batch.value in s.txns
    ensures OutboxOk(Next(s, Rollback(c)))
  {
    hide PurityOk, GapOk, OutboxOk;
    TxnStepsKeepStory(s, s.feeds[c].batch.value, s.txns[s.feeds[c].batch.value]);
    OnlyClock(Ended(s, s.feeds[c].batch.value), Next(s, Rollback(c)));
  }

  lemma ChunkStepKeepsOutbox(s: World, step: Step)
    requires PurityOk(s) && GapOk(s) && OutboxOk(s) && (step.ChunkScan? || step.ChunkCommit?)
    ensures OutboxOk(Next(s, step))
  {
    hide PurityOk, GapOk, OutboxOk, ScanChunk, CommitChunk, SameStory;
    if step.b in s.bfs && s.bfs[step.b].phase.Chunk? {
      if step.ChunkScan? { ScanKeepsStory(s, step.b, step.ids, step.limit); }
      else if s.bfs[step.b].phase.work.Some? && s.reg.Some? {
        ChunkKeepsStory(s, step.b);
        SameStoryKeeps(s, CommitChunk(s, step.b, s.bfs[step.b].phase.work.value));
      }
    }
  }

  lemma OtherStepsAreElsewhere(s: World, step: Step)
    requires step.Capture? || step.Poll? || step.ChunkLock? || step.Crash? || step.Attach? || step.Expire? || step.Leave? || step.LeaveDone? || step.LeaveAbort?
    ensures Elsewhere(s, Next(s, step))
  {
    if step.Leave? || step.LeaveDone? || step.LeaveAbort? { LeavingIsElsewhere(s, step); }
    else if step.Attach? || step.Expire? {}
    else { BackfillersAreElsewhere(s, step); }
    hide Next;
  }

  lemma LeavingIsElsewhere(s: World, step: Step)
    requires step.Leave? || step.LeaveDone? || step.LeaveAbort?
    ensures Elsewhere(s, Next(s, step))
  {
    hide Elsewhere, StartLeaving, FinishLeaving;
    match step
    case Leave(u) => LeaveIsElsewhere(s, u);
    case LeaveDone(u) => LeaveDoneIsElsewhere(s, u);
    case LeaveAbort(u) => LeaveAbortIsElsewhere(s, u);
  }

  lemma LeaveIsElsewhere(s: World, u: nat)
    ensures Elsewhere(s, Next(s, Leave(u)))
  {
    LeaveMoves(s, u);
    hide StartLeaving;
  }

  lemma LeaveDoneIsElsewhere(s: World, u: nat)
    ensures Elsewhere(s, Next(s, LeaveDone(u)))
  {
  }

  lemma LeaveAbortIsElsewhere(s: World, u: nat)
    ensures Elsewhere(s, Next(s, LeaveAbort(u)))
  {
  }

  lemma BackfillersAreElsewhere(s: World, step: Step)
    requires step.Capture? || step.Poll? || step.ChunkLock? || step.Crash?
    ensures Elsewhere(s, Next(s, step))
  {
    hide Elsewhere, PollBarrier, LockChunk;
    match step
    case Capture(b) => CaptureIsElsewhere(s, b);
    case Poll(b) => PollIsElsewhere(s, b);
    case ChunkLock(b) => LockIsElsewhere(s, b);
    case Crash(b) => CrashIsElsewhere(s, b);
    case _ =>
  }

  lemma CrashIsElsewhere(s: World, b: nat)
    ensures Elsewhere(s, Next(s, Crash(b)))
  {
  }

  lemma CaptureIsElsewhere(s: World, b: nat)
    ensures Elsewhere(s, Next(s, Capture(b)))
  {
  }

  lemma PollIsElsewhere(s: World, b: nat)
    ensures Elsewhere(s, Next(s, Poll(b)))
  {
  }

  lemma LockIsElsewhere(s: World, b: nat)
    ensures Elsewhere(s, Next(s, ChunkLock(b)))
  {
  }

  lemma {:induction false} RunsKeepOutbox(steps: seq<Step>)
    ensures OutboxOk(Exec(steps))
    decreases |steps|
  {
    hide Next, FeedInv;
    if steps != [] {
      var before := steps[..|steps| - 1];
      RunsKeepOutbox(before);
      RunsKeepFeed(before);
      StepKeepsOutbox(Exec(before), steps[|steps| - 1]);
    }
  }

  /** The outbox follows the lifecycle. The committed moves of every task walk the automaton with
      non-decreasing attempts and end at its row; each live event stands for a move, in sequence order;
      and since a registration whose filters are stable, a move has an event exactly if it matches. */
  lemma OutboxFollowsTheLifecycle(steps: seq<Step>, id: Id, e: Event, i: nat, j: nat)
    ensures
      var s := Exec(steps);
      && Lawful(s.story)
      && (id in s.tasks ==> Latest(s.story, id) == Some(FaceOf(s.tasks[id])))
      && (e in s.published && !e.snapshot ==> Telling(s.story, e))
      && (i < j < |s.story| && s.story[i].id == s.story[j].id && s.story[i].event.Some? && s.story[j].event.Some? ==>
            s.story[i].event.value.seqno < s.story[j].event.value.seqno)
      && (i < |s.story| && s.reg.Some? && s.reg.value.stable && s.story[i].t >= s.reg.value.gen ==>
            (s.story[i].event.Some? <==> Matches(s.reg.value.filter, s.story[i].after)))
  {
    RunsKeepOutbox(steps);
    var s := Exec(steps);
    assert i < |s.story| ==> Told(s, s.story[i]);
  }
}
