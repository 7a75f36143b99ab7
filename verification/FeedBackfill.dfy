/** The backfill runs once and ends: over all resumers, crashes and rolled-back chunks, a generation
    projects each state's ids in strictly increasing order, and every committed chunk makes progress. */
module FeedBackfill {
  import opened Rows
  import opened Feed
  import opened FeedPurity
  import opened FeedNoGap

  predicate Before(e: Event, f: Event) {
    e.gen == f.gen && e.face.state == f.face.state ==> e.id < f.id
  }

  /** Everything projected so far is at or behind the cursor of its state. */
  ghost predicate Behind(snaps: seq<Event>, reg: Reg) {
    reg.marker.Some? ==>
      forall i | 0 <= i < |snaps| && snaps[i].gen == reg.gen && snaps[i].face.state in reg.marker.value.pending ::
        snaps[i].id <= reg.marker.value.pending[snaps[i].face.state]
  }

  /** Ids on the way up from one cursor to the next. */
  predicate Ascends(w: Work, m: Marker, nextId: Id) {
    var st := if m.pending == map[] then Queued else FirstPending(m.pending);
    && (w.events != [] ==> m.pending != map[])
    && (forall i | 0 <= i < |w.events| :: w.events[i].face.state == st && m.pending[st] < w.events[i].id < nextId)
    && (forall i, j | 0 <= i < j < |w.events| :: w.events[i].id < w.events[j].id)
    && (w.marker.Some? ==> Passes(w, m, st))
  }

  /** The cursor the chunk leaves behind: past its own rows, elsewhere unmoved. */
  predicate Passes(w: Work, m: Marker, st: State)
    requires w.marker.Some?
  {
    var p := w.marker.value.pending;
    && w.marker.value.since == m.since && p != map[]
    && (forall q | q in p :: q in m.pending && (q != st ==> p[q] == m.pending[q]))
    && (forall q | q in m.pending && q != st :: q in p)
    && (st in p ==> w.events != [] && p[st] == w.events[|w.events| - 1].id)
  }

  ghost predicate SnapsOk(s: World) {
    && (forall i, j | 0 <= i < j < |s.snaps| :: Before(s.snaps[i], s.snaps[j]))
    && (forall i | 0 <= i < |s.snaps| :: s.snaps[i].gen < s.clock)
    && (s.reg.Some? ==> Behind(s.snaps, s.reg.value) && CursorsOk(s.reg.value, s.nextId))
    && (forall b | b in s.bfs :: WorkAscends(s, b))
  }

  predicate CursorsOk(reg: Reg, nextId: Id) {
    reg.marker.Some? ==> forall st | st in reg.marker.value.pending :: reg.marker.value.pending[st] < nextId
  }

  predicate WorkAscends(s: World, b: nat)
    requires b in s.bfs
  {
    var p := s.bfs[b].phase;
    p.Chunk? && p.work.Some? && s.reg.Some? && s.reg.value.marker.Some? ==> Ascends(p.work.value, s.reg.value.marker.value, s.nextId)
  }

  /** Steps that leave the registration's marker, the snapshots and the open chunk alone. */
  lemma SnapsStay(s: World, s': World)
    requires SnapsOk(s) && s'.snaps == s.snaps && s'.clock >= s.clock && s'.nextId >= s.nextId
    requires s'.reg.None? || (s.reg.Some? && s'.reg.value.gen == s.reg.value.gen && s'.reg.value.marker == s.reg.value.marker)
    requires forall b | b in s'.bfs && s'.bfs[b].phase.Chunk? && s'.bfs[b].phase.work.Some? :: b in s.bfs && s'.bfs[b] == s.bfs[b]
    ensures SnapsOk(s')
  {
    forall b | b in s'.bfs ensures WorkAscends(s', b) { if b in s.bfs { assert WorkAscends(s, b); } }
  }

  lemma RegisterKeepsSnaps(s: World, b: nat, filter: Filter, backfill: Option<Option<Time>>)
    requires PurityOk(s) && GapOk(s) && SnapsOk(s)
    ensures SnapsOk(RegisterName(s, b, filter, backfill))
  {
    var s' := RegisterName(s, b, filter, backfill);
    if s.reg.Some? { SnapsStay(s, s'); }
    else if s' != s {
      forall d | d in s'.bfs ensures WorkAscends(s', d) { assert d in s.bfs ==> !s.bfs[d].phase.Chunk?; }
    }
  }

  lemma ProjectAscends(s: World, ids: seq<Id>, limit: nat)
    requires GapOk(s) && s.reg.Some? && s.reg.value.marker.Some? && Scans(s, s.reg.value, s.reg.value.marker.value, ids, limit)
    ensures Ascends(Project(s, s.reg.value, s.reg.value.marker.value, ids, limit), s.reg.value.marker.value, s.nextId)
  {
    var reg := s.reg.value;
    var m := reg.marker.value;
    var w := Project(s, reg, m, ids, limit);
    if m.pending != map[] {
      var st := FirstPending(m.pending);
      forall i | 0 <= i < |w.events| ensures w.events[i].face.state == st && m.pending[st] < w.events[i].id < s.nextId {
        assert Eligible(s, reg, st, m.pending[st], m.since, ids[i]);
      }
      assert w.marker == Advanced(m, st, ids, limit);
    }
  }

  lemma ScanKeepsSnaps(s: World, b: nat, ids: seq<Id>, limit: nat)
    requires PurityOk(s) && GapOk(s) && SnapsOk(s) && b in s.bfs && s.bfs[b].phase.Chunk? && s.bfs[b].phase.work.None?
    ensures SnapsOk(ScanChunk(s, b, ids, limit))
  {
    var s' := ScanChunk(s, b, ids, limit);
    if s' != s {
      ProjectAscends(s, ids, limit);
      hide Scans, Project;
      forall d | d in s'.bfs ensures WorkAscends(s', d) { if d != b { assert WorkAscends(s, d); } }
    }
  }

  /** The new snapshots of a chunk follow every older one of their state. */
  lemma SnapsFollow(s: World, b: nat)
    requires PurityOk(s) && SnapsOk(s) && b in s.bfs && s.bfs[b].phase.Chunk? && s.bfs[b].phase.work.Some?
    ensures s.reg.Some?
    ensures var all := s.snaps + s.bfs[b].phase.work.value.events;
      forall i, j | 0 <= i < j < |all| :: Before(all[i], all[j])
  {
    var w := s.bfs[b].phase.work.value;
    assert s.lock == ByChunk(b) && WorkOk(s, b) && WorkAscends(s, b);
    var all := s.snaps + w.events;
    var n := |s.snaps|;
    forall i, j | 0 <= i < j < |all| ensures Before(all[i], all[j]) {
      if j < n { assert Before(s.snaps[i], s.snaps[j]); }
      else {
        assert all[j] == w.events[j - n];
        assert i >= n ==> all[i] == w.events[i - n];
      }
    }
  }

  lemma ChunkKeepsSnaps(s: World, b: nat)
    requires PurityOk(s) && SnapsOk(s) && b in s.bfs && s.bfs[b].phase.Chunk? && s.bfs[b].phase.work.Some? && s.reg.Some?
    ensures SnapsOk(CommitChunk(s, b, s.bfs[b].phase.work.value))
  {
    var w := s.bfs[b].phase.work.value;
    var s' := CommitChunk(s, b, w);
    assert s.lock == ByChunk(b) && WorkOk(s, b) && WorkAscends(s, b);
    SnapsFollow(s, b);
    CommitStaysBehind(s, b);
    forall d | d in s'.bfs ensures WorkAscends(s', d) { if d != b { assert !s.bfs[d].phase.Chunk?; } }
  }

  lemma CommitStaysBehind(s: World, b: nat)
    requires PurityOk(s) && SnapsOk(s) && b in s.bfs && s.bfs[b].phase.Chunk? && s.bfs[b].phase.work.Some? && s.reg.Some?
    ensures
      var s' := CommitChunk(s, b, s.bfs[b].phase.work.value);
      Behind(s'.snaps, s'.reg.value) && CursorsOk(s'.reg.value, s'.nextId)
  {
    var w := s.bfs[b].phase.work.value;
    var s' := CommitChunk(s, b, w);
    assert s.lock == ByChunk(b) && WorkAscends(s, b);
    var m := s.reg.value.marker.value;
    if w.marker.Some? {
      var p := w.marker.value.pending;
      forall i | 0 <= i < |s'.snaps| && s'.snaps[i].gen == s'.reg.value.gen && s'.snaps[i].face.state in p
        ensures s'.snaps[i].id <= p[s'.snaps[i].face.state]
      {
        if i >= |s.snaps| { assert s'.snaps[i] == w.events[i - |s.snaps|]; }
        else { assert s'.snaps[i] == s.snaps[i]; }
      }
    }
  }

  // ------------------------------------------------------------------------------------ progress

  function Left(m: Marker, st: State, bound: Id): nat {
    if st in m.pending && m.pending[st] <= bound then bound - m.pending[st] + 1 else 0
  }

  /** What is left to do: the marker itself, and for each pending state the ids from its cursor up. */
  function Remaining(marker: Option<Marker>, bound: Id): nat {
    match marker
    case None => 0
    case Some(m) =>
      1 + Left(m, Queued, bound) + Left(m, Running, bound) + Left(m, Succeeded, bound) + Left(m, Failed, bound) + Left(m, Cancelled, bound)
  }

  /** The scanned state has less left, the others the same. */
  lemma StateProgress(w: Work, m: Marker, st: State, bound: Id)
    requires w.marker.Some? && Passes(w, m, st) && st in m.pending && m.pending[st] <= bound
    requires forall i | 0 <= i < |w.events| :: m.pending[st] < w.events[i].id <= bound
    ensures Remaining(w.marker, bound) < Remaining(Some(m), bound)
  {
    var n := w.marker.value;
    assert Left(n, st, bound) < Left(m, st, bound);
    assert forall q | q != st :: Left(n, q, bound) == Left(m, q, bound);
    match st { case Queued => case Running => case Succeeded => case Failed => case Cancelled => }
  }

  /** Every committed chunk leaves less to do, and no cursor ever retreats. */
  lemma ChunksMakeProgress(s: World, b: nat, bound: Id)
    requires PurityOk(s) && SnapsOk(s) && b in s.bfs && s.bfs[b].phase.Chunk? && s.bfs[b].phase.work.Some?
    requires s.nextId <= bound + 1
    ensures s.reg.Some? && s.reg.value.marker.Some?
    ensures
      var after := CommitChunk(s, b, s.bfs[b].phase.work.value).reg.value.marker;
      && Remaining(after, bound) < Remaining(s.reg.value.marker, bound)
      && (after.Some? ==> forall st | st in after.value.pending ::
            st in s.reg.value.marker.value.pending && s.reg.value.marker.value.pending[st] <= after.value.pending[st])
  {
    var w := s.bfs[b].phase.work.value;
    assert s.lock == ByChunk(b) && WorkAscends(s, b);
    var m := s.reg.value.marker.value;
    if w.marker.Some? {
      var st := if m.pending == map[] then Queued else FirstPending(m.pending);
      assert m.pending != map[] by { var q :| q in w.marker.value.pending; assert q in m.pending; }
      StateProgress(w, m, st, bound);
    }
  }
}
