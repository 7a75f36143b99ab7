/** One subscription name under every interleaving of publishing transactions, registrations,
    backfillers, consumers, retention and unsubscribes. Events and locks of two names never meet, so
    one name stands for all. `Exec` runs any schedule; a blocked or impossible step changes nothing. */
module Feed {
  import opened Rows

  // -------------------------------------------------------------------------------------- tables

  /** A row of `fronta.events`. `gen` (the registration it was published under) and `snapshot`
      (inserted by a backfill) are history, not columns. */
  datatype Event = Event(seqno: nat, gen: nat, id: Id, face: Face, snapshot: bool)

  datatype Filter = Filter(states: set<State>, types: Option<set<string>>)

  predicate TypeMatches(f: Filter, typ: string) {
    f.types.None? || typ in f.types.value
  }

  predicate Matches(f: Filter, face: Face) {
    face.state in f.states && TypeMatches(f, face.typ)
  }

  /** Pending states map to the last task id already projected. */
  datatype Marker = Marker(since: Option<Time>, pending: map<State, Id>)

  /** A row of `fronta.subscriptions`. Generations are drawn from the logical clock, so a generation
      is also the moment its registration committed. `backfills`, `since` and `stable` (filters never
      changed) are history. */
  datatype Reg = Reg(gen: nat, filter: Filter, marker: Option<Marker>, backfills: bool, since: Option<Time>, stable: bool)

  /** The exclusive holder of the subscription row: a chunk (NO KEY UPDATE) or an unsubscribe (FOR UPDATE).
      Publishers and pulls hold KEY SHARE, which conflicts with the latter only. */
  datatype Lock = Free | ByChunk(b: nat) | ByLeave(u: nat)

  // ------------------------------------------------------------------------------------ processes

  /** What the current statement of a transaction sees of the registration: none open, or its snapshot. */
  datatype View = Closed | Open(reg: Option<Reg>)

  /** One published transition by transaction t, with the event it inserted, if any. */
  datatype Move = Move(t: nat, id: Id, before: Option<Face>, after: Face, event: Option<Event>)

  /** An open transaction, known by the moment it began. `moves` is history. */
  datatype Txn = Txn(view: View, writes: map<Id, Row>, events: set<Event>, shares: bool, pulled: set<nat>, moves: seq<Move>)

  datatype Work = Work(events: seq<Event>, marker: Option<Marker>)

  /** `_backfill`: barrier, then chunks. */
  datatype Phase = Registered | Waiting(captured: set<nat>) | Scanning | Chunk(work: Option<Work>) | Stopped | Finished

  datatype Backfiller = Backfiller(gen: nat, phase: Phase)

  /** An unsubscribe between its two statements. Its first DELETE waits for the row version of a
      generation it has seen, holds that row deleted, or has matched nothing. */
  datatype Leaver = Asking(gen: nat) | Holding | Unmatched

  datatype Consumer = Consumer(gen: nat, closed: bool, batch: Option<nat>)

  /** `published`, `acked` (with the acknowledging feed's generation), `expired`, `dropped` (removed with
      their registration), `strayed` (removed by an unsubscribe that found no registration) and `snaps`
      (backfilled events in commit order) and `story` (committed moves) record history. */
  datatype World = World(
    tasks: map<Id, Row>, nextId: Id, reg: Option<Reg>, backlog: set<Event>, lock: Lock,
    txns: map<nat, Txn>, bfs: map<nat, Backfiller>, feeds: map<nat, Consumer>, leaving: map<nat, Leaver>,
    clock: nat, nextSeq: nat,
    published: set<Event>, acked: set<(nat, Event)>, expired: set<Event>, dropped: set<Event>, strayed: set<Event>,
    snaps: seq<Event>, story: seq<Move>)

  const Start := World(map[], 1, None, {}, Free, map[], map[], map[], map[], 0, 0, {}, {}, {}, {}, {}, [], [])

  datatype Step =
    | Begin
    | Look(t: nat)
    | Write(t: nat, id: Id, op: Op)
    | Commit(t: nat)
    | Abort(t: nat)
    | Register(b: nat, filter: Filter, backfill: Option<Option<Time>>)
    | Capture(b: nat)
    | Poll(b: nat)
    | ChunkLock(b: nat)
    | ChunkScan(b: nat, ids: seq<Id>, limit: nat)
    | ChunkCommit(b: nat)
    | Crash(b: nat)
    | Attach(c: nat, b: nat)
    | Pull(c: nat, seqnos: set<nat>, size: nat)
    | Ack(c: nat)
    | Rollback(c: nat)
    | Expire(seqnos: set<nat>)
    | PurgeTask(id: Id)
    | Leave(u: nat)
    | LeaveDone(u: nat)
    | LeaveAbort(u: nat)

  // --------------------------------------------------------------------------------- transactions

  function SetTxn(s: World, t: nat, x: Txn): World { s.(txns := s.txns[t := x]) }

  predicate LockedByOther(s: World, t: nat, id: Id) {
    exists u | u in s.txns :: u != t && id in s.txns[u].writes
  }

  function Found(s: World, x: Txn, id: Id): Option<Row> {
    if id in x.writes then Some(x.writes[id]) else if id in s.tasks then Some(s.tasks[id]) else None
  }

  /** _PUBLISHED: the registration in the statement's snapshot matches, still exists and still matches. */
  predicate Publishable(s: World, x: Txn, face: Face) {
    && x.view.Open? && x.view.reg.Some? && Matches(x.view.reg.value.filter, face)
    && s.reg.Some? && s.reg.value.gen == x.view.reg.value.gen && Matches(s.reg.value.filter, face)
  }

  /** The row a statement writes for this id, if it matches and is not locked by another transaction. */
  function NewRow(s: World, t: nat, id: Id, op: Op): Option<Row>
    requires t in s.txns
  {
    var e := Apply(op, Found(s, s.txns[t], id));
    if e.Wrote? && s.txns[t].view.Open? && !LockedByOther(s, t, id) && (op.Insert? ==> id == s.nextId) then Some(e.row) else None
  }

  predicate Emits(s: World, t: nat, op: Op, row: Row)
    requires t in s.txns
  {
    Publishes(op, row) && Publishable(s, s.txns[t], FaceOf(row))
  }

  function EventFor(s: World, id: Id, row: Row): Event
    requires s.reg.Some?
  {
    Event(s.nextSeq, s.reg.value.gen, id, FaceOf(row), false)
  }

  function FaceIn(s: World, x: Txn, id: Id): Option<Face> {
    var found := Found(s, x, id);
    if found.Some? then Some(FaceOf(found.value)) else None
  }

  function MoveFor(s: World, t: nat, id: Id, row: Row, event: Option<Event>): Move
    requires t in s.txns
  {
    Move(t, id, FaceIn(s, s.txns[t], id), FaceOf(row), event)
  }

  function Buffered(s: World, t: nat, id: Id, op: Op, row: Row): Txn
    requires t in s.txns
  {
    var x := s.txns[t].(writes := s.txns[t].writes[id := row]);
    if Emits(s, t, op, row) then
      x.(events := x.events + {EventFor(s, id, row)}, shares := true, moves := x.moves + [MoveFor(s, t, id, row, Some(EventFor(s, id, row)))])
    else if Publishes(op, row) then x.(moves := x.moves + [MoveFor(s, t, id, row, None)])
    else x
  }

  /** One row of one statement: the write and, in the same statement, its event. Publishing takes KEY
      SHARE on the registration, so it waits for an unsubscribe that holds the row. */
  function WriteRow(s: World, t: nat, id: Id, op: Op): World
    requires t in s.txns
  {
    var row := NewRow(s, t, id, op);
    if row.None? || (Emits(s, t, op, row.value) && s.lock.ByLeave?) then s
    else
      s.(txns := s.txns[t := Buffered(s, t, id, op, row.value)],
         nextId := if op.Insert? then s.nextId + 1 else s.nextId,
         nextSeq := if Emits(s, t, op, row.value) then s.nextSeq + 1 else s.nextSeq)
  }

  function Ended(s: World, t: nat): World {
    s.(txns := s.txns - {t})
  }

  function CommitTxn(s: World, t: nat): World
    requires t in s.txns
  {
    var x := s.txns[t];
    Ended(s, t).(tasks := s.tasks + x.writes, backlog := s.backlog + x.events, published := s.published + x.events,
                 story := s.story + x.moves)
  }

  // ---------------------------------------------------------------------- registration and backfill

  predicate IsBatch(s: World, t: nat) {
    exists c | c in s.feeds :: s.feeds[c].batch == Some(t)
  }

  function Fresh(states: set<State>, since: Option<Time>): Marker {
    Marker(since, map st | st in states :: 0)
  }

  function RegisterName(s: World, b: nat, filter: Filter, backfill: Option<Option<Time>>): World {
    if b in s.bfs || !s.lock.Free? then s
    else
      var reg :=
        if s.reg.None? then
          Reg(s.clock, filter, if backfill.Some? then Some(Fresh(filter.states, backfill.value)) else None,
              backfill.Some?, if backfill.Some? then backfill.value else None, true)
        else s.reg.value.(filter := filter, stable := s.reg.value.stable && s.reg.value.filter == filter);
      s.(reg := Some(reg), clock := s.clock + 1,
         bfs := s.bfs[b := Backfiller(reg.gen, if reg.marker.None? then Finished else Registered)])
  }

  function SetPhase(s: World, b: nat, p: Phase): World
    requires b in s.bfs
  {
    s.(bfs := s.bfs[b := s.bfs[b].(phase := p)])
  }

  predicate Replaced(s: World, gen: nat) {
    s.reg.None? || s.reg.value.gen != gen
  }

  function PollBarrier(s: World, b: nat): World
    requires b in s.bfs && s.bfs[b].phase.Waiting?
  {
    if s.bfs[b].phase.captured !! s.txns.Keys then SetPhase(s, b, Scanning)
    else if Replaced(s, s.bfs[b].gen) then SetPhase(s, b, Stopped)
    else s
  }

  function LockChunk(s: World, b: nat): World
    requires b in s.bfs
  {
    if Replaced(s, s.bfs[b].gen) then SetPhase(s, b, Stopped)
    else if s.reg.value.marker.None? then SetPhase(s, b, Finished)
    else SetPhase(s, b, Chunk(None)).(lock := ByChunk(b))
  }

  /** `min(pending)`: the first state by name. */
  function FirstPending(pending: map<State, Id>): State
    requires pending != map[]
    ensures FirstPending(pending) in pending
  {
    if Cancelled in pending then Cancelled
    else if Failed in pending then Failed
    else if Queued in pending then Queued
    else if Running in pending then Running
    else
      OneOfFive(pending);
      Succeeded
  }

  lemma OneOfFive(pending: map<State, Id>)
    requires Cancelled !in pending && Failed !in pending && Queued !in pending && Running !in pending && pending != map[]
    ensures Succeeded in pending
  {
    if Succeeded !in pending {
      forall st ensures st !in pending {
        match st { case Queued => case Running => case Succeeded => case Failed => case Cancelled => }
      }
      assert false;
    }
  }

  predicate Since(row: Row, since: Option<Time>) {
    row.state.Terminal() && since.Some? ==> row.finishedAt.Some? && row.finishedAt.value >= since.value
  }

  predicate Eligible(s: World, reg: Reg, state: State, after: Id, since: Option<Time>, id: Id) {
    && id in s.tasks && id > after && s.tasks[id].state == state
    && TypeMatches(reg.filter, s.tasks[id].typ) && Since(s.tasks[id], since)
  }

  /** ORDER BY id LIMIT n over the committed rows. */
  ghost predicate IsChunk(s: World, reg: Reg, state: State, after: Id, since: Option<Time>, ids: seq<Id>, limit: nat) {
    && |ids| <= limit
    && (forall i, j | 0 <= i < j < |ids| :: ids[i] < ids[j])
    && (forall i | 0 <= i < |ids| :: Eligible(s, reg, state, after, since, ids[i]))
    && (forall id | Eligible(s, reg, state, after, since, id) && id !in ids :: |ids| == limit && forall i | 0 <= i < |ids| :: ids[i] < id)
  }

  function Snapshots(s: World, gen: nat, ids: seq<Id>): seq<Event>
    requires forall i | 0 <= i < |ids| :: ids[i] in s.tasks
  {
    seq(|ids|, i requires 0 <= i < |ids| => Event(s.nextSeq + i, gen, ids[i], FaceOf(s.tasks[ids[i]]), true))
  }

  function Advanced(m: Marker, state: State, ids: seq<Id>, limit: nat): Option<Marker>
    requires |ids| <= limit && limit >= 1
  {
    var pending := if |ids| < limit then m.pending - {state} else m.pending[state := ids[|ids| - 1]];
    if pending == map[] then None else Some(m.(pending := pending))
  }

  /** The rows of the scan are exactly the next chunk; with no state pending there is nothing to scan. */
  ghost predicate Scans(s: World, reg: Reg, m: Marker, ids: seq<Id>, limit: nat) {
    if m.pending == map[] then ids == []
    else
      var state := FirstPending(m.pending);
      limit >= 1 && IsChunk(s, reg, state, m.pending[state], m.since, ids, limit)
  }

  ghost function Project(s: World, reg: Reg, m: Marker, ids: seq<Id>, limit: nat): (w: Work)
    requires Scans(s, reg, m, ids, limit)
    ensures |w.events| == |ids|
    ensures forall i | 0 <= i < |ids| ::
      ids[i] in s.tasks && w.events[i] == Event(s.nextSeq + i, reg.gen, ids[i], FaceOf(s.tasks[ids[i]]), true)
  {
    if m.pending == map[] then Work([], None)
    else Work(Snapshots(s, reg.gen, ids), Advanced(m, FirstPending(m.pending), ids, limit))
  }

  ghost function ScanChunk(s: World, b: nat, ids: seq<Id>, limit: nat): World
    requires b in s.bfs
  {
    if s.reg.None? || s.reg.value.marker.None? || !Scans(s, s.reg.value, s.reg.value.marker.value, ids, limit) then s
    else
      SetPhase(s, b, Chunk(Some(Project(s, s.reg.value, s.reg.value.marker.value, ids, limit)))).(nextSeq := s.nextSeq + |ids|)
  }

  function CommitChunk(s: World, b: nat, work: Work): World
    requires b in s.bfs && s.reg.Some?
  {
    var events := set e | e in work.events;
    SetPhase(s, b, if work.marker.None? then Finished else Scanning)
    .(reg := Some(s.reg.value.(marker := work.marker)), lock := Free,
      backlog := s.backlog + events, published := s.published + events, snaps := s.snaps + work.events)
  }

  // ------------------------------------------------------------------------------------- delivery

  predicate Pulled(s: World, n: nat) {
    exists t | t in s.txns :: n in s.txns[t].pulled
  }

  predicate Available(s: World, e: Event) {
    e in s.backlog && !Pulled(s, e.seqno)
  }

  /** ORDER BY seq LIMIT n FOR UPDATE SKIP LOCKED. */
  ghost predicate IsPull(s: World, seqnos: set<nat>, size: nat) {
    && |seqnos| <= size
    && (forall n | n in seqnos :: exists e :: Available(s, e) && e.seqno == n)
    && (forall e | Available(s, e) && e.seqno !in seqnos :: |seqnos| == size && forall n | n in seqnos :: n < e.seqno)
  }

  ghost function PullBatch(s: World, c: nat, seqnos: set<nat>, size: nat): World
    requires c in s.feeds
  {
    var f := s.feeds[c];
    if f.closed || f.batch.Some? || s.lock.ByLeave? then s
    else if Replaced(s, f.gen) then s.(feeds := s.feeds[c := f.(closed := true)])
    else if seqnos == {} || !IsPull(s, seqnos, size) then s
    else
      s.(txns := s.txns[s.clock := Txn(Closed, map[], {}, true, seqnos, [])], clock := s.clock + 1,
         feeds := s.feeds[c := f.(batch := Some(s.clock))])
  }

  function PulledEvents(s: World, t: nat): set<Event>
    requires t in s.txns
  {
    set e | e in s.backlog && e.seqno in s.txns[t].pulled
  }

  function LeaveBatch(s: World, c: nat): World
    requires c in s.feeds
  {
    s.(feeds := s.feeds[c := s.feeds[c].(batch := None)])
  }

  function AckBatch(s: World, c: nat, t: nat): World
    requires c in s.feeds && t in s.txns
  {
    var mine := PulledEvents(s, t);
    var s1 := LeaveBatch(CommitTxn(s, t), c);
    s1.(backlog := s1.backlog - mine, acked := s.acked + (set e | e in mine :: (s.feeds[c].gen, e)))
  }

  // ---------------------------------------------------------------------------------- unsubscribing

  function SetLeaver(s: World, u: nat, leaver: Leaver): World { s.(leaving := s.leaving[u := leaver]) }

  /** The row can be deleted at once: nobody holds a lock on it. */
  predicate Unlocked(s: World) { s.lock.Free? && forall t | t in s.txns :: !s.txns[t].shares }

  /** The first DELETE reaches for the row it saw. If that one is gone by now, so is the match: a row
      inserted since is not in the statement's snapshot. */
  function TakeRow(s: World, u: nat, gen: nat): World {
    if Replaced(s, gen) then SetLeaver(s, u, Unmatched)
    else if Unlocked(s) then SetLeaver(s, u, Holding).(lock := ByLeave(u))
    else SetLeaver(s, u, Asking(gen))
  }

  /** The call, or a waiting call that tries again. */
  function StartLeaving(s: World, u: nat): World {
    if u in s.leaving then if s.leaving[u].Asking? then TakeRow(s, u, s.leaving[u].gen) else s
    else if s.reg.None? then SetLeaver(s, u, Unmatched)
    else TakeRow(s, u, s.reg.value.gen)
  }

  /** The second DELETE and the commit. */
  function FinishLeaving(s: World, u: nat): World
    requires u in s.leaving
  {
    var s1 := s.(leaving := s.leaving - {u}, backlog := {});
    match s.leaving[u]
    case Asking(_) => s
    case Holding => s1.(reg := None, lock := Free, dropped := s.dropped + s.backlog)
    case Unmatched =>
      if forall t | t in s.txns :: s.txns[t].pulled == {} then s1.(strayed := s.strayed + s.backlog) else s
  }

  // ------------------------------------------------------------------------------------------ steps

  ghost function Next(s: World, step: Step): World {
    match step
    case Begin => s.(txns := s.txns[s.clock := Txn(Closed, map[], {}, false, {}, [])], clock := s.clock + 1)
    case Look(t) => if t in s.txns then SetTxn(s, t, s.txns[t].(view := Open(s.reg))) else s
    case Write(t, id, op) => if t in s.txns then WriteRow(s, t, id, op) else s
    case Commit(t) => if t in s.txns && !IsBatch(s, t) then CommitTxn(s, t) else s
    case Abort(t) => if t in s.txns && !IsBatch(s, t) then Ended(s, t) else s
    case Register(b, filter, backfill) => RegisterName(s, b, filter, backfill)
    case Capture(b) => if b in s.bfs && s.bfs[b].phase.Registered? then SetPhase(s, b, Waiting(s.txns.Keys)) else s
    case Poll(b) => if b in s.bfs && s.bfs[b].phase.Waiting? then PollBarrier(s, b) else s
    case ChunkLock(b) => if b in s.bfs && s.bfs[b].phase.Scanning? && s.lock.Free? then LockChunk(s, b) else s
    case ChunkScan(b, ids, limit) =>
      if b in s.bfs && s.bfs[b].phase.Chunk? && s.bfs[b].phase.work.None? then ScanChunk(s, b, ids, limit) else s
    case ChunkCommit(b) =>
      if b in s.bfs && s.bfs[b].phase.Chunk? && s.bfs[b].phase.work.Some? && s.reg.Some? then
        CommitChunk(s, b, s.bfs[b].phase.work.value) else s
    case Crash(b) =>
      if b in s.bfs then SetPhase(s, b, Stopped).(lock := if s.lock == ByChunk(b) then Free else s.lock) else s
    case Attach(c, b) =>
      if c !in s.feeds && b in s.bfs && (s.bfs[b].phase.Finished? || s.bfs[b].phase.Stopped?) then
        s.(feeds := s.feeds[c := Consumer(s.bfs[b].gen, s.bfs[b].phase.Stopped?, None)]) else s
    case Pull(c, seqnos, size) => if c in s.feeds then PullBatch(s, c, seqnos, size) else s
    case Ack(c) =>
      if c in s.feeds && s.feeds[c].batch.Some? && s.feeds[c].batch.value in s.txns then AckBatch(s, c, s.feeds[c].batch.value) else s
    case Rollback(c) =>
      if c in s.feeds && s.feeds[c].batch.Some? then LeaveBatch(Ended(s, s.feeds[c].batch.value), c) else s
    case Expire(seqnos) =>
      var gone := set e | e in s.backlog && e.seqno in seqnos && !Pulled(s, e.seqno);
      s.(backlog := s.backlog - gone, expired := s.expired + gone)
    case PurgeTask(id) =>
      if id in s.tasks && s.tasks[id].state.Terminal() && !LockedByOther(s, s.clock, id) then s.(tasks := s.tasks - {id}) else s
    case Leave(u) => StartLeaving(s, u)
    case LeaveDone(u) => if u in s.leaving then FinishLeaving(s, u) else s
    case LeaveAbort(u) =>
      if u in s.leaving then s.(leaving := s.leaving - {u}, lock := if s.lock == ByLeave(u) then Free else s.lock) else s
  }

  ghost function Exec(steps: seq<Step>): World
    decreases |steps|
  {
    if steps == [] then Start else Next(Exec(steps[..|steps| - 1]), steps[|steps| - 1])
  }
}
