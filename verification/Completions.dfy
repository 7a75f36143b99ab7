/** The coalescing completion batcher: every submitted outcome is written at most once, in order,
    and answered exactly once. */
module Completions {
  import opened Rows

  const BATCH_LIMIT := 256

  datatype Completion = Completion(id: nat, token: nat, kind: Kind, data: Option<string>)

  /** A queued outcome with the number of the future its controller awaits. */
  datatype Entry = Entry(future: nat, job: Completion)

  datatype Outcome = Answered(state: Option<State>) | Raised | Abandoned

  datatype Reply = InFlight | Applied(states: map<nat, State>) | Failed | Cut

  /** One call of `write`: the outcomes it was given and what came of it. */
  datatype Write = Write(jobs: seq<Entry>, reply: Reply)

  datatype Runner = NoTask | Scheduled | Writing | Ended

  /** `done` holds the futures that are done. `submitted` and `writes` are history. */
  datatype Batcher = Batcher(
    submitted: seq<Completion>, pending: seq<Entry>, batch: seq<Entry>, done: map<nat, Outcome>,
    runner: Runner, writes: seq<Write>)

  const Fresh := Batcher([], [], [], map[], NoTask, [])

  datatype Step =
    | Submit(job: Completion)
    | Start
    | WriteReturns(states: map<nat, State>)
    | WriteRaises
    | ControllerCancelled(future: nat)
    | Close

  function Lookup(states: map<nat, State>, id: nat): Option<State> {
    if id in states then Some(states[id]) else None
  }

  /** How many entries the next batch takes: up to the limit, stopping before a repeated id. */
  function BatchLength(queue: seq<Entry>, taken: nat): nat
    requires taken <= |queue|
    decreases |queue| - taken
  {
    if taken < |queue| && taken < BATCH_LIMIT && !HasId(queue[..taken], queue[taken].job.id)
    then BatchLength(queue, taken + 1)
    else taken
  }

  predicate HasId(entries: seq<Entry>, id: nat) { exists k :: 0 <= k < |entries| && entries[k].job.id == id }

  predicate DistinctIds(entries: seq<Entry>) {
    forall i, j :: 0 <= i < j < |entries| ==> entries[i].job.id != entries[j].job.id
  }

  lemma {:induction false} BatchShape(queue: seq<Entry>, taken: nat)
    requires taken <= |queue| && taken <= BATCH_LIMIT && DistinctIds(queue[..taken])
    ensures
      var n := BatchLength(queue, taken);
      && taken <= n <= |queue| && n <= BATCH_LIMIT
      && DistinctIds(queue[..n])
      && (n < |queue| && n < BATCH_LIMIT ==> HasId(queue[..n], queue[n].job.id))
      && (taken == 0 < |queue| ==> n > 0)
    decreases |queue| - taken
  {
    if taken < |queue| && taken < BATCH_LIMIT && !HasId(queue[..taken], queue[taken].job.id) {
      assert forall k :: 0 <= k < taken ==> queue[..taken][k] == queue[k];
      BatchShape(queue, taken + 1);
    }
  }

  /** The outcomes whose controller still waits when the batch is taken. */
  function Active(entries: seq<Entry>, done: map<nat, Outcome>): seq<Entry> {
    if entries == [] then []
    else
      var rest := Active(entries[1..], done);
      if entries[0].future in done && done[entries[0].future].Abandoned? then rest else [entries[0]] + rest
  }

  function Verdict(reply: Reply, e: Entry): Outcome
    requires !reply.InFlight?
  {
    match reply
    case Applied(states) => Answered(Lookup(states, e.job.id))
    case Failed => Raised
    case Cut => Abandoned
  }

  function Settle(done: map<nat, Outcome>, entries: seq<Entry>, reply: Reply): map<nat, Outcome>
    requires !reply.InFlight?
    decreases |entries|
  {
    if entries == [] then done
    else
      var e := entries[0];
      Settle(if e.future in done then done else done[e.future := Verdict(reply, e)], entries[1..], reply)
  }

  function Closed(writes: seq<Write>, reply: Reply): seq<Write> {
    if writes == [] then [] else writes[|writes| - 1 := writes[|writes| - 1].(reply := reply)]
  }

  /** The next batch goes to `write` without the outcomes whose controllers are cancelled. */
  function Opened(b: Batcher, n: nat): Batcher
    requires n <= |b.pending|
  {
    var batch := b.pending[..n];
    Batcher(b.submitted, b.pending[n..], batch, b.done, Writing, b.writes + [Write(Active(batch, b.done), InFlight)])
  }

  /** The coroutine at its loop head with an empty batch. */
  function Dispatch(b: Batcher): Batcher
    decreases |b.pending|
  {
    if b.pending == [] then b.(batch := [], runner := Ended)
    else
      BatchShape(b.pending, 0);
      var n := BatchLength(b.pending, 0);
      if Active(b.pending[..n], b.done) == [] then Dispatch(b.(batch := [], pending := b.pending[n..]))
      else Opened(b, n)
  }

  /** The except clause: whatever is still waiting gets the exception or the cancellation. */
  function FailAll(b: Batcher, reply: Reply): Batcher
    requires !reply.InFlight?
  {
    Batcher(b.submitted, [], [], Settle(b.done, b.batch + b.pending, reply), Ended, Closed(b.writes, reply))
  }

  function Next(b: Batcher, step: Step): Batcher {
    match step
    case Submit(job) =>
      b.(submitted := b.submitted + [job], pending := b.pending + [Entry(|b.submitted|, job)],
         runner := if b.runner.NoTask? || b.runner.Ended? then Scheduled else b.runner)
    case Start => if b.runner.Scheduled? then Dispatch(b) else b
    case WriteReturns(states) =>
      if !b.runner.Writing? then b
      else Dispatch(b.(done := Settle(b.done, b.batch, Applied(states)), batch := [],
                       writes := Closed(b.writes, Applied(states))))
    case WriteRaises => if b.runner.Writing? then FailAll(b, Reply.Failed) else b
    case ControllerCancelled(k) =>
      if k < |b.submitted| && k !in b.done then b.(done := b.done[k := Abandoned]) else b
    case Close =>
      // a task cancelled before its first step never enters its try block
      if b.runner.Writing? then FailAll(b, Cut)
      else if b.runner.Scheduled? then b.(runner := Ended)
      else b
  }

  function Exec(steps: seq<Step>): Batcher
    decreases |steps|
  {
    if steps == [] then Fresh else Next(Exec(steps[..|steps| - 1]), steps[|steps| - 1])
  }

  // --------------------------------------------------------------------------- the invariants

  predicate Rising(entries: seq<Entry>) {
    forall i, j :: 0 <= i < j < |entries| ==> entries[i].future < entries[j].future
  }

  predicate Own(b: Batcher, e: Entry) { e.future < |b.submitted| && b.submitted[e.future] == e.job }

  function Futures(entries: seq<Entry>): set<nat> { set e | e in entries :: e.future }

  function Queue(b: Batcher): seq<Entry> { b.batch + b.pending }

  predicate AllOwn(b: Batcher) { forall e | e in Queue(b) :: Own(b, e) }

  ghost predicate NoneLost(b: Batcher) {
    && (forall k: nat | k < |b.submitted| && k !in b.done :: k in Futures(Queue(b)))
    && (forall k | k in b.done :: k < |b.submitted|)
  }

  /** Unresolved outcomes are exactly in the queue, oldest first, each under its own future. */
  ghost predicate QueueOk(b: Batcher) { Rising(Queue(b)) && AllOwn(b) && NoneLost(b) }

  predicate GoodWrite(b: Batcher, w: Write) {
    && 1 <= |w.jobs| <= BATCH_LIMIT
    && DistinctIds(w.jobs)
    && Rising(w.jobs)
    && (forall e | e in w.jobs :: Own(b, e))
  }

  predicate Before(xs: seq<Entry>, ys: seq<Entry>) {
    forall x, y | x in xs && y in ys :: x.future < y.future
  }

  predicate InOrder(writes: seq<Write>) {
    forall i, j :: 0 <= i < j < |writes| ==> Before(writes[i].jobs, writes[j].jobs)
  }

  predicate AllGood(b: Batcher) { forall i | 0 <= i < |b.writes| :: GoodWrite(b, b.writes[i]) }

  ghost predicate AllBefore(writes: seq<Write>, xs: seq<Entry>) {
    forall i | 0 <= i < |writes| :: Before(writes[i].jobs, xs)
  }

  /** Only the write of the batch in flight is open. */
  ghost predicate InFlightOk(b: Batcher) {
    && (forall i | 0 <= i < |b.writes| :: b.writes[i].reply.InFlight? <==> b.runner.Writing? && i == |b.writes| - 1)
    && (b.runner.Writing? ==> |b.writes| > 0 && forall e | e in b.writes[|b.writes| - 1].jobs :: e in b.batch)
    && (!b.runner.Writing? ==> b.batch == [])
  }

  /** Writes follow submission order, so outcomes of one id are written in the order submitted. */
  ghost predicate WritesOk(b: Batcher) {
    && AllGood(b)
    && InOrder(b.writes)
    && AllBefore(b.writes, b.pending)
    && InFlightOk(b)
    && (b.runner.Writing? ==> AllBefore(b.writes[..|b.writes| - 1], b.batch))
  }

  predicate AnswersTo(done: map<nat, Outcome>, w: Write, e: Entry)
    requires !w.reply.InFlight?
  {
    e.future in done && (done[e.future].Abandoned? || done[e.future] == Verdict(w.reply, e))
  }

  ghost predicate Explained(b: Batcher, k: nat) {
    k in b.done && b.done[k].Answered? ==>
      exists i, e :: 0 <= i < |b.writes| && e in b.writes[i].jobs && e.future == k
        && b.writes[i].reply.Applied? && b.done[k] == Verdict(b.writes[i].reply, e)
  }

  ghost predicate WritesAnswered(b: Batcher) {
    forall i, e | 0 <= i < |b.writes| && e in b.writes[i].jobs && !b.writes[i].reply.InFlight? ::
      AnswersTo(b.done, b.writes[i], e)
  }

  /** What is in flight but was left out of the write is already abandoned. */
  ghost predicate LeftOut(b: Batcher) {
    b.runner.Writing? ==>
      && |b.writes| > 0
      && forall e | e in b.batch && e !in b.writes[|b.writes| - 1].jobs :: e.future in b.done && b.done[e.future].Abandoned?
  }

  ghost predicate QueueUnanswered(b: Batcher) {
    forall e | e in Queue(b) :: e.future in b.done ==> b.done[e.future].Abandoned?
  }

  ghost predicate AnswersOk(b: Batcher) {
    && WritesAnswered(b)
    && (forall k | k in b.done :: Explained(b, k))
    && LeftOut(b)
    && QueueUnanswered(b)
  }

  ghost predicate Inv(b: Batcher) { QueueOk(b) && WritesOk(b) && AnswersOk(b) }
}
