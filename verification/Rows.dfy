/** One row of `fronta.tasks` and what every SQL statement of the store does to it.
    A statement either matches the row and writes it, deletes it, or matches nothing. */
module Rows {
  type Id = nat
  type Token = nat
  type Worker = nat
  type Time = real

  datatype Option<+T> = None | Some(value: T)

  datatype State = Queued | Running | Succeeded | Failed | Cancelled
  {
    predicate Terminal() { Succeeded? || Failed? || Cancelled? }
    predicate Active() { Queued? || Running? }
  }

  datatype Kind = Succeed | Fail | FailFinal | Cancel | Release

  /** The error column: what the worker stored, or what the reaper writes. */
  datatype Fault = Reported(data: Option<string>) | LeaseExpired(worker: Option<Worker>, attempt: nat)

  datatype Row = Row(
    typ: string, key: Option<string>, state: State,
    attempt: nat, failures: nat, maxAttempts: nat,
    token: Option<Token>, leaseUntil: Option<Time>, worker: Option<Worker>,
    cancelRequestedAt: Option<Time>, runAt: Time, finishedAt: Option<Time>,
    result: Option<string>, error: Option<Fault>, progress: Option<string>)

  /** `at` is the statement's now(), `retryAt` the jittered backoff instant it draws. */
  datatype Op =
    | Insert(typ: string, key: Option<string>, maxAttempts: nat, runAt: Time)
    | Claim(token: Token, worker: Worker, at: Time, leaseUntil: Time)
    | Beat(token: Token, leaseUntil: Time)
    | Progress(token: Token, value: string)
    | Complete(token: Token, kind: Kind, data: Option<string>, at: Time, retryAt: Time)
    | RequestCancel(at: Time)
    | Reap(at: Time, retryAt: Time)
    | Requeue(at: Time)
    | Purge(before: Time)

  datatype Effect = Rejected | Wrote(row: Row) | Deleted

  predicate Holds(r: Row, token: Token) {
    r.state.Running? && r.token == Some(token)
  }

  function Inserted(op: Op): Row
    requires op.Insert?
  {
    Row(op.typ, op.key, Queued, 0, 0, op.maxAttempts, None, None, None, None, op.runAt, None, None, None, None)
  }

  /** The CASE of complete.sql. */
  function CompletedState(r: Row, kind: Kind): State {
    match kind
    case Succeed => Succeeded
    case FailFinal => Failed
    case Cancel => Cancelled
    case Release => if r.cancelRequestedAt.None? then Queued else Cancelled
    case Fail =>
      if r.cancelRequestedAt.Some? then Cancelled
      else if r.failures + 1 < r.maxAttempts then Queued else Failed
  }

  function Completed(r: Row, op: Op): Row
    requires op.Complete?
  {
    var retries := op.kind.Fail? && r.cancelRequestedAt.None? && r.failures + 1 < r.maxAttempts;
    var finishes := op.kind.Succeed? || op.kind.FailFinal? || op.kind.Cancel? || r.cancelRequestedAt.Some?
                    || (op.kind.Fail? && r.failures + 1 >= r.maxAttempts);
    r.(state := CompletedState(r, op.kind),
       result := if op.kind.Succeed? then op.data else r.result,
       error := if op.kind.Fail? || op.kind.FailFinal? then Some(Reported(op.data)) else r.error,
       failures := if op.kind.Fail? || op.kind.FailFinal? then r.failures + 1 else r.failures,
       runAt := if op.kind.Release? then op.at else if retries then op.retryAt else r.runAt,
       finishedAt := if finishes then Some(op.at) else None,
       token := None, leaseUntil := None)
  }

  function Reaped(r: Row, op: Op): Row
    requires op.Reap?
  {
    var charged := r.cancelRequestedAt.None?;
    var retries := charged && r.failures + 1 < r.maxAttempts;
    r.(token := None, leaseUntil := None,
       failures := if charged then r.failures + 1 else r.failures,
       error := if charged then Some(LeaseExpired(r.worker, r.attempt)) else r.error,
       state := if !charged then Cancelled else if retries then Queued else Failed,
       runAt := if retries then op.retryAt else r.runAt,
       finishedAt := if retries then None else Some(op.at))
  }

  function CancelAsked(r: Row, op: Op): Row
    requires op.RequestCancel?
  {
    r.(cancelRequestedAt := if r.cancelRequestedAt.Some? then r.cancelRequestedAt else Some(op.at),
       state := if r.state.Queued? then Cancelled else r.state,
       finishedAt := if r.state.Queued? then Some(op.at) else r.finishedAt)
  }

  function Apply(op: Op, found: Option<Row>): Effect {
    match (op, found)
    case (Insert(_, _, maxAttempts, _), None) => if maxAttempts >= 1 then Wrote(Inserted(op)) else Rejected
    case (Claim(token, worker, at, leaseUntil), Some(r)) =>
      if r.state.Queued? && r.runAt <= at then
        Wrote(r.(state := Running, attempt := r.attempt + 1, token := Some(token),
                 leaseUntil := Some(leaseUntil), worker := Some(worker), progress := None))
      else Rejected
    case (Beat(token, leaseUntil), Some(r)) =>
      if Holds(r, token) then Wrote(r.(leaseUntil := Some(leaseUntil))) else Rejected
    case (Progress(token, value), Some(r)) =>
      if Holds(r, token) then Wrote(r.(progress := Some(value))) else Rejected
    case (Complete(token, kind, _, _, _), Some(r)) =>
      if Holds(r, token) && (kind.Cancel? ==> r.cancelRequestedAt.Some?) then Wrote(Completed(r, op)) else Rejected
    case (RequestCancel(_), Some(r)) =>
      if r.state.Active() then Wrote(CancelAsked(r, op)) else Rejected
    case (Reap(at, _), Some(r)) =>
      if r.state.Running? && r.leaseUntil.Some? && r.leaseUntil.value < at then Wrote(Reaped(r, op)) else Rejected
    case (Requeue(at), Some(r)) =>
      if r.state.Failed? || r.state.Cancelled? then
        Wrote(r.(state := Queued, runAt := at, failures := 0, cancelRequestedAt := None,
                 finishedAt := None, token := None, leaseUntil := None))
      else Rejected
    case (Purge(before), Some(r)) =>
      if r.state.Terminal() && r.finishedAt.Some? && r.finishedAt.value < before then Deleted else Rejected
    case _ => Rejected
  }

  /** Which statements insert feed events for the row they wrote. */
  predicate Publishes(op: Op, row: Row) {
    match op
    case Insert(_, _, _, _) => true
    case Claim(_, _, _, _) => true
    case Complete(_, _, _, _, _) => true
    case Reap(_, _) => true
    case Requeue(_) => true
    case RequestCancel(_) => row.state.Cancelled?
    case _ => false
  }

  // ---------------------------------------------------------------- what a row always looks like

  /** Token and lease exactly while running, finished_at exactly when terminal, no cancel request
      on a queued row, and a retry left for every active row. */
  predicate Shaped(r: Row) {
    && r.maxAttempts >= 1
    && r.failures <= r.maxAttempts
    && (r.state.Running? <==> r.token.Some?)
    && (r.state.Running? <==> r.leaseUntil.Some?)
    && (r.state.Terminal() <==> r.finishedAt.Some?)
    && (r.state.Queued? ==> r.cancelRequestedAt.None?)
    && (r.state.Active() ==> r.failures < r.maxAttempts)
  }

  /** What an event carries. */
  datatype Face = Face(typ: string, state: State, attempt: nat)

  function FaceOf(r: Row): Face { Face(r.typ, r.state, r.attempt) }

  /** The documented automaton; None is a task that does not exist yet. */
  predicate Edge(before: Option<State>, after: State) {
    match before
    case None => after.Queued?
    case Some(Queued) => after.Running? || after.Cancelled?
    case Some(Running) => !after.Running?
    case Some(Succeeded) => false
    case Some(Failed) => after.Queued?
    case Some(Cancelled) => after.Queued?
  }

  function StateOf(found: Option<Row>): Option<State> {
    if found.Some? then Some(found.value.state) else None
  }

  lemma WriteKeepsShape(op: Op, found: Option<Row>)
    requires found.Some? ==> Shaped(found.value)
    ensures Apply(op, found).Wrote? ==> Shaped(Apply(op, found).row)
  {
  }

  /** A statement publishes exactly when it moves the row along the automaton: it then takes an
      edge, never lowers the attempt count and raises it only by claiming; otherwise the row still
      shows the same type, state and attempt. */
  lemma WritePublishesTheMove(op: Op, found: Option<Row>)
    requires found.Some? ==> Shaped(found.value)
    requires Apply(op, found).Wrote?
    ensures
      var after := Apply(op, found).row;
      && (Publishes(op, after) <==> found.None? || FaceOf(found.value) != FaceOf(after))
      && (Publishes(op, after) ==> Edge(StateOf(found), after.state))
      && (found.Some? ==> after.typ == found.value.typ && after.key == found.value.key
                          && after.attempt == found.value.attempt + (if op.Claim? then 1 else 0))
      && (found.None? ==> op.Insert? && after.attempt == 0)
  {
  }

  /** A write that publishes nothing leaves what a feed could show: type, state, attempt, finish time. */
  lemma QuietWritesShowTheSame(op: Op, found: Option<Row>)
    requires found.Some? ==> Shaped(found.value)
    requires Apply(op, found).Wrote? && !Publishes(op, Apply(op, found).row)
    ensures found.Some? && FaceOf(found.value) == FaceOf(Apply(op, found).row) && found.value.finishedAt == Apply(op, found).row.finishedAt
  {
  }

  /** A flagged running row can only be moved to a terminal state. */
  lemma FlaggedRowsEnd(op: Op, r: Row)
    requires Shaped(r) && r.state.Running? && r.cancelRequestedAt.Some?
    requires Apply(op, Some(r)).Wrote? && Apply(op, Some(r)).row.state != r.state
    ensures Apply(op, Some(r)).row.state.Terminal()
  {
  }
}
