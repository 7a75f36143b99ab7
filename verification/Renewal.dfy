/** The real-time bound of the lease renewal loop. Times are reals, scheduling is instantaneous, and
    at most one renewal statement (1000 attempts) is due at a time. One attempt is followed; the other
    attempts of the worker may use up a round's budget. */
module Renewal {
  /** The relations the settings validator and the defaults promise. */
  datatype Settings = Settings(lease: real, heartbeat: real, statementTimeout: real)
  {
    predicate Valid() { 0.0 < heartbeat && 0.0 < statementTimeout && 2.0 * heartbeat <= lease }

    function Interval(): real { heartbeat / 2.0 }

    function RenewTimeout(): real { Min(statementTimeout, Max(0.05, (lease - heartbeat) / 2.0)) }
  }

  function Min(x: real, y: real): real { if x <= y then x else y }

  function Max(x: real, y: real): real { if x <= y then y else x }

  /** What the environment decides about one round: whether the attempt's renewal was requested,
      whether other attempts are due, how long the statement takes, whether its reply confirms the
      renewal, and when the following wait is woken early. */
  datatype Tick = Tick(requested: bool, others: bool, takes: real, confirms: bool, woken: real)

  /** One round of the loop; `renewedAt` and `lost` are the attempt's fields as the round starts. */
  datatype Round = Round(start: real, due: bool, spent: real, confirmed: bool, renewedAt: real, lost: bool)

  function Budget(s: Settings, renewedAt: real, start: real): real {
    Min(s.RenewTimeout(), Max(0.001, renewedAt + s.lease - start))
  }

  /** A round never takes longer than the statement's budget; one that renews the attempt, no longer than
      what is left of its lease, or a millisecond. */
  predicate WithinBudget(s: Settings, r: Round) {
    && 0.0 <= r.spent && r.spent <= s.statementTimeout && r.spent <= Max(0.05, (s.lease - s.heartbeat) / 2.0)
    && (r.due ==> r.spent <= Max(0.001, r.renewedAt + s.lease - r.start))
  }

  predicate Confirmed(r: Round) { r.due && r.confirmed }

  /** What a loop may log about the attempt: an independent account of `_renewals`. */
  predicate Timed(s: Settings, log: seq<Round>) {
    && (forall k | 0 <= k < |log| :: WithinBudget(s, log[k]))
    && (forall k | 0 <= k < |log| ::
          log[k].due <== !log[k].lost && s.Interval() <= log[k].start - log[k].renewedAt < s.lease)
    && (forall k | 0 <= k < |log| - 1 :: Follows(s, log[k], log[k + 1]))
  }

  predicate Follows(s: Settings, r: Round, next: Round) {
    && r.start + r.spent <= next.start <= r.start + Max(s.Interval(), r.spent)
    && next.renewedAt == (if Confirmed(r) then r.start else r.renewedAt)
    && (next.lost ==> r.lost || r.start - r.renewedAt >= s.lease || r.start + r.spent - next.renewedAt >= s.lease)
  }

  /** The attempt's fields and the clock between two rounds. */
  datatype Between = Between(now: real, renewedAt: real, lost: bool)

  predicate Leads(s: Settings, r: Round, b: Between) {
    Follows(s, r, Round(b.now, false, 0.0, false, b.renewedAt, b.lost))
  }

  predicate Sensible(ticks: seq<Tick>) { forall k | 0 <= k < |ticks| :: ticks[k].takes >= 0.0 && ticks[k].woken >= 0.0 }

  /** One turn of the loop: its round, and the state before the next. */
  function Turn(s: Settings, b: Between, tick: Tick): (Round, Between) {
    var clockDue := b.now - b.renewedAt >= s.Interval();
    var expired := b.now - b.renewedAt >= s.lease;
    var due := !b.lost && (tick.requested || clockDue) && !expired;
    var spent :=
      if due then Min(tick.takes, Budget(s, b.renewedAt, b.now))
      else if tick.others then Min(tick.takes, s.RenewTimeout())
      else 0.0;
    var confirmed := due && tick.confirms && tick.takes <= spent;
    var renewedAt := if confirmed then b.now else b.renewedAt;
    var lost := b.lost || (clockDue && expired) || ((due || tick.others) && b.now + spent - renewedAt >= s.lease);
    (Round(b.now, due, spent, confirmed, b.renewedAt, b.lost),
     Between(b.now + spent + Min(tick.woken, Max(0.0, s.Interval() - spent)), renewedAt, lost))
  }

  /** The log of a run of the loop. */
  function Rounds(s: Settings, b: Between, ticks: seq<Tick>): seq<Round>
    decreases |ticks|
  {
    if ticks == [] then [] else [Turn(s, b, ticks[0]).0] + Rounds(s, Turn(s, b, ticks[0]).1, ticks[1..])
  }

  /** A renewal is confirmed exactly if it is sent and a good answer comes within what the round spends. */
  lemma {:induction false} ConfirmedIff(s: Settings, b: Between, ticks: seq<Tick>, k: nat)
    requires k < |ticks|
    ensures
      var log := Rounds(s, b, ticks);
      |log| == |ticks| && (log[k].confirmed <==> log[k].due && ticks[k].confirms && ticks[k].takes <= log[k].spent)
    decreases |ticks|
  {
    var (r, after) := Turn(s, b, ticks[0]);
    if k > 0 { ConfirmedIff(s, after, ticks[1..], k - 1); }
    else if |ticks| > 1 { ConfirmedIff(s, after, ticks[1..], 0); }
  }

  lemma TurnIsTimed(s: Settings, b: Between, tick: Tick)
    requires s.Valid() && tick.takes >= 0.0 && tick.woken >= 0.0
    ensures
      var (r, after) := Turn(s, b, tick);
      && r.start == b.now && r.renewedAt == b.renewedAt && r.lost == b.lost
      && WithinBudget(s, r)
      && (r.due <== !r.lost && s.Interval() <= r.start - r.renewedAt < s.lease)
      && Leads(s, r, after)
  {
  }

  lemma {:induction false} RoundsAreTimed(s: Settings, b: Between, ticks: seq<Tick>)
    requires s.Valid() && Sensible(ticks)
    ensures
      var log := Rounds(s, b, ticks);
      && |log| == |ticks| && Timed(s, log)
      && (log != [] ==> log[0].start == b.now && log[0].renewedAt == b.renewedAt && log[0].lost == b.lost)
    decreases |ticks|
  {
    if ticks != [] {
      var (r, after) := Turn(s, b, ticks[0]);
      TurnIsTimed(s, b, ticks[0]);
      RoundsAreTimed(s, after, ticks[1..]);
      var log, rest := Rounds(s, b, ticks), Rounds(s, after, ticks[1..]);
      hide Turn, Rounds;
      assert log == [r] + rest;
      assert rest != [] ==> Follows(s, r, rest[0]);
      forall k | 0 <= k < |log| - 1 ensures Follows(s, log[k], log[k + 1]) {
        if k > 0 { assert Follows(s, rest[k - 1], rest[k]); }
      }
    }
  }

  /** The body of the loop. */
  method OneTurn(s: Settings, b: Between, tick: Tick) returns (r: Round, after: Between)
    requires s.Valid() && tick.takes >= 0.0 && tick.woken >= 0.0
    ensures (r, after) == Turn(s, b, tick)
  {
    var now, renewedAt, lost := b.now, b.renewedAt, b.lost;
    var due := !lost && (tick.requested || b.now - renewedAt >= s.Interval());
    var spent, confirmed := 0.0, false;
    if due && b.now - renewedAt >= s.lease {
      lost, due := true, false;
    }
    if due || tick.others {
      spent := Min(tick.takes, if due then Budget(s, renewedAt, b.now) else s.RenewTimeout());
      confirmed := due && tick.confirms && tick.takes <= spent;
      now := b.now + spent;
      if confirmed { renewedAt := b.now; }
      if now - renewedAt >= s.lease { lost := true; }
    }
    now := now + Min(tick.woken, Max(0.0, s.Interval() - (now - b.now)));
    r, after := Round(b.now, due, spent, confirmed, b.renewedAt, b.lost), Between(now, renewedAt, lost);
  }

  /** The loop. */
  method Renewals(s: Settings, begin: real, claimedAt: real, ticks: seq<Tick>) returns (log: seq<Round>)
    requires s.Valid() && Sensible(ticks)
    ensures log == Rounds(s, Between(begin, claimedAt, false), ticks)
    ensures |log| == |ticks| && Timed(s, log)
    ensures log != [] ==> log[0].start == begin && log[0].renewedAt == claimedAt && !log[0].lost
  {
    hide Turn;
    var b := Between(begin, claimedAt, false);
    log := [];
    for i := 0 to |ticks|
      invariant log + Rounds(s, b, ticks[i..]) == Rounds(s, Between(begin, claimedAt, false), ticks)
    {
      var r, after := OneTurn(s, b, ticks[i]);
      assert ticks[i..][1..] == ticks[i + 1..];
      ghost var rest := Rounds(s, after, ticks[i + 1..]);
      assert log + ([r] + rest) == (log + [r]) + rest;
      log, b := log + [r], after;
    }
    RoundsAreTimed(s, Between(begin, claimedAt, false), ticks);
  }

  // ------------------------------------------------------------------------------- the theorems

  /** Slack enough for the floor of 0.05 s in the renewal budget. */
  predicate Roomy(s: Settings) { s.Valid() && s.lease - s.heartbeat >= 0.1 }

  /** Up to the first renewal after a confirmed one, the attempt is untouched and every round starts
      within half a lease of the confirmed one. */
  lemma {:induction false} NextRenewalIsInTime(s: Settings, log: seq<Round>, i: nat, j: nat)
    requires Roomy(s) && Timed(s, log) && i < j < |log|
    requires Confirmed(log[i]) && !log[i].lost && log[i].start - log[i].renewedAt < s.lease
    requires forall k | i < k < j :: !log[k].due
    ensures log[j].renewedAt == log[i].start && !log[j].lost
    ensures log[i].start <= log[j].start <= log[i].start + s.lease / 2.0
    decreases j
  {
    assert Follows(s, log[j - 1], log[j]);
    if j - 1 > i { NextRenewalIsInTime(s, log, i, j - 1); }
  }

  /** If that renewal burns its whole budget without an answer, the very next round renews again, at
      least half a heartbeat before the lease ends. */
  lemma RetryIsInTime(s: Settings, log: seq<Round>, i: nat, j: nat)
    requires Roomy(s) && Timed(s, log) && i < j < |log| - 1
    requires Confirmed(log[i]) && !log[i].lost && log[i].start - log[i].renewedAt < s.lease
    requires (forall k | i < k < j :: !log[k].due) && log[j].due && !log[j].confirmed
    requires log[j].start - log[j].renewedAt >= s.Interval()
    ensures log[j + 1].due && log[j + 1].renewedAt == log[i].start && !log[j + 1].lost
    ensures log[j + 1].start <= log[i].start + s.lease - s.heartbeat / 2.0
  {
    NextRenewalIsInTime(s, log, i, j);
    assert Follows(s, log[j], log[j + 1]);
  }

  /** A renewal due by the clock that got no answer. */
  predicate Missed(s: Settings, r: Round) { r.due && !r.confirmed && r.start - r.renewedAt >= s.Interval() }

  /** Over whole runs: as long as no two clock-due renewals in a row go unanswered, the attempt never
      loses its lease to the clock, whatever wakes the loop and however slow the answers are. */
  lemma {:induction false} OneMissIsNeverFatal(s: Settings, log: seq<Round>, k: nat)
    requires Roomy(s) && Timed(s, log) && k < |log|
    requires !log[0].lost && 0.0 <= log[0].start - log[0].renewedAt <= s.lease / 2.0
    requires forall i | 0 <= i < |log| - 1 :: !(Missed(s, log[i]) && Missed(s, log[i + 1]))
    ensures !log[k].lost
    ensures
      var age := log[k].start - log[k].renewedAt;
      0.0 <= age && age <= if k > 0 && Missed(s, log[k - 1]) then s.lease - s.heartbeat / 2.0 else s.lease / 2.0
    decreases k
  {
    if k > 0 {
      OneMissIsNeverFatal(s, log, k - 1);
      assert Follows(s, log[k - 1], log[k]);
      assert k > 1 ==> !(Missed(s, log[k - 2]) && Missed(s, log[k - 1]));
    }
  }

  const DEFAULTS := Settings(30.0, 10.0, 30.0)

  /** Two misses in a row can be fatal: a run of the loop with the default 30 s lease and 10 s heartbeat in
      which a renewal that took its whole budget and two unanswered ones use up the lease exactly. */
  lemma TwoMissesCanBeFatal() returns (ticks: seq<Tick>)
    ensures Roomy(DEFAULTS) && Sensible(ticks)
    ensures
      var log := Rounds(DEFAULTS, Between(5.0, 0.0, false), ticks);
      && |log| == 4 && Confirmed(log[0]) && !log[0].lost && log[0].start - log[0].renewedAt == DEFAULTS.Interval()
      && Missed(DEFAULTS, log[1]) && Missed(DEFAULTS, log[2]) && !log[2].lost && log[3].lost
  {
    var slow, silent := Tick(false, false, 10.0, true, 0.0), Tick(false, false, 10.0, false, 0.0);
    ticks := [slow, silent, silent, silent];
    var b0, b1 := Between(5.0, 0.0, false), Between(15.0, 5.0, false);
    var b2, b3 := Between(25.0, 5.0, false), Between(35.0, 5.0, true);
    var r0, r1 := Round(5.0, true, 10.0, true, 0.0, false), Round(15.0, true, 10.0, false, 5.0, false);
    var r2 := Round(25.0, true, 10.0, false, 5.0, false);
    assert Turn(DEFAULTS, b0, slow) == (r0, b1);
    assert Turn(DEFAULTS, b1, silent) == (r1, b2);
    assert Turn(DEFAULTS, b2, silent) == (r2, b3);
    var r3 := Turn(DEFAULTS, b3, silent).0;
    assert r3.lost;
    hide Turn;
    assert ticks[1..] == [silent, silent, silent] && ticks[1..][1..] == [silent, silent] && ticks[1..][1..][1..] == [silent];
    assert Rounds(DEFAULTS, b3, [silent]) == [r3];
    assert Rounds(DEFAULTS, b2, [silent, silent]) == [r2] + [r3];
    assert Rounds(DEFAULTS, b1, [silent, silent, silent]) == [r1] + ([r2] + [r3]);
    assert Rounds(DEFAULTS, b0, ticks) == [r0] + ([r1] + ([r2] + [r3])) == [r0, r1, r2, r3];
  }

  /** Round j is the first renewal that the clock makes due after the confirmed one of round i; others
      may have been asked for early and gone unanswered, or served other attempts only. */
  predicate FirstDue(s: Settings, log: seq<Round>, i: nat, j: nat) {
    && i < j < |log|
    && Confirmed(log[i]) && !log[i].lost && log[i].start - log[i].renewedAt < s.lease
    && (forall k | i < k < j :: !Confirmed(log[k]) && !Missed(s, log[k]))
  }

  /** What the budget's documentation promises of every run of the loop: a renewal that hits its budget
      can be retried before the lease that the last confirmed renewal took runs out. */
  ghost predicate AlwaysRetriesInTime(s: Settings) {
    forall b: Between, ticks: seq<Tick>, i: nat, j: nat |
      Sensible(ticks) && FirstDue(s, Rounds(s, b, ticks), i, j) && j + 1 < |Rounds(s, b, ticks)|
      && Missed(s, Rounds(s, b, ticks)[j]) && !Rounds(s, b, ticks)[j].lost
      :: Rounds(s, b, ticks)[j + 1].start - Rounds(s, b, ticks)[i].start < s.lease
  }

  /** Until the clock makes a renewal due, rounds start within half a heartbeat of the confirmed one. */
  lemma {:induction false} QuietUntilDue(s: Settings, log: seq<Round>, i: nat, j: nat, k: nat)
    requires s.Valid() && Timed(s, log) && FirstDue(s, log, i, j) && i < k <= j
    requires s.Interval() + 2.0 * s.RenewTimeout() <= s.lease
    ensures log[k].renewedAt == log[i].start && !log[k].lost
    ensures log[i].start <= log[k].start
    ensures log[k].start - log[i].start < s.Interval() + Max(s.Interval(), s.RenewTimeout())
    ensures k < j ==> log[k].start - log[i].start < s.Interval()
    decreases k
  {
    assert Follows(s, log[k - 1], log[k]);
    if k - 1 > i { QuietUntilDue(s, log, i, j, k - 1); }
    assert s.RenewTimeout() > 0.0;
  }

  lemma RetriesInTime(s: Settings, log: seq<Round>, i: nat, j: nat)
    requires s.Valid() && Timed(s, log) && FirstDue(s, log, i, j) && j + 1 < |log|
    requires s.Interval() + 2.0 * s.RenewTimeout() <= s.lease
    ensures log[j + 1].start - log[i].start < s.lease
  {
    QuietUntilDue(s, log, i, j, j);
    assert Follows(s, log[j], log[j + 1]);
  }

  const BEGIN := Between(0.0, 0.0, false)

  /** Where the budget is too large: just before it is due, another attempt's renewal takes its whole
      budget; then the renewal takes what is left of the lease. */
  lemma RetriesTooLate(s: Settings) returns (ticks: seq<Tick>)
    requires s.Valid() && s.Interval() + 2.0 * s.RenewTimeout() > s.lease
    ensures Sensible(ticks) && |Rounds(s, BEGIN, ticks)| == 4
    ensures FirstDue(s, Rounds(s, BEGIN, ticks), 0, 2)
    ensures var log := Rounds(s, BEGIN, ticks); Missed(s, log[2]) && !log[2].lost && log[3].start - log[0].start == s.lease
  {
    var due := Max(s.Interval(), s.lease - s.RenewTimeout());
    var early := Max(0.0, due - s.RenewTimeout());
    var t0, t1 := Tick(true, false, 0.0, true, early), Tick(false, true, due - early, false, 0.0);
    var t2, t3 := Tick(false, false, s.lease - due, false, 0.0), Tick(false, false, 0.0, false, 0.0);
    ticks := [t0, t1, t2, t3];
    var b1, b2, b3 := Between(early, 0.0, false), Between(due, 0.0, false), Between(s.lease, 0.0, true);
    var r0, r1 := Round(0.0, true, 0.0, true, 0.0, false), Round(early, false, due - early, false, 0.0, false);
    var r2 := Round(due, true, s.lease - due, false, 0.0, false);
    assert Turn(s, BEGIN, t0) == (r0, b1);
    assert Turn(s, b1, t1) == (r1, b2);
    assert Turn(s, b2, t2) == (r2, b3);
    var r3 := Turn(s, b3, t3).0;
    assert r3.start == s.lease;
    hide Turn;
    assert ticks[1..] == [t1, t2, t3] && [t1, t2, t3][1..] == [t2, t3] && [t2, t3][1..] == [t3];
    assert Rounds(s, b3, [t3]) == [r3];
    assert Rounds(s, b2, [t2, t3]) == [r2] + [r3];
    assert Rounds(s, b1, [t1, t2, t3]) == [r1] + ([r2] + [r3]);
    assert Rounds(s, BEGIN, ticks) == [r0] + ([r1] + ([r2] + [r3])) == [r0, r1, r2, r3];
  }

  /** The validated settings keep that promise exactly when half a heartbeat and two budgets fit in the
      lease; the budget's floor of 0.05 s breaks it for very short leases. */
  lemma RetriesInTimeIff(s: Settings)
    requires s.Valid()
    ensures AlwaysRetriesInTime(s) <==>
      s.heartbeat / 2.0 + 2.0 * Min(s.statementTimeout, Max(0.05, (s.lease - s.heartbeat) / 2.0)) <= s.lease
  {
    hide Rounds;
    if s.Interval() + 2.0 * s.RenewTimeout() <= s.lease {
      forall b: Between, ticks: seq<Tick>, i: nat, j: nat |
        Sensible(ticks) && FirstDue(s, Rounds(s, b, ticks), i, j) && j + 1 < |Rounds(s, b, ticks)|
        && Missed(s, Rounds(s, b, ticks)[j]) && !Rounds(s, b, ticks)[j].lost
        ensures Rounds(s, b, ticks)[j + 1].start - Rounds(s, b, ticks)[i].start < s.lease
      {
        RoundsAreTimed(s, b, ticks);
        RetriesInTime(s, Rounds(s, b, ticks), i, j);
      }
    } else {
      var ticks := RetriesTooLate(s);
      assert Rounds(s, BEGIN, ticks)[3].start - Rounds(s, BEGIN, ticks)[0].start == s.lease;
    }
  }
}
