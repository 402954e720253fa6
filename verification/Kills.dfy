/** How often a kill flag is handed to a worker: often enough, and not too often. */
module Kills {
  import opened Model
  import opened Transactions
  import opened Effects
  import opened Runs

  predicate Delivers(db: Db, e: Event, j: string) {
    e.op.TakeKills? && KillDue(db, e.op.worker, e.now, j)
  }

  predicate Asks(e: Event, j: string) {
    e.op.Kill? && e.op.job == j
  }

  function Deliveries(db: Db, es: Run, j: string, n: nat): nat
    requires n <= |es|
  {
    if n == 0 then 0
    else Deliveries(db, es, j, n - 1) + (if Delivers(After(db, es, n - 1), es[n - 1], j) then 1 else 0)
  }

  function Requests(es: Run, j: string, n: nat): nat
    requires n <= |es|
  {
    if n == 0 then 0 else Requests(es, j, n - 1) + (if Asks(es[n - 1], j) then 1 else 0)
  }

  /** What a step does to the delivery stamp of an existing job. */
  lemma StampStep(db: Db, e: Event, j: string)
    requires j in db.jobs
    ensures j in Apply(db, e).jobs
    ensures Delivers(db, e, j) ==> Apply(db, e).jobs[j].killDeliveredAt == e.now && db.jobs[j].killDeliveredAt <= e.now - KILL_REDELIVER
    ensures !Delivers(db, e, j) ==>
              || Apply(db, e).jobs[j].killDeliveredAt == db.jobs[j].killDeliveredAt
              || (Asks(e, j) && Apply(db, e).jobs[j].killDeliveredAt == 0)
  {
    StepKeepsJobs(db, e, j);
    if e.op.Kill? {
      KillStamps(db, e.op.job, e.op.reason, e.op.finalize, e.now, j);
      hide RequestKill;
    } else if e.op.TakeKills? {
      TakeStamps(db, e.op.worker, e.now, j);
      hide Transactions.TakeKills;
    } else {
      StepLeaves(db, e);
      hide Apply;
    }
  }

  lemma TakeStamps(db: Db, w: string, now: int, j: string)
    requires j in db.jobs
    ensures var e := Transactions.TakeKills(db, w, now);
            j in e.jobs && e.jobs[j].killDeliveredAt == if KillDue(db, w, now, j) then now else db.jobs[j].killDeliveredAt
  {
  }

  lemma KillStamps(db: Db, i: string, reason: string, finalize: bool, now: int, j: string)
    requires j in db.jobs
    ensures var e := RequestKill(db, i, reason, finalize, now);
            j in e.jobs && (e.jobs[j].killDeliveredAt == db.jobs[j].killDeliveredAt || (i == j && e.jobs[j].killDeliveredAt == 0))
  {
  }

  /**
   last is when j was last delivered in the first n events, r the requests so
   far; the stamp is that delivery's unless a request came after it.
   */
  ghost predicate Spaced(db: Db, es: Run, j: string, n: nat, last: int)
    requires 0 < n <= |es|
  {
    var d, r := Deliveries(db, es, j, n), Requests(es, j, n);
    && es[0].now <= last <= es[n - 1].now
    && KILL_REDELIVER * (d - 1 - r) <= last - es[0].now
    && j in After(db, es, n).jobs
    && (After(db, es, n).jobs[j].killDeliveredAt == last || KILL_REDELIVER * (d - r) <= last - es[0].now)
  }

  lemma {:induction false} DeliveriesAreSpaced(db: Db, es: Run, j: string, n: nat) returns (last: int)
    requires Clocked(es) && 0 < n <= |es| && Deliveries(db, es, j, n) > 0
    ensures Spaced(db, es, j, n, last)
  {
    hide Apply, Delivers, Asks;
    var before, e := After(db, es, n - 1), es[n - 1];
    if Deliveries(db, es, j, n - 1) > 0 {
      var prev := DeliveriesAreSpaced(db, es, j, n - 1);
      StampStep(before, e, j);
      last := if Delivers(before, e, j) then e.now else prev;
    } else {
      assert Delivers(before, e, j);
      DeliveredExists(before, e, j);
      StampStep(before, e, j);
      last := e.now;
    }
  }

  lemma DeliveredExists(db: Db, e: Event, j: string)
    requires Delivers(db, e, j)
    ensures j in db.jobs
  {
  }

  /** In any stretch of T seconds a job is delivered at most T/30 + 1 times, plus once per request made meanwhile. */
  lemma DeliveriesBounded(db: Db, es: Run, j: string)
    requires Clocked(es) && es != []
    ensures Deliveries(db, es, j, |es|) <= (es[|es| - 1].now - es[0].now) / 30 + 1 + Requests(es, j, |es|)
  {
    if Deliveries(db, es, j, |es|) > 0 {
      var last := DeliveriesAreSpaced(db, es, j, |es|);
    }
  }

  lemma {:induction false} StampStaysLow(db: Db, es: Run, n: nat, j: string, t: int)
    requires n <= |es| && j in db.jobs && !db.jobs[j].state.Queued? && db.jobs[j].killDeliveredAt <= t && t >= 0
    requires Deliveries(db, es, j, n) == 0
    ensures j in After(db, es, n).jobs && After(db, es, n).jobs[j].worker == db.jobs[j].worker
    ensures !After(db, es, n).jobs[j].state.Queued? && After(db, es, n).jobs[j].killDeliveredAt <= t
  {
    hide Apply, Delivers, Asks;
    if n > 0 {
      StampStaysLow(db, es, n - 1, j, t);
      StampStep(After(db, es, n - 1), es[n - 1], j);
      StepKeepsJobs(After(db, es, n - 1), es[n - 1], j);
    }
  }

  /** The owner's heartbeat says that the killed job is gone. */
  predicate Answers(db: Db, e: Event, j: string) {
    && e.op.Beat? && j in db.jobs && db.jobs[j].worker == e.op.worker
    && db.jobs[j].state.Killed? && j !in e.op.running
  }

  /** A flag is withdrawn by its owner's answer to a finalised kill, and by nothing else. */
  lemma FlagIsWithdrawnIff(db: Db, e: Event, j: string)
    requires j in db.jobs && db.jobs[j].killRequested
    ensures j in Apply(db, e).jobs && (!Apply(db, e).jobs[j].killRequested <==> Answers(db, e, j))
  {
    StepKeepsJobs(db, e, j);
    if e.op.Beat? {
      BeatFlag(db, e.op.worker, e.op.running, e.op.retain, e.now, j);
    } else {
      StepLeaves(db, e);
      hide Apply;
    }
  }

  lemma BeatFlag(db: Db, w: string, running: set<string>, retain: bool, now: int, j: string)
    requires j in db.jobs
    ensures var e := Heartbeat(db, w, running, retain, now); j in e.jobs && e.jobs[j] == BeatJob(w, running, db.jobs[j], j)
  {
  }

  lemma {:induction false} FlagStands(db: Db, es: Run, n: nat, j: string)
    requires n <= |es| && j in db.jobs && db.jobs[j].killRequested
    requires forall i :: 0 <= i < n ==> !Answers(After(db, es, i), es[i], j)
    ensures j in After(db, es, n).jobs && After(db, es, n).jobs[j].killRequested
  {
    hide Apply, Answers;
    if n > 0 {
      FlagStands(db, es, n - 1, j);
      FlagIsWithdrawnIff(After(db, es, n - 1), es[n - 1], j);
    }
  }

  /**
   A flag last delivered at t is offered by the first poll 30 s later or more,
   exactly if it still stands and can be acted on; and it does stand unless a
   heartbeat of the owner answered it.
   */
  lemma FlagIsOfferedAgain(db: Db, es: Run, j: string, t: int, now: int)
    requires j in db.jobs && !db.jobs[j].state.Queued? && db.jobs[j].killDeliveredAt <= t && t >= 0
    requires Deliveries(db, es, j, |es|) == 0 && now >= t + 30
    ensures var x := After(db, es, |es|);
            && j in x.jobs
            && (KillDue(x, db.jobs[j].worker, now, j) <==>
                x.jobs[j].killRequested && (x.jobs[j].state.Active() || x.jobs[j].state.Killed?))
    ensures var x := After(db, es, |es|);
            db.jobs[j].killRequested && (forall i :: 0 <= i < |es| ==> !Answers(After(db, es, i), es[i], j)) ==>
              && j in x.jobs
              && (KillDue(x, db.jobs[j].worker, now, j) <==> x.jobs[j].state.Active() || x.jobs[j].state.Killed?)
  {
    hide Apply, Answers;
    StampStaysLow(db, es, |es|, j, t);
    if db.jobs[j].killRequested && forall i :: 0 <= i < |es| ==> !Answers(After(db, es, i), es[i], j) {
      FlagStands(db, es, |es|, j);
    }
  }

  // ----- From the request to the worker

  /** j's worker has a flag of it to collect that was never delivered. */
  ghost predicate FlagWaits(db: Db, j: string, w: string) {
    && j in db.jobs && db.jobs[j].worker == w && !db.jobs[j].state.Queued?
    && db.jobs[j].killRequested && db.jobs[j].killDeliveredAt <= 0
  }

  /** Whether it is finalised or not, a kill of an active job leaves a flag to collect. */
  lemma KillLeavesFlag(db: Db, e: Event, j: string)
    requires e.op.Kill? && e.op.job == j && Active(db, j)
    ensures FlagWaits(Apply(db, e), j, db.jobs[j].worker)
  {
    hide RequestKill, FlagWaits;
    RequestLeavesFlag(db, j, e.op.reason, e.op.finalize, e.now);
  }

  lemma RequestLeavesFlag(db: Db, j: string, reason: string, finalize: bool, now: int)
    requires Active(db, j)
    ensures FlagWaits(RequestKill(db, j, reason, finalize, now), j, db.jobs[j].worker)
  {
    hide ReleasedFor, Disconnected;
  }

  lemma FlagWaitsOn(db: Db, e: Event, j: string, w: string)
    requires FlagWaits(db, j, w) && !Delivers(db, e, j) && !Answers(db, e, j)
    ensures FlagWaits(Apply(db, e), j, w)
  {
    hide Apply, Delivers, Answers;
    StampStep(db, e, j);
    StepKeepsJobs(db, e, j);
    FlagIsWithdrawnIff(db, e, j);
  }

  lemma {:induction false} FlagWaitsUntil(es: Run, m: nat, n: nat, j: string, w: string)
    requires m <= n <= |es| && FlagWaits(After(EMPTY_DB, es, m), j, w)
    requires forall i :: m <= i < n ==> !Delivers(After(EMPTY_DB, es, i), es[i], j) && !Answers(After(EMPTY_DB, es, i), es[i], j)
    ensures FlagWaits(After(EMPTY_DB, es, n), j, w)
  {
    hide Apply, Delivers, Answers, FlagWaits;
    if m < n {
      FlagWaitsUntil(es, m, n - 1, j, w);
      FlagWaitsOn(After(EMPTY_DB, es, n - 1), es[n - 1], j, w);
    }
  }

  /**
   No kill is lost: over any run after a kill of an active job that neither
   delivers it nor has the owner's answer to it, the owner's next poll, at second 30
   or later, is handed the job as long as it is active or killed.
   */
  lemma KillIsHandedOut(es: Run, m: nat, n: nat, j: string)
    requires m < n < |es| && es[m].op.Kill? && es[m].op.job == j && Active(After(EMPTY_DB, es, m), j)
    requires forall i :: m < i < n ==> !Delivers(After(EMPTY_DB, es, i), es[i], j) && !Answers(After(EMPTY_DB, es, i), es[i], j)
    requires es[n].op == Op.TakeKills(After(EMPTY_DB, es, m).jobs[j].worker) && es[n].now >= 30
    ensures var x, y := After(EMPTY_DB, es, n), After(EMPTY_DB, es, n + 1);
            && j in x.jobs && j in y.jobs
            && (x.jobs[j].state.Active() || x.jobs[j].state == Killed ==>
                  Delivers(x, es[n], j) && y.jobs[j].killDeliveredAt == es[n].now)
  {
    hide Apply, Answers;
    KillLeavesFlag(After(EMPTY_DB, es, m), es[m], j);
    FlagWaitsUntil(es, m + 1, n, j, After(EMPTY_DB, es, m).jobs[j].worker);
    StampStep(After(EMPTY_DB, es, n), es[n], j);
  }
}
