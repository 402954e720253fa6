/** How long a lease lives: a job its worker keeps naming is never swept away, one it stops naming always is. */
module Deadlines {
  import opened Model
  import opened Transactions
  import opened Invariant
  import opened Effects
  import opened Ownership
  import opened Runs

  /** The owner's heartbeat names job j. */
  predicate Names(db: Db, e: Event, j: string) {
    e.op.Beat? && Named(db, e.op.worker, e.op.running, j)
  }

  // ----- The lease and its renewals

  /** A step that leaves j active leaves it its lease, renewed if the step names j and otherwise as it was. */
  lemma LeaseStep(db: Db, e: Event, j: string, l: nat)
    requires Valid(db) && Valid(Apply(db, e)) && HeldBy(db, l, j) && Active(db, j) && Active(Apply(db, e), j)
    ensures HeldBy(Apply(db, e), l, j)
    ensures Apply(db, e).leases[l].expires == if Names(db, e, j) then e.now + RENEW_WINDOW else db.leases[l].expires
  {
    var x := Apply(db, e);
    hide Valid;
    var k := LeaseOf(x, j);
    if e.op.Assign? {
      LeaseBeforeAssign(db, e, k, j);
    } else if e.op.Beat? {
      BeatLease(db, e.op.worker, e.op.running, e.op.retain, e.now, k, j);
    } else {
      StepLeaves(db, e);
    }
    hide Apply;
    SameHolder(db, k, l, j);
  }

  lemma SameHolder(db: Db, k: nat, l: nat, j: string)
    requires Valid(db) && k in db.leases && db.leases[k].job == j && HeldBy(db, l, j)
    ensures k == l
  {
    assert Distinct(db, k, l);
  }

  lemma BeatLease(db: Db, w: string, running: set<string>, retain: bool, now: int, k: nat, j: string)
    requires HeldBy(Heartbeat(db, w, running, retain, now), k, j)
    ensures k in db.leases && db.leases[k].job == j && db.leases[k].live
    ensures Heartbeat(db, w, running, retain, now).leases[k].expires
         == if Named(db, w, running, j) then now + RENEW_WINDOW else db.leases[k].expires
  {
  }

  lemma LeaseBeforeAssign(db: Db, e: Event, k: nat, j: string)
    requires e.op.Assign? && HeldBy(Apply(db, e), k, j) && Active(db, j)
    ensures k in db.leases && db.leases[k].job == j && Apply(db, e).leases[k] == db.leases[k]
  {
  }

  lemma BeatWorkers(db: Db, e: Event)
    requires e.op.Beat?
    ensures Apply(db, e).workers == if e.op.worker in db.workers then db.workers[e.op.worker := db.workers[e.op.worker].(heartbeat := e.now)] else db.workers
  {
  }

  lemma HeartbeatStep(db: Db, e: Event, w: string, h: int)
    requires w in db.workers && db.workers[w].heartbeat >= h && e.now >= h
    ensures w in Apply(db, e).workers && Apply(db, e).workers[w].heartbeat >= h
    ensures e.op.Beat? && e.op.worker == w ==> Apply(db, e).workers[w].heartbeat == e.now
  {
    hide Upsert;
    if e.op.Beat? {
      BeatWorkers(db, e);
    } else if e.op.Register? {
      UpsertKeeps(db, e.op.host, e.op.boot, DeviceIds(e.op.host, e.op.names), e.now);
    } else {
      StepLeaves(db, e);
      hide Apply;
    }
  }

  predicate Quarantined(db: Db, d: string) {
    d in db.devices && db.devices[d].state.Unhealthy?
  }

  // ----- Every device's worker is registered

  ghost predicate Staffed(db: Db) {
    forall d :: d in db.devices ==> db.devices[d].worker in db.workers
  }

  /** A registration enters the worker its devices are given. */
  lemma RegisterKeepsStaffed(db: Db, w: string, boot: string, ds: set<string>, now: int)
    requires Staffed(db)
    ensures Staffed(Upsert(db, w, boot, ds, now))
  {
    hide Upsert;
    var e := Upsert(db, w, boot, ds, now);
    UpsertKeeps(db, w, boot, ds, now);
    forall d | d in e.devices ensures e.devices[d].worker in e.workers { assert Registered(db, e, w, ds, d); }
  }

  lemma SameOwnersStaffed(db: Db, e: Db)
    requires Staffed(db) && e.workers.Keys == db.workers.Keys && forall d :: DeviceKept(db, e, d)
    ensures Staffed(e)
  {
    forall d | d in e.devices ensures e.devices[d].worker in e.workers { assert DeviceKept(db, e, d); }
  }

  lemma ClearKeepsStaffed(db: Db, x: string)
    requires Staffed(db)
    ensures Staffed(ClearDevice(db, x))
  {
    hide ClearDevice;
    var e := ClearDevice(db, x);
    ClearKeeps(db, x);
    forall d | d in e.devices ensures e.devices[d].worker in e.workers { assert d != x ==> DeviceKept(db, e, d); }
  }

  lemma StepKeepsStaffed(db: Db, e: Event)
    requires Staffed(db)
    ensures Staffed(Apply(db, e))
  {
    hide Staffed, Kept;
    hide Upsert, ClearDevice, Queue.Submit;
    match e.op {
      case Submit(id, r, q, seen) =>
        SubmitKeeps(db, seen, q, id, r, e.now);
        SameRowsStaffed(db, Apply(db, e));
      case Register(host, boot, names) => RegisterKeepsStaffed(db, host, boot, DeviceIds(host, names), e.now);
      case Clear(x) => ClearKeepsStaffed(db, x);
      case _ =>
        StepKeeps(db, e);
        StepLeaves(db, e);
        if e.op.Beat? { BeatWorkers(db, e); }
        hide Apply;
        KeptStaffed(db, Apply(db, e));
    }
  }

  lemma KeptStaffed(db: Db, e: Db)
    requires Staffed(db) && Kept(db, e) && e.workers.Keys == db.workers.Keys
    ensures Staffed(e)
  {
    SameOwnersStaffed(db, e);
  }

  lemma SameRowsStaffed(db: Db, e: Db)
    requires Staffed(db) && e.workers == db.workers && e.devices == db.devices
    ensures Staffed(e)
  {
  }

  lemma {:induction false} RunIsStaffed(es: Run, n: nat)
    requires n <= |es|
    ensures Staffed(After(EMPTY_DB, es, n))
  {
    hide Apply;
    if n > 0 {
      RunIsStaffed(es, n - 1);
      StepKeepsStaffed(After(EMPTY_DB, es, n - 1), es[n - 1]);
    }
  }

  // ----- Named often enough: never lost to a sweep

  /** j's lease reaches its full length past h, and its worker was heard then or later. */
  ghost predicate Renewed(db: Db, j: string, l: nat, h: int) {
    && Active(db, j)
    && HeldBy(db, l, j) && db.leases[l].expires >= h + RENEW_WINDOW
    && db.jobs[j].worker in db.workers && db.workers[db.jobs[j].worker].heartbeat >= h
  }

  /** The owner's heartbeat naming j renews its lease. */
  lemma NamingRenews(db: Db, e: Event, j: string)
    requires Sound(db) && Staffed(db) && PlainHost(e) && Names(db, e, j)
    ensures exists l :: Renewed(Apply(db, e), j, l, e.now) && Apply(db, e).leases[l].expires == e.now + 900
  {
    var l := LeaseOf(db, j);
    assert LeaseOk(db, l);
    StepIsSound(db, e);
    NamedStaysActive(db, e, j);
    LeaseStep(db, e, j, l);
    assert Renewed(Apply(db, e), j, l, e.now);
  }

  lemma NamedStaysActive(db: Db, e: Event, j: string)
    requires Names(db, e, j)
    ensures Active(Apply(db, e), j) && Apply(db, e).jobs[j].worker == db.jobs[j].worker
  {
  }

  /** A sweep that finds j named less than the allowed silence ago leaves its row alone. */
  lemma SweepSpares(db: Db, a: SweepArgs, now: int, j: string, l: nat, h: int)
    requires Valid(db) && Renewed(db, j, l, h)
    requires now - h < a.unhealthyAfter && now - h < RENEW_WINDOW
    ensures j in db.jobs && SweptJob(db, a, now, j) == db.jobs[j]
  {
    assert LeaseOk(db, l);
    if LapsedFor(db, a, now, j) {
      var k :| k in db.leases && Stale(db, a, now, k) && db.leases[k].job == j;
      NotStale(db, a, now, j, k, l);
    }
  }

  lemma SweepEventSpares(db: Db, e: Event, j: string, l: nat, h: int)
    requires Sound(db) && Renewed(db, j, l, h) && e.op.Sweep?
    requires e.now - h < e.op.args.unhealthyAfter && e.now - h < RENEW_WINDOW
    ensures j in Apply(db, e).jobs && Apply(db, e).jobs[j] == db.jobs[j]
  {
    hide SweptDevice, SweptLease, SweptJob;
    SweepSpares(db, e.op.args, e.now, j, l, h);
  }

  lemma NotStale(db: Db, a: SweepArgs, now: int, j: string, k: nat, l: nat)
    requires Valid(db) && HeldBy(db, l, j) && k in db.leases && db.leases[k].job == j && db.leases[l].expires > now
    ensures !Stale(db, a, now, k)
  {
    assert Distinct(db, k, l);
  }

  lemma RenewedStep(db: Db, e: Event, j: string, l: nat, h: int)
    requires Sound(db) && PlainHost(e) && Renewed(db, j, l, h) && e.now >= h && Active(Apply(db, e), j)
    ensures Renewed(Apply(db, e), j, l, h)
  {
    StepIsSound(db, e);
    LeaseStep(db, e, j, l);
    HeartbeatStep(db, e, db.jobs[j].worker, h);
    StepKeepsJobs(db, e, j);
    hide Apply;
  }

  lemma {:induction false} StaysRenewed(es: Run, m: nat, n: nat, j: string, l: nat, h: int)
    requires (forall i :: 0 <= i < |es| ==> PlainHost(es[i])) && m <= n <= |es|
    requires Renewed(After(EMPTY_DB, es, m), j, l, h) && (forall i :: m <= i < n ==> es[i].now >= h)
    requires Active(After(EMPTY_DB, es, n), j)
    ensures Renewed(After(EMPTY_DB, es, n), j, l, h)
  {
    hide Apply, Names, Sound, Renewed, PlainHost;
    if m < n {
      EmptyIsSound();
      RunIsSound(EMPTY_DB, es, n - 1);
      ActiveBefore(es, m, n, j, l, h);
      StaysRenewed(es, m, n - 1, j, l, h);
      RenewedStep(After(EMPTY_DB, es, n - 1), es[n - 1], j, l, h);
    }
  }

  /** An active job was active all along. */
  lemma ActiveBefore(es: Run, m: nat, n: nat, j: string, l: nat, h: int)
    requires m < n <= |es| && Renewed(After(EMPTY_DB, es, m), j, l, h) && Active(After(EMPTY_DB, es, n), j)
    ensures Active(After(EMPTY_DB, es, n - 1), j)
  {
    hide Apply;
    NeverRequeued(EMPTY_DB, es, m, n - 1, j);
    NeverRequeued(EMPTY_DB, es, n - 1, n, j);
  }

  /**
   In every run from empty tables: a sweep that comes less than
   min(unhealthyAfter, 15 min) after a heartbeat of its owner naming an active
   job does not touch the job.
   */
  lemma NamedJobsSurviveSweeps(es: Run, m: nat, n: nat, j: string)
    requires (forall i :: 0 <= i < |es| ==> PlainHost(es[i])) && Clocked(es) && m < n < |es|
    requires Names(After(EMPTY_DB, es, m), es[m], j)
    requires es[n].op.Sweep? && es[n].now - es[m].now < es[n].op.args.unhealthyAfter && es[n].now - es[m].now < 900
    ensures Active(After(EMPTY_DB, es, n), j) ==>
              j in After(EMPTY_DB, es, n + 1).jobs && After(EMPTY_DB, es, n + 1).jobs[j] == After(EMPTY_DB, es, n).jobs[j]
  {
    hide Apply, Sound, Renewed, PlainHost, Names;
    if Active(After(EMPTY_DB, es, n), j) {
      EmptyIsSound();
      RunIsSound(EMPTY_DB, es, m);
      RunIsSound(EMPTY_DB, es, n);
      RunIsStaffed(es, m);
      NamingRenews(After(EMPTY_DB, es, m), es[m], j);
      var l :| Renewed(After(EMPTY_DB, es, m + 1), j, l, es[m].now);
      StaysRenewed(es, m + 1, n, j, l, es[m].now);
      SweepEventSpares(After(EMPTY_DB, es, n), es[n], j, l, es[m].now);
    }
  }

  // ----- Not named: lost at the deadline

  /** The lease's deadline is at most limit as long as j is active. */
  ghost predicate DueBy(db: Db, j: string, l: nat, limit: int) {
    Active(db, j) ==> HeldBy(db, l, j) && db.leases[l].expires <= limit
  }

  lemma DueStep(db: Db, e: Event, j: string, l: nat, limit: int)
    requires Sound(db) && PlainHost(e) && j in db.jobs && !db.jobs[j].state.Queued? && DueBy(db, j, l, limit)
    requires Names(db, e, j) ==> e.now + RENEW_WINDOW <= limit
    ensures DueBy(Apply(db, e), j, l, limit)
  {
    StepIsSound(db, e);
    StepKeepsJobs(db, e, j);
    if Active(Apply(db, e), j) { LeaseStep(db, e, j, l); }
    hide Apply;
  }

  /** A sweep that does not retain disconnected jobs and finds the deadline passed ends j and quarantines its device. */
  lemma SweepReclaims(db: Db, a: SweepArgs, now: int, j: string, l: nat)
    requires Valid(db) && Active(db, j) && HeldBy(db, l, j) && db.leases[l].expires <= now && Judging(a, now) && !a.retain
    ensures var x := Transactions.Sweep(db, a, now); j in x.jobs && x.jobs[j].state == Lost && Quarantined(x, db.jobs[j].device)
  {
    assert LeaseOk(db, l) && JobOk(db, j);
    if !Reaped(db, a, now, j) { assert Stale(db, a, now, l); }
  }

  lemma SweepEventReclaims(db: Db, e: Event, j: string, l: nat)
    requires Sound(db) && DueBy(db, j, l, e.now) && e.op.Sweep? && !e.op.args.retain && Judging(e.op.args, e.now)
    ensures Active(db, j) ==>
              j in Apply(db, e).jobs && Apply(db, e).jobs[j].state == Lost && Quarantined(Apply(db, e), db.jobs[j].device)
  {
    hide Transactions.Sweep, Judging;
    if Active(db, j) { SweepReclaims(db, e.op.args, e.now, j, l); }
  }

  /**
   A job not named after t is gone by the first judging sweep at or past
   max(its deadline at the start, t + 15 min): if it was still active then, it is lost and
   its device quarantined.
   */
  lemma UnnamedJobsAreReclaimed(db: Db, es: Run, n: nat, j: string, l: nat, t: int)
    requires Sound(db) && (forall i :: 0 <= i < |es| ==> PlainHost(es[i])) && n < |es|
    requires Active(db, j) && HeldBy(db, l, j)
    requires forall i :: 0 <= i < n && Names(After(db, es, i), es[i], j) ==> es[i].now <= t
    requires es[n].op.Sweep? && !es[n].op.args.retain && Judging(es[n].op.args, es[n].now)
    requires es[n].now >= db.leases[l].expires && es[n].now >= t + 900
    ensures !Active(After(db, es, n + 1), j)
    ensures Active(After(db, es, n), j) ==>
              && j in After(db, es, n + 1).jobs && After(db, es, n + 1).jobs[j].state == Lost
              && Quarantined(After(db, es, n + 1), After(db, es, n).jobs[j].device)
  {
    hide Apply, Sound, PlainHost, Names;
    StaysDue(db, es, n, j, l, es[n].now);
    RunIsSound(db, es, n);
    NeverRequeued(db, es, 0, n, j);
    StepKeepsJobs(After(db, es, n), es[n], j);
    SweepEventReclaims(After(db, es, n), es[n], j, l);
  }

  lemma {:induction false} StaysDue(db: Db, es: Run, n: nat, j: string, l: nat, limit: int)
    requires Sound(db) && (forall i :: 0 <= i < |es| ==> PlainHost(es[i])) && n <= |es|
    requires Active(db, j) && HeldBy(db, l, j) && db.leases[l].expires <= limit
    requires forall i :: 0 <= i < n && Names(After(db, es, i), es[i], j) ==> es[i].now + RENEW_WINDOW <= limit
    ensures DueBy(After(db, es, n), j, l, limit)
  {
    hide Apply, Names, Sound, PlainHost;
    if n > 0 {
      StaysDue(db, es, n - 1, j, l, limit);
      RunIsSound(db, es, n - 1);
      NeverRequeued(db, es, 0, n - 1, j);
      DueStep(After(db, es, n - 1), es[n - 1], j, l, limit);
    }
  }
}
