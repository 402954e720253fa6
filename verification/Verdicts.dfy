/**
 What a sweep concludes from silence and from overdue leases, and what a
 heartbeat settles: device by device and job by job, in seconds since the
 worker was last heard.
 */
module Verdicts {
  import opened Model
  import opened Transactions
  import opened Invariant
  import opened Effects
  import opened Ownership
  import opened Runs
  import opened Deadlines
  import Sweeping

  // ----- The sweep

  /** How long d's worker has not been heard. */
  function Silence(db: Db, d: string, now: int): int
    requires Staffed(db) && d in db.devices
  {
    now - db.workers[db.devices[d].worker].heartbeat
  }

  /** The sweep may end leases by their deadline, except that retained jobs keep theirs. */
  predicate Overdue(a: SweepArgs, now: int, x: Lease) {
    x.expires <= now && (a.retain ==> x.kind == HoldKind)
  }

  /** v as the sweep leaves it, given how long its worker has been silent and whether a lease on it was overdue. */
  ghost predicate Judgement(v: Device, x: Device, a: SweepArgs, now: int, silence: int, overdue: bool) {
    && x == v.(state := x.state, reason := x.reason)
    && (now >= a.holdOffUntil && silence >= a.unhealthyAfter ==>
          x.state == Unhealthy && x.reason == if v.state == Unhealthy then v.reason else WorkerLost)
    && (now >= a.holdOffUntil && silence < a.unhealthyAfter && overdue ==>
          x.state == Unhealthy && x.reason == if v.state == Unhealthy then v.reason else LeaseExpired)
    && (now < a.holdOffUntil || (silence < a.unhealthyAfter && !overdue) ==>
          && (silence >= a.grace && (v.state == Ready || v.state == Busy) ==> x.state == Unknown && x.reason == NoReason)
          && (silence < a.grace || v.state == Unknown || v.state == Unhealthy ==> x == v))
  }

  /** An active job, its lease and its device: the job is lost with its worker or with its lease, or all is as it was. */
  lemma SweepJudgesJob(db: Db, a: SweepArgs, now: int, j: string, l: nat)
    requires Valid(db) && Staffed(db) && Active(db, j) && HeldBy(db, l, j)
    ensures db.jobs[j].device in db.devices
    ensures var x, d := Transactions.Sweep(db, a, now), db.jobs[j].device;
            var due := Overdue(a, now, db.leases[l]);
            && j in x.jobs && l in x.leases && d in x.devices
            && Judgement(db.devices[d], x.devices[d], a, now, Silence(db, d, now), due)
            && (now >= a.holdOffUntil && !a.retain && Silence(db, d, now) >= a.unhealthyAfter ==>
                  x.jobs[j] == db.jobs[j].(state := Lost, killReason := "worker lost", finishedAt := now))
            && (now >= a.holdOffUntil && (a.retain || Silence(db, d, now) < a.unhealthyAfter) && due ==>
                  x.jobs[j] == db.jobs[j].(state := Lost, killReason := "lease expired", finishedAt := now))
            && (now < a.holdOffUntil || ((a.retain || Silence(db, d, now) < a.unhealthyAfter) && !due) ==> x.jobs[j] == db.jobs[j])
            && x.leases[l] == db.leases[l].(live := x.jobs[j].state.Active())
  {
    assert LeaseOk(db, l) && JobOk(db, j);
    LapsedForMeansStale(db, a, now, l);
    LapsedOnMeansStale(db, a, now, l);
    hide Valid, LapsedFor, LapsedOn, LeaseOk, JobOk;
  }

  lemma LapsedOnMeansStale(db: Db, a: SweepArgs, now: int, l: nat)
    requires Valid(db) && l in db.leases && db.leases[l].live
    ensures LapsedOn(db, a, now, db.leases[l].device) <==> Stale(db, a, now, l)
  {
    hide Reaped, LeaseOk, DeviceOk, JobOk;
    if LapsedOn(db, a, now, db.leases[l].device) {
      var k :| k in db.leases && Stale(db, a, now, k) && db.leases[k].device == db.leases[l].device;
      assert Distinct(db, k, l);
    }
  }

  /** A device with no live lease is judged by its worker's silence alone. */
  lemma SweepJudgesDevice(db: Db, a: SweepArgs, now: int, d: string)
    requires Staffed(db) && d in db.devices && !Leased(db, d)
    ensures d in Transactions.Sweep(db, a, now).devices
    ensures Judgement(db.devices[d], Transactions.Sweep(db, a, now).devices[d], a, now, Silence(db, d, now), false)
  {
    assert !LapsedOn(db, a, now, d);
    hide LapsedOn, Leased;
  }

  /** Nothing else changes in a sweep. */
  lemma SweepSparesTheRest(db: Db, a: SweepArgs, now: int)
    requires Valid(db)
    ensures var x := Transactions.Sweep(db, a, now);
            && x == db.(devices := x.devices, jobs := x.jobs, leases := x.leases)
            && x.devices.Keys == db.devices.Keys && x.jobs.Keys == db.jobs.Keys && x.leases.Keys == db.leases.Keys
            && (forall j :: j in db.jobs && !Active(db, j) ==> x.jobs[j] == db.jobs[j])
            && (forall l :: l in db.leases && !db.leases[l].live ==> x.leases[l] == db.leases[l])
  {
    hide WrittenOff, LapsedFor;
  }

  lemma SilentWorkerLosesAll(db: Db, a: SweepArgs, now: int, d: string)
    requires Valid(db) && Staffed(db) && d in db.devices
    requires now >= a.holdOffUntil && Silence(db, d, now) >= a.unhealthyAfter
    ensures var x := Transactions.Sweep(db, a, now);
            && d in x.devices && x.devices[d].state == Unhealthy
            && (!a.retain ==> forall j :: !(Active(x, j) && x.jobs[j].device == d))
  {
    var x := Transactions.Sweep(db, a, now);
    SweepSparesTheRest(db, a, now);
    hide Valid, Transactions.Sweep, Staffed;
    forall j | Active(db, j) && db.jobs[j].device == d
      ensures x.devices[d].state == Unhealthy && (!a.retain ==> x.jobs[j].state == Lost)
    {
      var l := LeaseOf(db, j);
      SweepJudgesJob(db, a, now, j, l);
    }
    if !Leased(db, d) {
      SweepJudgesDevice(db, a, now, d);
    } else {
      var l := HolderOf(db, d);
      assert Active(db, db.leases[l].job) && db.jobs[db.leases[l].job].device == d;
    }
    forall j | j in db.jobs && !a.retain ensures !(Active(x, j) && x.jobs[j].device == d) { SweptJobMovesNot(db, a, now, j); }
  }

  lemma SweptJobMovesNot(db: Db, a: SweepArgs, now: int, j: string)
    requires j in db.jobs
    ensures j in Transactions.Sweep(db, a, now).jobs && Transactions.Sweep(db, a, now).jobs[j].device == db.jobs[j].device
  {
  }

  // ----- What the sweep lists

  /**
   The sweep's lists, told without its bookkeeping: who fell silent for how
   long, which jobs ended with their worker and which with their lease, each once.
   */
  lemma ReportsAreOutcomes(db: Db, a: SweepArgs, now: int, res: Sweeping.SweepResult, d: string, j: string)
    requires Valid(db) && Staffed(db) && Sweeping.Reports(db, a, now, res) && d in db.devices && j in db.jobs
    ensures multiset(res.devicesUnhealthy)[d] ==
            if now >= a.holdOffUntil && Silence(db, d, now) >= a.unhealthyAfter && db.devices[d].state != Unhealthy then 1 else 0
    ensures multiset(res.devicesUnknown)[d] ==
            if && (now < a.holdOffUntil || Silence(db, d, now) < a.unhealthyAfter) && Silence(db, d, now) >= a.grace
               && (db.devices[d].state == Ready || db.devices[d].state == Busy) then 1 else 0
    ensures var x := Transactions.Sweep(db, a, now);
            && j in x.jobs
            && multiset(res.jobsLost)[j] ==
               (if Active(db, j) && x.jobs[j].state == Lost && x.jobs[j].killReason == "worker lost" then 1 else 0)
            && multiset(res.leasesExpired)[Sweeping.OfJob(j)] ==
               (if Active(db, j) && x.jobs[j].state == Lost && x.jobs[j].killReason == "lease expired" then 1 else 0)
  {
    Sweeping.UnhealthyMembers(db, a, now, res, d);
    Sweeping.JobCounts(db, a, now, res, j);
    UnknownCount(db, a, now, res, d);
    hide Valid, Sweeping.Reports, LapsedFor, LapsedOn;
    assert "worker lost"[0] != "lease expired"[0];
  }

  /** A lease of no job, which only a table from elsewhere could hold, is listed as itself when it is overdue. */
  lemma LooseLeaseIsListed(db: Db, a: SweepArgs, now: int, res: Sweeping.SweepResult, l: nat)
    requires Sweeping.Reports(db, a, now, res) && l in db.leases && db.leases[l].job == "" && "" !in db.jobs
    ensures multiset(res.leasesExpired)[Sweeping.OfLease(l)] ==
            if now >= a.holdOffUntil && db.leases[l].live && Overdue(a, now, db.leases[l]) then 1 else 0
  {
    hide Sweeping.Expires, WrittenOff;
  }

  lemma UnknownCount(db: Db, a: SweepArgs, now: int, res: Sweeping.SweepResult, d: string)
    requires Sweeping.Reports(db, a, now, res)
    ensures multiset(res.devicesUnknown)[d] == if Sweeping.NewlyUnknown(db, a, now, d) then 1 else 0
  {
  }

  // ----- Silence over a run

  /** The controller hears worker w in this step. */
  predicate Hears(db: Db, e: Event, w: string) {
    (e.op.Beat? && e.op.worker == w && w in db.workers) || (e.op.Register? && e.op.host == w && w != "")
  }

  lemma HearingStep(db: Db, e: Event, w: string)
    ensures Hears(db, e, w) ==> w in Apply(db, e).workers && Apply(db, e).workers[w].heartbeat == e.now
    ensures !Hears(db, e, w) && w in db.workers ==> w in Apply(db, e).workers && Apply(db, e).workers[w] == db.workers[w]
  {
    hide Upsert;
    if e.op.Beat? {
      HeartbeatSparesTheRest(db, e.op.worker, e.op.running, e.op.retain, e.now);
      hide Heartbeat;
    } else if e.op.Register? {
      UpsertKeeps(db, e.op.host, e.op.boot, DeviceIds(e.op.host, e.op.names), e.now);
    } else {
      StepLeaves(db, e);
      hide Apply;
    }
  }

  lemma {:induction false} HeardLast(es: Run, m: nat, n: nat, w: string)
    requires m < n <= |es| && Hears(After(EMPTY_DB, es, m), es[m], w)
    requires forall i :: m < i < n ==> !Hears(After(EMPTY_DB, es, i), es[i], w)
    ensures w in After(EMPTY_DB, es, n).workers && After(EMPTY_DB, es, n).workers[w].heartbeat == es[m].now
  {
    hide Apply, Hears;
    HearingStep(After(EMPTY_DB, es, n - 1), es[n - 1], w);
    if m < n - 1 { HeardLast(es, m, n - 1, w); }
  }

  /**
   In every run from empty tables: a judging sweep that comes unhealthyAfter
   or more after a worker was last heard takes each of its devices out and,
   unless disconnected jobs are retained, leaves no active job there.
   */
  lemma SilentWorkersAreWrittenOff(es: Run, m: nat, n: nat, w: string, d: string)
    requires (forall i :: 0 <= i < |es| ==> PlainHost(es[i])) && m < n < |es|
    requires Hears(After(EMPTY_DB, es, m), es[m], w) && forall i :: m < i < n ==> !Hears(After(EMPTY_DB, es, i), es[i], w)
    requires d in After(EMPTY_DB, es, n).devices && After(EMPTY_DB, es, n).devices[d].worker == w
    requires es[n].op.Sweep? && es[n].now >= es[n].op.args.holdOffUntil && es[n].now - es[m].now >= es[n].op.args.unhealthyAfter
    ensures var x := After(EMPTY_DB, es, n + 1);
            && d in x.devices && x.devices[d].state == Unhealthy
            && (!es[n].op.args.retain ==> forall j :: !(Active(x, j) && x.jobs[j].device == d))
  {
    hide Hears, PlainHost, Sound;
    EmptyIsSound();
    RunIsSound(EMPTY_DB, es, n);
    RunIsStaffed(es, n);
    HeardLast(es, m, n, w);
    SweepEventSilences(After(EMPTY_DB, es, n), es[n], d);
    hide Apply;
  }

  lemma SweepEventSilences(db: Db, e: Event, d: string)
    requires Sound(db) && Staffed(db) && e.op.Sweep? && d in db.devices
    requires e.now >= e.op.args.holdOffUntil && Silence(db, d, e.now) >= e.op.args.unhealthyAfter
    ensures d in Apply(db, e).devices && Apply(db, e).devices[d].state == Unhealthy
    ensures !e.op.args.retain ==> forall j :: !(Active(Apply(db, e), j) && Apply(db, e).jobs[j].device == d)
  {
    hide Valid, Transactions.Sweep;
    SilentWorkerLosesAll(db, e.op.args, e.now, d);
  }

  // ----- Heartbeats

  /** Of a leased device and its job: a named job is renewed for 900 s and has its device back; an unnamed one keeps the deadline it had. */
  lemma HeartbeatSettlesJob(db: Db, w: string, running: set<string>, retain: bool, now: int, j: string, l: nat)
    requires Valid(db) && Active(db, j) && db.jobs[j].worker == w && HeldBy(db, l, j)
    ensures db.jobs[j].device in db.devices
    ensures var x, d := Heartbeat(db, w, running, retain, now), db.jobs[j].device;
            var v := db.devices[d];
            && j in x.jobs && x.jobs[j] == db.jobs[j] && l in x.leases && d in x.devices
            && x.leases[l] == (if j in running then db.leases[l].(expires := now + 900) else db.leases[l])
            && (j in running && v.state == Unhealthy && v.reason == WorkerLost ==>
                  x.devices[d] == v.(state := Busy, reason := NoReason, detail := ""))
            && (v.state == Unknown && (j in running || !retain) ==> x.devices[d] == v.(state := Busy))
            && (v.state == Unknown && j !in running && retain ==> x.devices[d] == v)
            && (v.state == Ready || v.state == Busy ==> x.devices[d] == v)
            && (v.state == Unhealthy && (j !in running || v.reason != WorkerLost) ==> x.devices[d] == v)
  {
    assert LeaseOk(db, l) && JobOk(db, j);
    OnlyJobOn(db, w, running, j, l);
    hide Valid, NamedOn, NamedHolding, LeaseOk, JobOk, KillPending;
  }

  /** The holder of a device is the one job that can be named on it. */
  lemma OnlyJobOn(db: Db, w: string, running: set<string>, j: string, l: nat)
    requires Valid(db) && Active(db, j) && db.jobs[j].worker == w && HeldBy(db, l, j)
    ensures NamedOn(db, w, running, db.jobs[j].device) <==> j in running
    ensures NamedHolding(db, w, running, db.jobs[j].device) <==> j in running
    ensures Leased(db, db.jobs[j].device)
  {
    var d := db.jobs[j].device;
    assert LeaseOk(db, l);
    forall i | Active(db, i) && db.jobs[i].device == d ensures i == j { OneJobPerDevice(db, i, j); }
    hide Valid, LeaseOk;
    if j in running { assert Named(db, w, running, j); }
  }

  /** A device of the worker with no live lease: an unknown one is free again unless a finalised kill of a job it still names is pending. */
  lemma HeartbeatSettlesDevice(db: Db, w: string, running: set<string>, retain: bool, now: int, d: string)
    requires Valid(db) && d in db.devices && db.devices[d].worker == w && !Leased(db, d)
    ensures var x, v := Heartbeat(db, w, running, retain, now), db.devices[d];
            && d in x.devices
            && var pending := exists j :: j in db.jobs && j in running && db.jobs[j].worker == w && db.jobs[j].state == Killed
                                          && db.jobs[j].killRequested && db.jobs[j].device == d;
               x.devices[d] == if v.state == Unknown && !pending then v.(state := Ready) else v
  {
    NobodyOn(db, d);
    hide Valid, Leased;
  }

  lemma NobodyOn(db: Db, d: string)
    requires Valid(db) && !Leased(db, d)
    ensures forall j :: !(Active(db, j) && db.jobs[j].device == d)
  {
    forall j | Active(db, j) ensures Leased(db, db.jobs[j].device) { var l := LeaseOf(db, j); }
  }

  /** Nothing else changes in a heartbeat, but that a killed job no longer named loses its flag and the worker counts as heard. */
  lemma HeartbeatSparesTheRest(db: Db, w: string, running: set<string>, retain: bool, now: int)
    ensures var x := Heartbeat(db, w, running, retain, now);
            && x == db.(workers := x.workers, devices := x.devices, jobs := x.jobs, leases := x.leases)
            && x.workers == (if w in db.workers then db.workers[w := Worker(db.workers[w].boot, now)] else db.workers)
            && x.devices.Keys == db.devices.Keys && x.jobs.Keys == db.jobs.Keys && x.leases.Keys == db.leases.Keys
            && (forall d :: d in db.devices && db.devices[d].worker != w ==> x.devices[d] == db.devices[d])
            && (forall j :: j in db.jobs ==>
                  x.jobs[j] == if db.jobs[j].worker == w && db.jobs[j].state == Killed && j !in running
                               then db.jobs[j].(killRequested := false) else db.jobs[j])
            && (forall l :: l in db.leases && !(db.leases[l].live && Active(db, db.leases[l].job) && db.jobs[db.leases[l].job].worker == w) ==>
                  x.leases[l] == db.leases[l])
  {
    hide BeatDevice;
    forall d | d in db.devices && db.devices[d].worker != w ensures BeatDevice(db, w, running, retain, d) == db.devices[d] {
      BeatElsewhere(db, w, running, retain, d);
    }
  }

  lemma BeatElsewhere(db: Db, w: string, running: set<string>, retain: bool, d: string)
    requires d in db.devices && db.devices[d].worker != w
    ensures BeatDevice(db, w, running, retain, d) == db.devices[d]
  {
  }

  // ----- One after the other

  /**
   Disconnected jobs retained: a sweep that writes the worker off and the
   heartbeat that names the job when the worker is back leave the job as it
   was, its device busy and its lease due in 900 s.
   */
  lemma RetainedJobResumes(db: Db, a: SweepArgs, t: int, running: set<string>, now: int, j: string, l: nat)
    requires Valid(db) && Staffed(db) && a.retain
    requires Active(db, j) && HeldBy(db, l, j) && db.leases[l].kind == JobKind && j in running
    requires db.jobs[j].device in db.devices
    requires var v := db.devices[db.jobs[j].device]; v.state == Unhealthy ==> v.reason == WorkerLost
    ensures var x := Heartbeat(Transactions.Sweep(db, a, t), db.jobs[j].worker, running, true, now);
            && j in x.jobs && x.jobs[j] == db.jobs[j]
            && db.jobs[j].device in x.devices && x.devices[db.jobs[j].device].state == Busy
            && HeldBy(x, l, j) && x.leases[l].expires == now + 900
  {
    hide Valid, Transactions.Sweep, Heartbeat, Staffed, Judgement;
    SweepKeepsValid(db, a, t);
    SweepJudgesJob(db, a, t, j, l);
    var y := Transactions.Sweep(db, a, t);
    ValidDeviceState(db, j, l);
    JudgedDevice(db.devices[db.jobs[j].device], y.devices[db.jobs[j].device], a, t, Silence(db, db.jobs[j].device, t));
    HeartbeatSettlesJob(y, db.jobs[j].worker, running, true, now, j, l);
  }

  lemma JudgedDevice(v: Device, x: Device, a: SweepArgs, now: int, silence: int)
    requires Judgement(v, x, a, now, silence, false) && v.state != Ready && (v.state == Unhealthy ==> v.reason == WorkerLost)
    ensures x.state == Busy || x.state == Unknown || (x.state == Unhealthy && x.reason == WorkerLost)
  {
  }

  /** A leased device is not ready. */
  lemma ValidDeviceState(db: Db, j: string, l: nat)
    requires Valid(db) && Active(db, j) && HeldBy(db, l, j)
    ensures db.jobs[j].device in db.devices && db.devices[db.jobs[j].device].state != Ready
  {
    assert LeaseOk(db, l) && DeviceOk(db, db.jobs[j].device);
  }
}
