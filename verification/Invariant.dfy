/**
 The lease state machine's invariant, and why no device is ever handed to two
 jobs: every transaction keeps it, whatever the interleaving, and it never
 needs the partial unique index on the leases table.

 Each clause is a predicate of one row (or one pair of rows), so a proof names
 the rows it looks at.
 */
module Invariant {
  import opened Model
  import opened Transactions

  // ----- The invariant

  /** A live lease is the lease of an active job, on that job's device, whose worker is the device's. */
  ghost predicate LeaseHasJob(db: Db, l: nat)
    requires l in db.leases
  {
    var x := db.leases[l];
    && Active(db, x.job) && db.jobs[x.job].device == x.device
    && x.device in db.devices && db.devices[x.device].worker == db.jobs[x.job].worker
  }

  ghost predicate LeaseOk(db: Db, l: nat) {
    l in db.leases ==>
      && l < db.nextLease
      && db.leases[l].job in db.jobs && !db.jobs[db.leases[l].job].state.Queued?
      && (db.leases[l].live ==> LeaseHasJob(db, l))
  }

  /** A job is granted one lease in its life; a device has one live lease at a time. */
  ghost predicate Distinct(db: Db, k: nat, l: nat) {
    k in db.leases && l in db.leases
    && (|| db.leases[k].job == db.leases[l].job
        || (db.leases[k].live && db.leases[l].live && db.leases[k].device == db.leases[l].device))
    ==> k == l
  }

  ghost predicate JobOk(db: Db, j: string) {
    j in db.jobs ==>
      && j != ""
      && (db.jobs[j].state.Queued? ==> db.jobs[j].worker == "")
      && (db.jobs[j].state.Active() ==> exists l :: HeldBy(db, l, j))
  }

  /** What a device row may say, given whether a live lease is on the device. */
  ghost predicate RowOk(v: Device, leased: bool) {
    && (v.state.Ready? ==> !leased)
    && (v.state.Busy? ==> leased)
    && (!v.state.Unhealthy? ==> v.reason == NoReason)
    && (v.detail != "" ==> v.state.Unhealthy? && v.reason == Fault)
    && (v.reason == LeaseExpired ==> !leased)
  }

  ghost predicate DeviceOk(db: Db, d: string) {
    d in db.devices ==> RowOk(db.devices[d], Leased(db, d))
  }

  ghost predicate Valid(db: Db) {
    && (forall l :: LeaseOk(db, l))
    && (forall k, l :: Distinct(db, k, l))
    && (forall j :: JobOk(db, j))
    && (forall d :: DeviceOk(db, d))
  }

  lemma EmptyIsValid()
    ensures Valid(EMPTY_DB)
  {
  }

  /** The job behind a live lease. */
  lemma HolderOf(db: Db, d: string) returns (l: nat)
    requires Valid(db) && Leased(db, d)
    ensures l in db.leases && db.leases[l].live && db.leases[l].device == d && LeaseHasJob(db, l)
  {
    l :| l in db.leases && db.leases[l].live && db.leases[l].device == d;
    assert LeaseOk(db, l);
  }

  /** The lease behind an active job. */
  lemma LeaseOf(db: Db, j: string) returns (l: nat)
    requires Valid(db) && Active(db, j)
    ensures HeldBy(db, l, j) && LeaseHasJob(db, l) && Leased(db, db.jobs[j].device)
  {
    assert JobOk(db, j);
    l :| HeldBy(db, l, j);
    assert LeaseOk(db, l);
  }

  // ----- What it promises

  lemma OneJobPerDevice(db: Db, i: string, j: string)
    requires Valid(db) && Active(db, i) && Active(db, j) && db.jobs[i].device == db.jobs[j].device
    ensures i == j
  {
    var k := LeaseOf(db, i);
    var l := LeaseOf(db, j);
    assert Distinct(db, k, l);
  }

  lemma JobsDevice(db: Db, j: string)
    requires Valid(db) && Active(db, j)
    ensures var d := db.jobs[j].device;
            && d in db.devices && !db.devices[d].state.Ready? && db.devices[d].worker == db.jobs[j].worker && Leased(db, d)
  {
    var l := LeaseOf(db, j);
    assert DeviceOk(db, db.jobs[j].device);
  }

  /** At most one active job per device, none on a ready one, exactly one on a busy one; leases and active jobs in bijection. */
  lemma ValidIsExclusive(db: Db)
    requires Valid(db)
    ensures forall i, j :: Active(db, i) && Active(db, j) && db.jobs[i].device == db.jobs[j].device ==> i == j
    ensures forall j :: Active(db, j) ==>
              var d := db.jobs[j].device;
              d in db.devices && !db.devices[d].state.Ready? && db.devices[d].worker == db.jobs[j].worker
    ensures forall d :: d in db.devices && db.devices[d].state.Busy? ==> exists j :: Active(db, j) && db.jobs[j].device == d
    ensures forall j :: Active(db, j) ==> exists l :: HeldBy(db, l, j)
    ensures forall l :: l in db.leases && db.leases[l].live ==> Active(db, db.leases[l].job)
    ensures forall j, k, l :: HeldBy(db, k, j) && HeldBy(db, l, j) ==> k == l
  {
    forall i, j | Active(db, i) && Active(db, j) && db.jobs[i].device == db.jobs[j].device ensures i == j {
      OneJobPerDevice(db, i, j);
    }
    forall j | Active(db, j)
      ensures var d := db.jobs[j].device;
              d in db.devices && !db.devices[d].state.Ready? && db.devices[d].worker == db.jobs[j].worker
      ensures exists l :: HeldBy(db, l, j)
    {
      JobsDevice(db, j);
      var l := LeaseOf(db, j);
    }
    forall d | d in db.devices && db.devices[d].state.Busy? ensures exists j :: Active(db, j) && db.jobs[j].device == d {
      assert DeviceOk(db, d);
      var l := HolderOf(db, d);
    }
    forall l | l in db.leases && db.leases[l].live ensures Active(db, db.leases[l].job) { assert LeaseOk(db, l); }
    forall j, k, l | HeldBy(db, k, j) && HeldBy(db, l, j) ensures k == l { assert Distinct(db, k, l); }
  }

  // ----- One lemma for every step that only ends jobs

  /** l is e's row for a lease of db: live exactly if it was and its job is still active; only a dead lease may be dropped. */
  ghost predicate KeepsLease(db: Db, e: Db, l: nat) {
    && (l in e.leases ==>
          && l in db.leases
          && e.leases[l].device == db.leases[l].device && e.leases[l].job == db.leases[l].job
          && (e.leases[l].live <==> db.leases[l].live && Active(e, db.leases[l].job)))
    && (l in db.leases && db.leases[l].live && Active(e, db.leases[l].job) ==> l in e.leases)
  }

  /** e's job j is db's, not revived and not moved; a new one is queued. */
  ghost predicate KeepsJob(db: Db, e: Db, j: string) {
    && (j in db.jobs ==>
          && j in e.jobs
          && (e.jobs[j].state.Queued? ==> db.jobs[j].state.Queued? && e.jobs[j].worker == db.jobs[j].worker)
          && (e.jobs[j].state.Active() ==>
                && db.jobs[j].state.Active()
                && e.jobs[j].device == db.jobs[j].device && e.jobs[j].worker == db.jobs[j].worker))
    && (j in e.jobs && j !in db.jobs ==> j != "" && e.jobs[j].state.Queued? && e.jobs[j].worker == "")
  }

  /** A device that still carries a live lease is still there, still its worker's. */
  ghost predicate KeepsHeld(db: Db, e: Db, d: string) {
    d in db.devices && Leased(e, d) ==> d in e.devices && e.devices[d].worker == db.devices[d].worker
  }

  ghost predicate Shrinks(db: Db, e: Db) {
    && e.nextLease == db.nextLease
    && (forall l :: KeepsLease(db, e, l))
    && (forall j :: KeepsJob(db, e, j))
    && (forall d :: KeepsHeld(db, e, d))
  }

  lemma ShrunkLease(db: Db, e: Db, l: nat)
    requires Valid(db) && Shrinks(db, e)
    ensures LeaseOk(e, l)
  {
    assert KeepsLease(db, e, l) && LeaseOk(db, l);
    if l in e.leases {
      assert KeepsJob(db, e, db.leases[l].job);
      if e.leases[l].live {
        assert Leased(e, e.leases[l].device);
        assert KeepsHeld(db, e, e.leases[l].device);
      }
    }
  }

  lemma ShrunkJob(db: Db, e: Db, j: string)
    requires Valid(db) && Shrinks(db, e)
    ensures JobOk(e, j)
  {
    assert KeepsJob(db, e, j) && JobOk(db, j);
    if Active(e, j) {
      var l := LeaseOf(db, j);
      assert KeepsLease(db, e, l);
      assert HeldBy(e, l, j);
    }
  }

  lemma ShrunkPair(db: Db, e: Db, k: nat, l: nat)
    requires Valid(db) && Shrinks(db, e)
    ensures Distinct(e, k, l)
  {
    assert KeepsLease(db, e, k) && KeepsLease(db, e, l) && Distinct(db, k, l);
  }

  /** A step that ends jobs and their leases together keeps the invariant, given its device rows. */
  lemma ShrinkKeepsValid(db: Db, e: Db)
    requires Valid(db) && Shrinks(db, e)
    requires forall d :: DeviceOk(e, d)
    ensures Valid(e)
  {
    forall l ensures LeaseOk(e, l) { ShrunkLease(db, e, l); }
    forall j ensures JobOk(e, j) { ShrunkJob(db, e, j); }
    forall k, l ensures Distinct(e, k, l) { ShrunkPair(db, e, k, l); }
  }

  lemma LeasedShrinks(db: Db, e: Db, d: string)
    requires forall l :: KeepsLease(db, e, l)
    requires Leased(e, d)
    ensures Leased(db, d)
  {
    var l :| l in e.leases && e.leases[l].live && e.leases[l].device == d;
    assert KeepsLease(db, e, l);
  }

  /** A device stays leased as long as its job stays active. */
  lemma LeasedStays(db: Db, e: Db, l: nat)
    requires KeepsLease(db, e, l)
    requires l in db.leases && db.leases[l].live && Active(e, db.leases[l].job)
    ensures Leased(e, db.leases[l].device)
  {
    assert l in e.leases && e.leases[l].live;
  }

  /** Ending an active job frees its device of leases. */
  lemma EndingFrees(db: Db, e: Db, j: string)
    requires Valid(db) && (forall l :: KeepsLease(db, e, l)) && Active(db, j) && !Active(e, j)
    ensures !Leased(e, db.jobs[j].device)
  {
    var d := db.jobs[j].device;
    if Leased(e, d) {
      var l :| l in e.leases && e.leases[l].live && e.leases[l].device == d;
      assert KeepsLease(db, e, l) && LeaseOk(db, l);
      OneJobPerDevice(db, j, db.leases[l].job);
    }
  }

  /** If no job was ended, exactly the same devices are leased. */
  lemma SameLeased(db: Db, e: Db, d: string)
    requires Valid(db) && (forall l :: KeepsLease(db, e, l))
    requires forall j :: Active(db, j) ==> Active(e, j)
    ensures Leased(e, d) <==> Leased(db, d)
  {
    if Leased(e, d) { LeasedShrinks(db, e, d); }
    if Leased(db, d) {
      var l := HolderOf(db, d);
      assert KeepsLease(db, e, l);
      LeasedStays(db, e, l);
    }
  }

  /** Steps that end nothing and touch no device row. */
  lemma QuietKeepsValid(db: Db, e: Db)
    requires Valid(db) && Shrinks(db, e) && e.devices == db.devices
    requires forall j :: Active(db, j) ==> Active(e, j)
    ensures Valid(e)
  {
    forall d ensures DeviceOk(e, d) {
      assert DeviceOk(db, d);
      SameLeased(db, e, d);
    }
    ShrinkKeepsValid(db, e);
  }

  /** The same leases and jobs: only device rows changed. */
  lemma RowsKeepValid(db: Db, e: Db)
    requires Valid(db) && e.leases == db.leases && e.jobs == db.jobs && e.nextLease == db.nextLease
    requires forall d :: d in db.devices && Leased(db, d) ==> d in e.devices && e.devices[d].worker == db.devices[d].worker
    requires forall d :: d in e.devices ==> RowOk(e.devices[d], Leased(db, d))
    ensures Valid(e)
  {
    forall l ensures KeepsLease(db, e, l) { assert LeaseOk(db, l); }
    forall j ensures KeepsJob(db, e, j) {}
    forall d ensures KeepsHeld(db, e, d) && DeviceOk(e, d) { assert Leased(e, d) <==> Leased(db, d); }
    ShrinkKeepsValid(db, e);
  }

  // ----- Assignment

  lemma AssignedLease(db: Db, j: string, d: string, now: int, l: nat)
    requires Valid(db) && AssignOutcomeOf(db, j, d) == Placed
    ensures LeaseOk(Assign(db, j, d, now), l)
  {
    assert LeaseOk(db, l);
  }

  lemma AssignedPair(db: Db, j: string, d: string, now: int, k: nat, l: nat)
    requires Valid(db) && AssignOutcomeOf(db, j, d) == Placed
    ensures Distinct(Assign(db, j, d, now), k, l)
  {
    assert Distinct(db, k, l) && DeviceOk(db, d) && LeaseOk(db, k) && LeaseOk(db, l);
  }

  lemma AssignedJob(db: Db, j: string, d: string, now: int, i: string)
    requires Valid(db) && AssignOutcomeOf(db, j, d) == Placed
    ensures JobOk(Assign(db, j, d, now), i)
  {
    var e := Assign(db, j, d, now);
    assert JobOk(db, i);
    if i == j {
      assert HeldBy(e, db.nextLease, j);
    } else if Active(db, i) {
      var l := LeaseOf(db, i);
      assert LeaseOk(db, l);
      assert HeldBy(e, l, i);
    }
  }

  lemma AssignedLeased(db: Db, j: string, d: string, now: int, x: string)
    requires Valid(db) && AssignOutcomeOf(db, j, d) == Placed
    ensures Leased(Assign(db, j, d, now), x) <==> x == d || Leased(db, x)
  {
    var e, n := Assign(db, j, d, now), db.nextLease;
    assert LeaseOk(db, n);
    assert e.leases[n].live && e.leases[n].device == d;
    if Leased(db, x) {
      var l :| l in db.leases && db.leases[l].live && db.leases[l].device == x;
      assert l in e.leases && e.leases[l] == db.leases[l];
    }
    if Leased(e, x) && x != d {
      var l :| l in e.leases && e.leases[l].live && e.leases[l].device == x;
      assert l in db.leases;
    }
  }

  lemma AssignKeepsValid(db: Db, j: string, d: string, now: int)
    requires Valid(db)
    ensures Valid(Assign(db, j, d, now))
  {
    if AssignOutcomeOf(db, j, d) == Placed {
      var e := Assign(db, j, d, now);
      forall l ensures LeaseOk(e, l) { AssignedLease(db, j, d, now, l); }
      forall k, l ensures Distinct(e, k, l) { AssignedPair(db, j, d, now, k, l); }
      forall i ensures JobOk(e, i) { AssignedJob(db, j, d, now, i); }
      forall x ensures DeviceOk(e, x) {
        assert DeviceOk(db, x);
        AssignedLeased(db, j, d, now, x);
      }
    }
  }

  // ----- Release

  /** The one condition under which a release frees hardware it should not. */
  ghost predicate ReleasesAnothers(db: Db, j: string, state: JobState) {
    && state.Terminal() && j in db.jobs && db.jobs[j].state.Queued?
    && db.jobs[j].device in db.devices && db.devices[db.jobs[j].device].state.Busy?
  }

  predicate Releasable(db: Db, j: string, state: JobState) {
    state.Terminal() && j in db.jobs && !db.jobs[j].state.Terminal()
  }

  lemma ReleaseShrinks(db: Db, j: string, state: JobState, reason: string, now: int)
    requires Valid(db) && Releasable(db, j, state)
    ensures Shrinks(db, Release(db, j, state, reason, now))
  {
    var e := Release(db, j, state, reason, now);
    forall l ensures KeepsLease(db, e, l) { assert LeaseOk(db, l); }
    forall i ensures KeepsJob(db, e, i) {}
    forall d ensures KeepsHeld(db, e, d) {}
  }

  lemma ReleasedDevice(db: Db, j: string, state: JobState, reason: string, now: int, d: string)
    requires Valid(db) && Releasable(db, j, state) && !ReleasesAnothers(db, j, state)
    ensures DeviceOk(Release(db, j, state, reason, now), d)
  {
    var e := Release(db, j, state, reason, now);
    ReleaseShrinks(db, j, state, reason, now);
    assert DeviceOk(db, d);
    if Leased(e, d) { LeasedShrinks(db, e, d); }
    if d in db.devices && db.devices[d].state.Busy? {
      if d == db.jobs[j].device {
        EndingFrees(db, e, j);
      } else {
        var l := HolderOf(db, d);
        assert KeepsLease(db, e, l);
        LeasedStays(db, e, l);
      }
    }
  }

  lemma WrongReleaseBreaks(db: Db, j: string, state: JobState, reason: string, now: int)
    requires Valid(db) && ReleasesAnothers(db, j, state)
    ensures !DeviceOk(Release(db, j, state, reason, now), db.jobs[j].device)
  {
    var e, d := Release(db, j, state, reason, now), db.jobs[j].device;
    ReleaseShrinks(db, j, state, reason, now);
    assert DeviceOk(db, d);
    var l := HolderOf(db, d);
    assert KeepsLease(db, e, l);
    LeasedStays(db, e, l);
  }

  /**
   Release keeps the invariant exactly when the job is not a queued one pinned
   to a busy device: that release would free another job's device.
   */
  lemma ReleaseKeepsValidIff(db: Db, j: string, state: JobState, reason: string, now: int)
    requires Valid(db)
    ensures Valid(Release(db, j, state, reason, now)) <==> !ReleasesAnothers(db, j, state)
  {
    if ReleasesAnothers(db, j, state) {
      WrongReleaseBreaks(db, j, state, reason, now);
    } else if Releasable(db, j, state) {
      var e := Release(db, j, state, reason, now);
      ReleaseShrinks(db, j, state, reason, now);
      forall d ensures DeviceOk(e, d) { ReleasedDevice(db, j, state, reason, now, d); }
      ShrinkKeepsValid(db, e);
    }
  }

  lemma MarkRunningKeepsValid(db: Db, j: string)
    requires Valid(db)
    ensures Valid(MarkRunning(db, j))
  {
    var e := MarkRunning(db, j);
    forall l ensures KeepsLease(db, e, l) { assert LeaseOk(db, l); }
    forall i ensures KeepsJob(db, e, i) {}
    forall d ensures KeepsHeld(db, e, d) {}
    QuietKeepsValid(db, e);
  }

  /** Behind the ownership guard the bad release cannot arise. */
  lemma ReportKeepsValid(db: Db, w: string, j: string, state: JobState, reason: string, now: int)
    requires Valid(db)
    ensures Valid(Report(db, w, j, state, reason, now))
  {
    assert JobOk(db, j);
    MarkRunningKeepsValid(db, j);
    ReleaseKeepsValidIff(db, j, state, reason, now);
  }

  // ----- Cancelling and killing

  lemma CancelKeepsValid(db: Db, j: string, reason: string, now: int)
    requires Valid(db)
    ensures Valid(CancelQueued(db, j, reason, now))
  {
    var e := CancelQueued(db, j, reason, now);
    forall l ensures KeepsLease(db, e, l) { assert LeaseOk(db, l); }
    forall i ensures KeepsJob(db, e, i) {}
    forall d ensures KeepsHeld(db, e, d) {}
    QuietKeepsValid(db, e);
  }

  lemma FinalizedLease(db: Db, e: Db, j: string, l: nat)
    requires Valid(db) && Active(db, j)
    requires e.leases == ReleasedFor(db.leases, {j})
    requires j in e.jobs && !e.jobs[j].state.Active() && forall i :: i != j ==> (Active(e, i) <==> Active(db, i))
    ensures KeepsLease(db, e, l)
  {
    assert LeaseOk(db, l);
  }

  lemma KillShrinks(db: Db, j: string, reason: string, finalize: bool, now: int)
    requires Valid(db)
    ensures Shrinks(db, RequestKill(db, j, reason, finalize, now))
  {
    var e := RequestKill(db, j, reason, finalize, now);
    forall l ensures KeepsLease(db, e, l) {
      if KillOutcomeOf(db, j, finalize) == Finalized {
        FinalizedLease(db, e, j, l);
      } else {
        assert LeaseOk(db, l);
        assert e.leases == db.leases;
      }
    }
    forall i ensures KeepsJob(db, e, i) {}
    forall d ensures KeepsHeld(db, e, d) {}
  }

  lemma KillKeepsValid(db: Db, j: string, reason: string, finalize: bool, now: int)
    requires Valid(db)
    ensures Valid(RequestKill(db, j, reason, finalize, now))
  {
    var e := RequestKill(db, j, reason, finalize, now);
    KillShrinks(db, j, reason, finalize, now);
    forall d ensures DeviceOk(e, d) {
      assert DeviceOk(db, d);
      if Leased(e, d) { LeasedShrinks(db, e, d); }
      if d in db.devices && db.devices[d].state.Busy? {
        var l := HolderOf(db, d);
        assert KeepsLease(db, e, l);
        LeasedStays(db, e, l);
      }
    }
    ShrinkKeepsValid(db, e);
  }

  lemma TakeKillsKeepsValid(db: Db, w: string, now: int)
    requires Valid(db)
    ensures Valid(TakeKills(db, w, now))
  {
    var e := TakeKills(db, w, now);
    forall l ensures KeepsLease(db, e, l) { assert LeaseOk(db, l); }
    forall i ensures KeepsJob(db, e, i) {}
    forall d ensures KeepsHeld(db, e, d) {}
    QuietKeepsValid(db, e);
  }

  // ----- The sweep

  /** A job has one lease, so its lease lapses exactly when one of its leases does. */
  lemma LapsedForMeansStale(db: Db, a: SweepArgs, now: int, l: nat)
    requires Valid(db) && l in db.leases && db.leases[l].live
    ensures Active(db, db.leases[l].job)
    ensures LapsedFor(db, a, now, db.leases[l].job) <==> Stale(db, a, now, l)
  {
    assert LeaseOk(db, l) && JobOk(db, db.leases[l].job);
    hide Reaped, LeaseOk, DeviceOk;
    if LapsedFor(db, a, now, db.leases[l].job) {
      var k :| k in db.leases && Stale(db, a, now, k) && db.leases[k].job == db.leases[l].job;
      assert Distinct(db, k, l);
    }
  }

  lemma SweptLeaseKept(db: Db, a: SweepArgs, now: int, l: nat)
    requires Valid(db)
    ensures KeepsLease(db, Sweep(db, a, now), l)
  {
    hide Valid, LapsedFor, Stale, Reaped, SweptDevice;
    if l in db.leases && db.leases[l].live { LapsedForMeansStale(db, a, now, l); }
  }

  lemma SweepShrinks(db: Db, a: SweepArgs, now: int)
    requires Valid(db)
    ensures Shrinks(db, Sweep(db, a, now))
  {
    var e := Sweep(db, a, now);
    forall l ensures KeepsLease(db, e, l) { SweptLeaseKept(db, a, now, l); }
    forall i ensures KeepsJob(db, e, i) {}
    forall d ensures KeepsHeld(db, e, d) {}
  }

  lemma LapsedForMeansOn(db: Db, a: SweepArgs, now: int, l: nat)
    requires Valid(db) && l in db.leases && LapsedFor(db, a, now, db.leases[l].job)
    ensures LapsedOn(db, a, now, db.leases[l].device)
  {
    var k :| k in db.leases && Stale(db, a, now, k) && db.leases[k].job == db.leases[l].job;
    assert Distinct(db, k, l);
  }

  /** The lease of a device neither written off nor lapsed outlives the sweep. */
  lemma LeaseSurvives(db: Db, a: SweepArgs, now: int, d: string)
    requires Valid(db) && Leased(db, d) && !WrittenOff(db, a, now, d) && !LapsedOn(db, a, now, d)
    ensures Leased(Sweep(db, a, now), d)
  {
    var e := Sweep(db, a, now);
    var l := HolderOf(db, d);
    if LapsedFor(db, a, now, db.leases[l].job) { LapsedForMeansOn(db, a, now, l); }
    SweptLeaseKept(db, a, now, l);
    LeasedStays(db, e, l);
  }

  lemma SweptDeviceOk(db: Db, a: SweepArgs, now: int, d: string)
    requires Valid(db)
    ensures DeviceOk(Sweep(db, a, now), d)
  {
    var e := Sweep(db, a, now);
    SweepShrinks(db, a, now);
    assert DeviceOk(db, d);
    if d in db.devices {
      if Leased(e, d) { LeasedShrinks(db, e, d); }
      if LapsedOn(db, a, now, d) {
        var k :| k in db.leases && Stale(db, a, now, k) && db.leases[k].device == d;
        assert LeaseOk(db, k) && KeepsLease(db, e, k);
        EndingFrees(db, e, db.leases[k].job);
      } else if Leased(db, d) && !WrittenOff(db, a, now, d) {
        LeaseSurvives(db, a, now, d);
      }
    }
  }

  lemma SweepKeepsValid(db: Db, a: SweepArgs, now: int)
    requires Valid(db)
    ensures Valid(Sweep(db, a, now))
  {
    var e := Sweep(db, a, now);
    SweepShrinks(db, a, now);
    forall d ensures DeviceOk(e, d) { SweptDeviceOk(db, a, now, d); }
    ShrinkKeepsValid(db, e);
  }

  // ----- Heartbeats

  lemma BeatenDeviceOk(db: Db, w: string, running: set<string>, retain: bool, d: string)
    requires Valid(db) && d in db.devices
    ensures RowOk(BeatDevice(db, w, running, retain, d), Leased(db, d))
  {
    assert DeviceOk(db, d);
    if NamedOn(db, w, running, d) {
      var j :| j in db.jobs && Named(db, w, running, j) && db.jobs[j].device == d;
      var l := LeaseOf(db, j);
    }
  }

  lemma HeartbeatShrinks(db: Db, w: string, running: set<string>, retain: bool, now: int)
    requires Valid(db)
    ensures Shrinks(db, Heartbeat(db, w, running, retain, now))
  {
    var e := Heartbeat(db, w, running, retain, now);
    forall l ensures KeepsLease(db, e, l) { assert LeaseOk(db, l); }
    forall i ensures KeepsJob(db, e, i) {}
    forall d ensures KeepsHeld(db, e, d) {}
  }

  lemma HeartbeatKeepsValid(db: Db, w: string, running: set<string>, retain: bool, now: int)
    requires Valid(db)
    ensures Valid(Heartbeat(db, w, running, retain, now))
  {
    var e := Heartbeat(db, w, running, retain, now);
    HeartbeatShrinks(db, w, running, retain, now);
    forall d ensures DeviceOk(e, d) {
      SameLeased(db, e, d);
      if d in db.devices { BeatenDeviceOk(db, w, running, retain, d); }
    }
    ShrinkKeepsValid(db, e);
  }

  // ----- Registration

  lemma ReapShrinks(db: Db, w: string, rebooted: bool, now: int)
    requires Valid(db)
    ensures Shrinks(db, ReapInFlight(db, w, rebooted, now))
  {
    var e := ReapInFlight(db, w, rebooted, now);
    forall l ensures KeepsLease(db, e, l) { assert LeaseOk(db, l); }
    forall i ensures KeepsJob(db, e, i) {}
    forall d ensures KeepsHeld(db, e, d) {}
  }

  lemma ReapedDeviceOk(db: Db, w: string, rebooted: bool, now: int, d: string)
    requires Valid(db)
    ensures DeviceOk(ReapInFlight(db, w, rebooted, now), d)
  {
    var e := ReapInFlight(db, w, rebooted, now);
    ReapShrinks(db, w, rebooted, now);
    assert DeviceOk(db, d);
    if d in db.devices {
      if Leased(e, d) { LeasedShrinks(db, e, d); }
      if Orphaned(db, w, d) {
        var j :| j in InFlight(db, w) && db.jobs[j].device == d;
        EndingFrees(db, e, j);
      } else if Leased(db, d) {
        var l := HolderOf(db, d);
        assert KeepsLease(db, e, l);
        LeasedStays(db, e, l);
      }
    }
  }

  lemma ReapKeepsValid(db: Db, w: string, rebooted: bool, now: int)
    requires Valid(db)
    ensures Valid(ReapInFlight(db, w, rebooted, now))
  {
    var e := ReapInFlight(db, w, rebooted, now);
    ReapShrinks(db, w, rebooted, now);
    forall d ensures DeviceOk(e, d) { ReapedDeviceOk(db, w, rebooted, now, d); }
    ShrinkKeepsValid(db, e);
  }

  /** No device of w keeps a live lease through w's registration. */
  lemma ReapFreesWorker(db: Db, w: string, rebooted: bool, now: int, d: string)
    requires Valid(db) && d in db.devices && db.devices[d].worker == w
    ensures !Leased(ReapInFlight(db, w, rebooted, now), d)
  {
    var e := ReapInFlight(db, w, rebooted, now);
    ReapShrinks(db, w, rebooted, now);
    if Leased(e, d) {
      LeasedShrinks(db, e, d);
      var l := HolderOf(db, d);
      EndingFrees(db, e, db.leases[l].job);
    }
  }

  lemma WorkersKeepValid(db: Db, workers: map<string, Worker>)
    requires Valid(db)
    ensures Valid(db.(workers := workers))
  {
    forall d | d in db.devices ensures RowOk(db.devices[d], Leased(db, d)) { assert DeviceOk(db, d); }
    RowsKeepValid(db, db.(workers := workers));
  }

  lemma RestoreKeepsValid(db: Db, w: string, guard: bool)
    requires Valid(db) && (guard || forall d :: d in db.devices && db.devices[d].worker == w ==> !Leased(db, d))
    ensures Valid(RestoreRebooted(db, w, guard))
  {
    var e := RestoreRebooted(db, w, guard);
    forall d | d in db.devices ensures RowOk(e.devices[d], Leased(db, d)) { assert DeviceOk(db, d); }
    RowsKeepValid(db, e);
  }

  lemma DeclareKeepsValid(db: Db, w: string, ds: set<string>)
    requires Valid(db) && forall d :: d in ds ==> !Leased(db, d)
    ensures Valid(db.(devices := Declare(db.devices, w, ds)))
  {
    var e := db.(devices := Declare(db.devices, w, ds));
    forall d | d in e.devices ensures RowOk(e.devices[d], Leased(db, d)) { assert DeviceOk(db, d); }
    RowsKeepValid(db, e);
  }

  /** Registering ds for w would take a device from another worker while that worker's job holds it. */
  ghost predicate TakesOver(db: Db, w: string, ds: set<string>) {
    exists d :: d in ds && d in db.devices && db.devices[d].worker != w && Leased(db, d)
  }

  /** The tables just before the declared devices are written. */
  function Reconciled(db: Db, w: string, boot: string, now: int, guard: bool): Db {
    var rebooted := Rebooted(db, w, boot);
    var reaped := ReapInFlight(db.(workers := db.workers[w := Worker(boot, now)]), w, rebooted, now);
    if rebooted then RestoreRebooted(reaped, w, guard) else reaped
  }

  lemma ReconciledValid(db: Db, w: string, boot: string, now: int, guard: bool)
    requires Valid(db)
    ensures Valid(Reconciled(db, w, boot, now, guard))
    ensures forall d :: d in db.devices && db.devices[d].worker == w ==> !Leased(Reconciled(db, w, boot, now, guard), d)
  {
    var start := db.(workers := db.workers[w := Worker(boot, now)]);
    var rebooted := Rebooted(db, w, boot);
    WorkersKeepValid(db, start.workers);
    ReapKeepsValid(start, w, rebooted, now);
    var reaped := ReapInFlight(start, w, rebooted, now);
    forall d | d in db.devices && db.devices[d].worker == w ensures !Leased(reaped, d) {
      ReapFreesWorker(start, w, rebooted, now, d);
    }
    RestoreKeepsValid(reaped, w, guard);
    assert forall d :: Leased(RestoreRebooted(reaped, w, guard), d) <==> Leased(reaped, d);
  }

  /** Another worker's device is as leased after the reconciliation as before. */
  lemma ReconciledLeased(db: Db, w: string, boot: string, now: int, guard: bool, d: string)
    requires Valid(db) && (d in db.devices ==> db.devices[d].worker != w)
    ensures Leased(Reconciled(db, w, boot, now, guard), d) <==> Leased(db, d)
  {
    var start := db.(workers := db.workers[w := Worker(boot, now)]);
    var rebooted := Rebooted(db, w, boot);
    WorkersKeepValid(db, start.workers);
    ReapShrinks(start, w, rebooted, now);
    var reaped := ReapInFlight(start, w, rebooted, now);
    assert Leased(start, d) <==> Leased(db, d);
    if Leased(reaped, d) { LeasedShrinks(start, reaped, d); }
    if Leased(db, d) {
      var l := HolderOf(db, d);
      assert KeepsLease(start, reaped, l);
      LeasedStays(start, reaped, l);
    }
    assert Leased(RestoreRebooted(reaped, w, guard), d) <==> Leased(reaped, d);
  }

  lemma TakeoverBreaks(db: Db, w: string, boot: string, ds: set<string>, now: int)
    requires Valid(db) && TakesOver(db, w, ds)
    ensures !Valid(Upsert(db, w, boot, ds, now))
  {
    var r := Reconciled(db, w, boot, now, true);
    var d :| d in ds && d in db.devices && db.devices[d].worker != w && Leased(db, d);
    ReconciledValid(db, w, boot, now, true);
    ReconciledLeased(db, w, boot, now, true, d);
    ReconciledOwner(db, w, boot, now, d);
    DeclareBreaks(r, w, ds, d);
  }

  lemma ReconciledOwner(db: Db, w: string, boot: string, now: int, d: string)
    requires d in db.devices
    ensures var r := Reconciled(db, w, boot, now, true);
            d in r.devices && r.devices[d].worker == db.devices[d].worker && r.devices[d].ceiling == db.devices[d].ceiling
  {
    hide Orphaned, Revivable, ReapInFlight, RestoreRebooted;
    var start := db.(workers := db.workers[w := Worker(boot, now)]);
    var rebooted := Rebooted(db, w, boot);
    ReapKeepsOwner(start, w, rebooted, now, d);
    RestoreKeepsOwner(ReapInFlight(start, w, rebooted, now), w, d);
  }

  lemma ReapKeepsOwner(db: Db, w: string, rebooted: bool, now: int, d: string)
    requires d in db.devices
    ensures var r := ReapInFlight(db, w, rebooted, now);
            d in r.devices && r.devices[d].worker == db.devices[d].worker && r.devices[d].ceiling == db.devices[d].ceiling
  {
    hide Orphaned;
  }

  lemma RestoreKeepsOwner(db: Db, w: string, d: string)
    requires d in db.devices
    ensures var r := RestoreRebooted(db, w, true);
            d in r.devices && r.devices[d].worker == db.devices[d].worker && r.devices[d].ceiling == db.devices[d].ceiling
  {
    hide Revivable;
  }

  lemma DeclareBreaks(r: Db, w: string, ds: set<string>, d: string)
    requires Valid(r) && Leased(r, d) && d in ds && d in r.devices && r.devices[d].worker != w
    ensures !Valid(r.(devices := Declare(r.devices, w, ds)))
  {
    var l := HolderOf(r, d);
    assert !LeaseOk(r.(devices := Declare(r.devices, w, ds)), l);
  }

  lemma DeclaredFree(db: Db, w: string, boot: string, now: int, d: string)
    requires Valid(db) && (d in db.devices && db.devices[d].worker != w ==> !Leased(db, d))
    ensures !Leased(Reconciled(db, w, boot, now, true), d)
  {
    ReconciledValid(db, w, boot, now, true);
    if d !in db.devices || db.devices[d].worker != w {
      ReconciledLeased(db, w, boot, now, true, d);
      if Leased(db, d) { var l := HolderOf(db, d); }
    }
  }

  /**
   Registration keeps the invariant exactly when it takes no leased device
   from another worker.
   */
  lemma UpsertKeepsValidIff(db: Db, w: string, boot: string, ds: set<string>, now: int)
    requires Valid(db)
    ensures Valid(Upsert(db, w, boot, ds, now)) <==> !TakesOver(db, w, ds)
  {
    if TakesOver(db, w, ds) {
      TakeoverBreaks(db, w, boot, ds, now);
    } else {
      forall d | d in ds ensures !Leased(Reconciled(db, w, boot, now, true), d) { DeclaredFree(db, w, boot, now, d); }
      ReconciledValid(db, w, boot, now, true);
      DeclareKeepsValid(Reconciled(db, w, boot, now, true), w, ds);
    }
  }

  /** A registration leaves the devices and jobs of other workers alone. */
  lemma UpsertElsewhere(db: Db, w: string, boot: string, ds: set<string>, now: int)
    requires Valid(db)
    ensures var e := Upsert(db, w, boot, ds, now);
            && (forall d :: d in db.devices && db.devices[d].worker != w && d !in ds ==>
                  d in e.devices && e.devices[d] == db.devices[d])
            && (forall j :: j in db.jobs && db.jobs[j].worker != w ==> j in e.jobs && e.jobs[j] == db.jobs[j])
            && (forall l :: l in db.leases && Active(db, db.leases[l].job) && db.jobs[db.leases[l].job].worker != w ==>
                  l in e.leases && e.leases[l] == db.leases[l])
  {
    hide ReapInFlight, Rebooted, Leased, Valid;
    WorkersKeepValid(db, db.workers[w := Worker(boot, now)]);
    ReapElsewhere(db.(workers := db.workers[w := Worker(boot, now)]), w, Rebooted(db, w, boot), now);
  }

  lemma ReapElsewhere(db: Db, w: string, rebooted: bool, now: int)
    requires Valid(db)
    ensures var e := ReapInFlight(db, w, rebooted, now);
            && (forall d :: d in db.devices && db.devices[d].worker != w ==> d in e.devices && e.devices[d] == db.devices[d])
            && (forall j :: j in db.jobs && db.jobs[j].worker != w ==> j in e.jobs && e.jobs[j] == db.jobs[j])
            && (forall l :: l in db.leases && Active(db, db.leases[l].job) && db.jobs[db.leases[l].job].worker != w ==>
                  l in e.leases && e.leases[l] == db.leases[l])
  {
    ReapOtherJobs(db, w, rebooted, now);
    forall d | d in db.devices && db.devices[d].worker != w ensures !Orphaned(db, w, d) { NotOrphaned(db, w, d); }
    hide Valid, Orphaned, InFlight, ReleasedFor;
  }

  lemma ReapOtherJobs(db: Db, w: string, rebooted: bool, now: int)
    ensures var e := ReapInFlight(db, w, rebooted, now);
            && (forall j :: j in db.jobs && db.jobs[j].worker != w ==> j in e.jobs && e.jobs[j] == db.jobs[j])
            && (forall l :: l in db.leases && Active(db, db.leases[l].job) && db.jobs[db.leases[l].job].worker != w ==>
                  l in e.leases && e.leases[l] == db.leases[l])
  {
    hide ReapedDevice, ReleasedFor, InFlight;
    OthersNotInFlight(db, w);
    OtherLeasesStay(db.leases, InFlight(db, w));
  }

  lemma OthersNotInFlight(db: Db, w: string)
    ensures forall j :: j in db.jobs && db.jobs[j].worker != w ==> j !in InFlight(db, w)
  {
  }

  lemma OtherLeasesStay(leases: map<nat, Lease>, js: set<string>)
    ensures forall l :: l in leases && leases[l].job !in js ==> l in ReleasedFor(leases, js) && ReleasedFor(leases, js)[l] == leases[l]
  {
  }

  lemma NotOrphaned(db: Db, w: string, d: string)
    requires Valid(db) && d in db.devices && db.devices[d].worker != w
    ensures !Orphaned(db, w, d)
  {
    forall j | j in InFlight(db, w) ensures db.jobs[j].device != d { JobsDevice(db, j); }
  }

  lemma RecoverKeepsValid(db: Db, w: string, p: Proof, now: int)
    requires Valid(db)
    ensures Valid(AutoRecover(db, w, p, now))
  {
    var e := AutoRecover(db, w, p, now);
    forall d | d in db.devices ensures RowOk(e.devices[d], Leased(db, d)) { assert DeviceOk(db, d); }
    RowsKeepValid(db, e);
  }

  // ----- Single device rows

  lemma CeilingKeepsValid(db: Db, d: string, c: int)
    requires Valid(db)
    ensures Valid(SetCeiling(db, d, c))
  {
    var e := SetCeiling(db, d, c);
    forall x | x in db.devices ensures RowOk(e.devices[x], Leased(db, x)) { assert DeviceOk(db, x); }
    RowsKeepValid(db, e);
  }

  lemma FaultKeepsValid(db: Db, d: string, detail: string)
    requires Valid(db)
    ensures Valid(SetDeviceState(db, d, Unhealthy, detail))
  {
    var e := SetDeviceState(db, d, Unhealthy, detail);
    forall x | x in db.devices ensures RowOk(e.devices[x], Leased(db, x)) { assert DeviceOk(db, x); }
    RowsKeepValid(db, e);
  }

  lemma ClearKeepsValid(db: Db, d: string)
    requires Valid(db)
    ensures Valid(ClearDevice(db, d))
  {
    var e := ClearDevice(db, d);
    forall x | x in db.devices ensures RowOk(e.devices[x], Leased(db, x)) { assert DeviceOk(db, x); }
    RowsKeepValid(db, e);
  }

  lemma RetireKeepsValid(db: Db, d: string)
    requires Valid(db)
    ensures Valid(RetireDevice(db, d))
  {
    if CanRetire(db, d) {
      var e := RetireDevice(db, d);
      forall l ensures KeepsLease(db, e, l) { assert LeaseOk(db, l); }
      forall j ensures KeepsJob(db, e, j) {}
      forall x ensures KeepsHeld(db, e, x) && DeviceOk(e, x) {
        assert DeviceOk(db, x);
        SameLeased(db, e, x);
      }
      ShrinkKeepsValid(db, e);
    }
  }
}
