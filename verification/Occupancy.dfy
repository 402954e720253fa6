/**
 A device once given to a job stays out of the pool until the controller has
 evidence that the job is over: what each transaction does to such a device.
 */
module Occupancy {
  import opened Model
  import opened Transactions
  import opened Invariant
  import opened Effects
  import opened Ownership

  /** d is not for hire, and only j's running or j's pending kill explains a state that could lead back to hire. */
  ghost predicate Explained(db: Db, j: string, d: string)
    requires j in db.jobs
  {
    d in db.devices ==>
      match db.devices[d].state
      case Ready => false
      case Busy => Active(db, j)
      case Unknown => Active(db, j) || KillStands(db, j)
      case Unhealthy => true
  }

  ghost predicate StillExplained(e: Db, j: string, d: string) {
    j in e.jobs && Explained(e, j, d)
  }

  predicate KillStands(db: Db, j: string)
    requires j in db.jobs
  {
    db.jobs[j].state.Killed? && db.jobs[j].killRequested
  }

  /** Job j was placed on d, and no later job. */
  ghost predicate Placement(db: Db, j: string, d: string) {
    && j in db.jobs && !db.jobs[j].state.Queued?
    && db.jobs[j].device == d && db.jobs[j].worker == HostOf(d)
    && forall i :: Active(db, i) && db.jobs[i].device == d ==> i == j
  }

  /** Job j may still be running on d. */
  ghost predicate Occupied(db: Db, j: string, d: string) {
    Placement(db, j, d) && Explained(db, j, d)
  }

  lemma AssignOccupies(db: Db, j: string, d: string, now: int)
    requires Sound(db) && AssignOutcomeOf(db, j, d) == Placed
    ensures Occupied(Assign(db, j, d, now), j, d)
  {
    var x := Assign(db, j, d, now);
    assert Keyed(db, d);
    forall i | Active(x, i) && x.jobs[i].device == d ensures i == j {
      if Active(db, i) { JobsDevice(db, i); }
    }
  }

  lemma PlacementStays(db: Db, e: Db, j: string, d: string)
    requires Placement(db, j, d) && JobsKept(db, e) && PlacesNone(db, e)
    ensures Placement(e, j, d)
  {
    assert JobKept(db, e, j);
    forall i | Active(e, i) && e.jobs[i].device == d ensures i == j {
      assert JobKept(db, e, i);
    }
  }

  /** A second assignment to an occupied device fails; one elsewhere changes nothing here. */
  lemma AssignElsewhere(db: Db, j: string, d: string, i: string, x: string, now: int)
    requires Sound(db) && Occupied(db, j, d)
    ensures x == d ==> AssignOutcomeOf(db, i, x) != Placed
    ensures Occupied(Assign(db, i, x, now), j, d)
  {
    var e := Assign(db, i, x, now);
    if AssignOutcomeOf(db, i, x) == Placed {
      forall k | Active(e, k) && e.jobs[k].device == d ensures k == j {
        assert k != i;
      }
    }
  }

  lemma ReportExplained(db: Db, j: string, d: string, w: string, i: string, state: JobState, reason: string, now: int)
    requires Sound(db) && Occupied(db, j, d)
    requires !(i == j && Owns(db, w, j) && state.Terminal())
    ensures StillExplained(Report(db, w, i, state, reason, now), j, d)
  {
    assert JobOk(db, i);
  }

  lemma KillExplained(db: Db, j: string, d: string, i: string, reason: string, finalize: bool, now: int)
    requires Sound(db) && Occupied(db, j, d)
    ensures StillExplained(RequestKill(db, i, reason, finalize, now), j, d)
  {
    hide Sound, ReleasedFor;
  }

  lemma SweepExplained(db: Db, j: string, d: string, a: SweepArgs, now: int)
    requires Sound(db) && Occupied(db, j, d)
    ensures StillExplained(Sweep(db, a, now), j, d)
  {
    hide Keyed, Valid, WrittenOff, LapsedOn, SweptJob, SweptDevice, SweptLease;
    SweptRows(db, a, now, j, d);
    if Active(db, j) ==> !WrittenOff(db, a, now, d) && !LapsedOn(db, a, now, d) { SweptJobLives(db, a, now, j); }
    if d in db.devices { SweptState(db, a, now, d); }
    hide Sweep, Placement;
  }

  lemma SweptRows(db: Db, a: SweepArgs, now: int, j: string, d: string)
    requires j in db.jobs
    ensures var e := Sweep(db, a, now);
            && j in e.jobs && e.jobs[j] == SweptJob(db, a, now, j)
            && (d in e.devices <==> d in db.devices) && (d in e.devices ==> e.devices[d] == SweptDevice(db, a, now, d))
  {
  }

  /** A sweep writes a device off, finds its lease lapsed, or at most doubts it. */
  lemma SweptState(db: Db, a: SweepArgs, now: int, d: string)
    requires d in db.devices
    ensures var v, u := SweptDevice(db, a, now, d), db.devices[d];
            || v.state.Unhealthy?
            || (!WrittenOff(db, a, now, d) && !LapsedOn(db, a, now, d)
                && (v.state == u.state || (v.state.Unknown? && (u.state.Ready? || u.state.Busy?))))
  {
    hide WrittenOff, LapsedOn, Silent;
  }

  /** A job whose device a sweep neither writes off nor finds lapsed is left alone, and so is one not active. */
  lemma SweptJobLives(db: Db, a: SweepArgs, now: int, j: string)
    requires Valid(db) && j in db.jobs
    requires Active(db, j) ==> !WrittenOff(db, a, now, db.jobs[j].device) && !LapsedOn(db, a, now, db.jobs[j].device)
    ensures SweptJob(db, a, now, j) == db.jobs[j]
  {
    if Active(db, j) {
      var l := LeaseOf(db, j);
      if LapsedFor(db, a, now, j) { LapsedForMeansOn(db, a, now, l); }
    }
  }

  /** A heartbeat makes d ready only on evidence, and busy only for j. */
  lemma BeatenRow(db: Db, j: string, d: string, w: string, running: set<string>, retain: bool)
    requires Sound(db) && Occupied(db, j, d) && d in db.devices
    requires w == HostOf(d) && j !in running ==> !KillStands(db, j)
    ensures var v := BeatDevice(db, w, running, retain, d);
            v.state.Unhealthy? || v.state == db.devices[d].state || (v.state.Busy? && Active(db, j))
  {
    assert Keyed(db, d);
    if Leased(db, d) { var l := HolderOf(db, d); }
    if NamedOn(db, w, running, d) {
      var i :| i in db.jobs && Named(db, w, running, i) && db.jobs[i].device == d;
    }
    if Active(db, j) { var l := LeaseOf(db, j); }
    if KillStands(db, j) && w == HostOf(d) { assert KillPending(db, w, running, d); }
  }

  lemma BeatExplained(db: Db, j: string, d: string, w: string, running: set<string>, retain: bool, now: int)
    requires Sound(db) && Occupied(db, j, d)
    requires w == HostOf(d) && j !in running ==> !KillStands(db, j)
    ensures StillExplained(Heartbeat(db, w, running, retain, now), j, d)
  {
    hide Valid, Keyed, BeatDevice;
    if d in db.devices { BeatenRow(db, j, d, w, running, retain); }
  }

  lemma RegisterExplained(db: Db, j: string, d: string, w: string, boot: string, ds: set<string>, now: int)
    requires Sound(db) && Occupied(db, j, d)
    requires w != HostOf(d) && d !in ds
    ensures StillExplained(Upsert(db, w, boot, ds, now), j, d)
  {
    assert Keyed(db, d);
    UpsertElsewhere(db, w, boot, ds, now);
    hide Upsert;
  }

  lemma RecoverExplained(db: Db, j: string, d: string, w: string, p: Proof, now: int)
    requires Sound(db) && Occupied(db, j, d)
    requires w != HostOf(d) || !p.Proves()
    ensures StillExplained(AutoRecover(db, w, p, now), j, d)
  {
    assert Keyed(db, d);
  }

  lemma HandoutExplained(db: Db, j: string, d: string, i: string)
    requires Occupied(db, j, d)
    ensures StillExplained(MarkRunning(db, i), j, d)
  {
  }

  lemma CancelExplained(db: Db, j: string, d: string, i: string, reason: string, now: int)
    requires Occupied(db, j, d)
    ensures StillExplained(CancelQueued(db, i, reason, now), j, d)
  {
  }

  lemma TakeKillsExplained(db: Db, j: string, d: string, w: string, now: int)
    requires Occupied(db, j, d)
    ensures StillExplained(TakeKills(db, w, now), j, d)
  {
    hide KillDue;
  }

  /** Steps that take devices out or configure them. */
  lemma FaultExplained(db: Db, j: string, d: string, x: string, detail: string)
    requires Occupied(db, j, d)
    ensures StillExplained(SetDeviceState(db, x, Unhealthy, detail), j, d)
  {
    assert j in db.jobs;
    hide Placement;
  }

  lemma CeilingExplained(db: Db, j: string, d: string, x: string, ceiling: int)
    requires Occupied(db, j, d)
    ensures StillExplained(SetCeiling(db, x, ceiling), j, d)
  {
    assert j in db.jobs;
    hide Placement;
  }

  lemma RemovalStepsExplained(db: Db, j: string, d: string, x: string)
    requires Occupied(db, j, d)
    ensures StillExplained(RetireDevice(db, x), j, d)
    ensures x != d ==> StillExplained(ClearDevice(db, x), j, d)
  {
    assert j in db.jobs;
    hide CanRetire, CanClear, Placement;
  }
}
