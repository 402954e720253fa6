/**
 What each event achieves, told in rows and in literal seconds: the job that
 ends as its worker said, the kill that is flagged, the device that comes
 back. The other modules say what may not happen; this one says what does.
 */
module Outcomes {
  import opened Wrappers
  import opened Model
  import opened Transactions
  import opened Invariant
  import opened Effects
  import opened Runs
  import Queue
  import Selector

  /** x's leases are db's, those of job j released. */
  ghost predicate OnlyReleased(db: Db, x: Db, j: string) {
    && x.leases.Keys == db.leases.Keys
    && forall l :: l in db.leases ==>
         x.leases[l] == if db.leases[l].job == j then db.leases[l].(live := false) else db.leases[l]
  }

  lemma ReleasedOnly(leases: map<nat, Lease>, j: string)
    ensures var r := ReleasedFor(leases, {j});
            && r.Keys == leases.Keys
            && forall l :: l in leases ==> r[l] == if leases[l].job == j then leases[l].(live := false) else leases[l]
  {
  }

  /** Of a job with a live lease, the device is nobody's once its leases are released. */
  lemma FreedDevice(db: Db, x: Db, j: string)
    requires Valid(db) && Active(db, j) && OnlyReleased(db, x, j)
    ensures db.jobs[j].device in db.devices && !Leased(x, db.jobs[j].device) && forall l :: !HeldBy(x, l, j)
  {
    var l := LeaseOf(db, j);
    assert LeaseOk(db, l);
    forall k | k in x.leases && x.leases[k].live ensures x.leases[k].device != db.jobs[j].device {
      assert Distinct(db, k, l);
    }
  }

  // ----- Reports

  /**
   The owner's report of how its job ended is recorded as it was made: that
   state, that reason, that time; the job's lease is released and its device,
   if it was busy, is back in the pool. Nothing else changes.
   */
  lemma ReportIsRecorded(db: Db, e: Event, w: string, j: string, s: JobState, reason: string)
    requires Valid(db) && e.op == Op.Report(w, j, s, reason)
    requires Active(db, j) && db.jobs[j].worker == w && w != "" && s.Terminal()
    ensures db.jobs[j].device in db.devices
    ensures var x, d := Apply(db, e), db.jobs[j].device;
            && x == db.(jobs := db.jobs[j := db.jobs[j].(state := s, killReason := reason, finishedAt := e.now)],
                        devices := db.devices[d := x.devices[d]], leases := x.leases)
            && OnlyReleased(db, x, j) && (forall l :: !HeldBy(x, l, j)) && !Leased(x, d)
            && x.devices[d] == if db.devices[d].state == Busy then db.devices[d].(state := Ready) else db.devices[d]
  {
    hide Valid, Leased, OnlyReleased, Transactions.Release;
    JobsDevice(db, j);
    ReleaseIsRecorded(db, j, s, reason, e.now);
  }

  lemma ReleaseIsRecorded(db: Db, j: string, s: JobState, reason: string, now: int)
    requires Valid(db) && Active(db, j) && db.jobs[j].device in db.devices && s.Terminal()
    ensures var x, d := Transactions.Release(db, j, s, reason, now), db.jobs[j].device;
            && d in x.devices
            && x == db.(jobs := db.jobs[j := db.jobs[j].(state := s, killReason := reason, finishedAt := now)],
                        devices := db.devices[d := x.devices[d]], leases := x.leases)
            && OnlyReleased(db, x, j) && (forall l :: !HeldBy(x, l, j)) && !Leased(x, d)
            && x.devices[d] == if db.devices[d].state == Busy then db.devices[d].(state := Ready) else db.devices[d]
  {
    hide Valid, ReleasedFor, Leased;
    ReleasedOnly(db.leases, j);
    FreedDevice(db, Transactions.Release(db, j, s, reason, now), j);
    hide OnlyReleased;
  }

  /** The owner's report that its job has started, and the handing out of the job, are recorded once. */
  lemma StartIsRecorded(db: Db, e: Event, j: string)
    requires j in db.jobs && db.jobs[j].state == Assigned
    requires || e.op == Op.Handout(j)
             || (e.op.Report? && e.op.job == j && e.op.worker != "" && e.op.worker == db.jobs[j].worker && e.op.state == Running)
    ensures Apply(db, e) == db.(jobs := db.jobs[j := db.jobs[j].(state := Running)])
  {
  }

  lemma HandoutCountsIff(db: Db, e: Event, j: string)
    requires e.op == Op.Handout(j)
    ensures Apply(db, e) != db <==> j in db.jobs && db.jobs[j].state == Assigned
  {
    if j in db.jobs && Apply(db, e).jobs == db.jobs { assert Apply(db, e).jobs[j] == db.jobs[j]; }
  }

  /** A report changes anything exactly if the owner reports the end of an active job or the start of an assigned one. */
  lemma ReportCountsIff(db: Db, e: Event)
    requires Valid(db) && e.op.Report?
    ensures var w, j, s := e.op.worker, e.op.job, e.op.state;
            Apply(db, e) != db <==>
            && w != "" && j in db.jobs && db.jobs[j].worker == w
            && ((s.Terminal() && Active(db, j)) || (s == Running && db.jobs[j].state == Assigned))
  {
    var w, j, s := e.op.worker, e.op.job, e.op.state;
    assert JobOk(db, j);
    hide Valid, ReleasedFor;
    if j in db.jobs && Apply(db, e).jobs == db.jobs { assert Apply(db, e).jobs[j] == db.jobs[j]; }
  }

  // ----- Kills

  /** The device is one the controller has lost touch with. */
  predicate OutOfTouch(v: Device) {
    v.state == Unknown || (v.state == Unhealthy && v.reason == WorkerLost)
  }

  /**
   A kill of an active job always leaves the flag set and never delivered yet.
   Asked to finalise, and out of touch with the device, it also ends the job
   and releases its lease, and leaves the device alone.
   */
  lemma KillIsRecorded(db: Db, e: Event, j: string, reason: string, finalize: bool)
    requires Valid(db) && e.op == Op.Kill(j, reason, finalize) && Active(db, j)
    ensures db.jobs[j].device in db.devices
    ensures var x, row := Apply(db, e), db.jobs[j].(killRequested := true, killDeliveredAt := 0);
            if finalize && OutOfTouch(db.devices[db.jobs[j].device]) then
              && x == db.(jobs := db.jobs[j := row.(state := Killed, killReason := reason, finishedAt := e.now)], leases := x.leases)
              && OnlyReleased(db, x, j) && forall l :: !HeldBy(x, l, j)
            else x == db.(jobs := db.jobs[j := row])
  {
    hide Valid, ReleasedFor, Leased, OnlyReleased;
    JobsDevice(db, j);
    if finalize && OutOfTouch(db.devices[db.jobs[j].device]) { FinalizedReleases(db, j, reason, e.now); }
  }

  lemma FinalizedReleases(db: Db, j: string, reason: string, now: int)
    requires Valid(db) && Active(db, j) && KillOutcomeOf(db, j, true) == Finalized
    ensures OnlyReleased(db, RequestKill(db, j, reason, true, now), j)
    ensures forall l :: !HeldBy(RequestKill(db, j, reason, true, now), l, j)
  {
    hide Valid, ReleasedFor, Leased;
    ReleasedOnly(db.leases, j);
    FreedDevice(db, RequestKill(db, j, reason, true, now), j);
  }

  /** The caller is told which of the three it was. */
  lemma KillOutcomeMeans(db: Db, j: string, finalize: bool)
    requires Valid(db)
    ensures KillOutcomeOf(db, j, finalize) == NotCancellable <==> !(j in db.jobs && (db.jobs[j].state == Assigned || db.jobs[j].state == Running))
    ensures Active(db, j) ==>
              && db.jobs[j].device in db.devices
              && (KillOutcomeOf(db, j, finalize) == Finalized <==> finalize && OutOfTouch(db.devices[db.jobs[j].device]))
              && (KillOutcomeOf(db, j, finalize) == Requested <==> !(finalize && OutOfTouch(db.devices[db.jobs[j].device])))
  {
    if Active(db, j) { JobsDevice(db, j); }
    hide Valid;
  }

  /** So is the caller of an assignment: a device that is not ready comes before a job that is gone. */
  lemma AssignOutcomeMeans(db: Db, j: string, d: string)
    ensures AssignOutcomeOf(db, j, d) == NoDevice <==> !(d in db.devices && db.devices[d].state == Ready)
    ensures AssignOutcomeOf(db, j, d) == NoLongerQueued <==>
            d in db.devices && db.devices[d].state == Ready && !(j in db.jobs && db.jobs[j].state == Queued)
  {
  }

  /** A kill of any other job is refused. */
  lemma KillIsRefused(db: Db, e: Event)
    requires e.op.Kill? && !(e.op.job in db.jobs && db.jobs[e.op.job].state.Active())
    ensures Apply(db, e) == db
  {
  }

  /** Cancelling takes exactly a queued job out of the queue. */
  lemma CancelIsRecorded(db: Db, e: Event, j: string, reason: string)
    requires e.op == Op.Cancel(j, reason)
    ensures Apply(db, e) ==
            if j in db.jobs && db.jobs[j].state == Queued
            then db.(jobs := db.jobs[j := db.jobs[j].(state := Killed, killReason := reason, finishedAt := e.now)]) else db
  {
  }

  // ----- Submissions

  ghost predicate KeysDistinct(db: Db) {
    forall i, j :: i in db.jobs && j in db.jobs && db.jobs[i].key == db.jobs[j].key != "" ==> i == j
  }

  lemma StepKeepsKeys(db: Db, e: Event)
    requires KeysDistinct(db)
    ensures KeysDistinct(Apply(db, e))
  {
    if e.op.Submit? {
      SubmitKeepsKeys(db, e.op.seen, e.op.quantities, e.op.id, e.op.request, e.now);
      hide Queue.Submit;
    } else {
      StepLeaves(db, e);
      hide Apply;
      forall i, j | i in Apply(db, e).jobs && j in Apply(db, e).jobs && Apply(db, e).jobs[i].key == Apply(db, e).jobs[j].key != "" ensures i == j {
        assert JobKept(db, Apply(db, e), i) && JobKept(db, Apply(db, e), j);
      }
    }
  }

  lemma SubmitKeepsKeys(db: Db, seen: Queue.Seen, q: Selector.Quantities, id: string, r: Queue.Request, now: int)
    requires KeysDistinct(db)
    ensures KeysDistinct(Queue.Submit(db, seen, q, id, r, now))
  {
    if Queue.Screen(seen, q, r).Ok? { Queue.SubmissionIsRecorded(db, Queue.Screen(seen, q, r).value, id, r, now); }
    hide Queue.Screen, Queue.Entered;
  }

  /** In every reachable state no two jobs share an idempotency key. */
  lemma {:induction false} RunHasDistinctKeys(es: Run, n: nat)
    requires n <= |es|
    ensures KeysDistinct(After(EMPTY_DB, es, n))
  {
    hide Apply, KeysDistinct;
    if n > 0 {
      RunHasDistinctKeys(es, n - 1);
      StepKeepsKeys(After(EMPTY_DB, es, n - 1), es[n - 1]);
    } else {
      EmptyHasDistinctKeys();
    }
  }

  lemma EmptyHasDistinctKeys()
    ensures KeysDistinct(EMPTY_DB)
  {
  }

  /** A key once used is used for ever: whatever became of its job, a submission under the key changes nothing. */
  lemma KeyIsSpent(db: Db, es: Run, n: nat, j: string)
    requires n < |es| && j in db.jobs && db.jobs[j].key != "" && es[n].op.Submit? && es[n].op.request.key == db.jobs[j].key
    ensures j in After(db, es, n).jobs && After(db, es, n).jobs[j].key == db.jobs[j].key
    ensures After(db, es, n + 1) == After(db, es, n)
  {
    hide Apply;
    NeverRequeued(db, es, 0, n, j);
    SpentKeyIsRefused(After(db, es, n), es[n], j);
  }

  lemma SpentKeyIsRefused(db: Db, e: Event, j: string)
    requires e.op.Submit? && j in db.jobs && e.op.request.key == db.jobs[j].key != ""
    ensures Apply(db, e) == db
  {
    var r := e.op.request;
    if Queue.Screen(e.op.seen, e.op.quantities, r).Ok? {
      Queue.SubmissionIsRecorded(db, Queue.Screen(e.op.seen, e.op.quantities, r).value, e.op.id, r, e.now);
    }
    hide Queue.Screen, Queue.Entered;
  }

  /**
   A submission that passes the screening adds exactly the request as a
   queued job, unless its key was used, its pinned device is unknown or has too low
   a ceiling, or its id is taken.
   */
  lemma SubmitIsRecorded(db: Db, e: Event)
    requires e.op.Submit?
    ensures var r, id, v := e.op.request, e.op.id, Queue.Screen(e.op.seen, e.op.quantities, e.op.request);
            if v.Ok? && Admitted(db, id, r) then
              && id in Apply(db, e).jobs
              && Apply(db, e) == db.(jobs := db.jobs[id := Apply(db, e).jobs[id]], nextRow := db.nextRow + 1)
              && Apply(db, e).jobs[id] ==
                 Job(Queued, v.value, r.device, "", r.submitter, r.key, r.priority, e.now, db.nextRow,
                     if r.device != "" && r.runtime == 0 && db.devices[r.device].ceiling > 0 then db.devices[r.device].ceiling else r.runtime,
                     r.kind, false, 0, "", 0)
            else Apply(db, e) == db
  {
    var r := e.op.request;
    ApplySubmits(db, e);
    hide Apply, Queue.Screen, Queue.Entered, Admitted;
    var v := Queue.Screen(e.op.seen, e.op.quantities, r);
    if v.Ok? { AdmittedIsRecorded(db, v.value, e.op.id, r, e.now); }
  }

  /** The key is not used, a pinned device is known and its ceiling high enough, and the id is free. */
  ghost predicate Admitted(db: Db, id: string, r: Queue.Request) {
    && (r.key == "" || forall j :: j in db.jobs ==> db.jobs[j].key != r.key)
    && (r.device != "" ==> r.device in db.devices && (db.devices[r.device].ceiling <= 0 || r.runtime <= db.devices[r.device].ceiling))
    && id != "" && id !in db.jobs
  }

  lemma AdmittedIsRecorded(db: Db, text: string, id: string, r: Queue.Request, now: int)
    ensures var (x, s) := Queue.Entered(db, text, id, r, now);
            if Admitted(db, id, r) then
              && id in x.jobs && x == db.(jobs := db.jobs[id := x.jobs[id]], nextRow := db.nextRow + 1)
              && x.jobs[id] ==
                 Job(Queued, text, r.device, "", r.submitter, r.key, r.priority, now, db.nextRow,
                     if r.device != "" && r.runtime == 0 && db.devices[r.device].ceiling > 0 then db.devices[r.device].ceiling else r.runtime,
                     r.kind, false, 0, "", 0)
            else x == db
  {
    Queue.SubmissionIsRecorded(db, text, id, r, now);
    hide Queue.Entered;
  }

  lemma ApplySubmits(db: Db, e: Event)
    requires e.op.Submit?
    ensures Apply(db, e) == match Queue.Screen(e.op.seen, e.op.quantities, e.op.request)
                            case Err(_) => db
                            case Ok(text) => Queue.Entered(db, text, e.op.id, e.op.request, e.now).0
  {
    hide Queue.Screen, Queue.Entered;
  }

  // ----- Assignment

  /**
   An assignment happens exactly if the device is ready and the job queued. It
   inherits the device's ceiling if it asked for no runtime; the lease is due
   ten minutes after the runtime, or in five minutes if there is none.
   */
  lemma AssignmentIsRecorded(db: Db, e: Event, j: string, d: string)
    requires Valid(db) && e.op == Op.Assign(j, d)
    ensures !(d in db.devices && db.devices[d].state == Ready && j in db.jobs && db.jobs[j].state == Queued) ==> Apply(db, e) == db
    ensures d in db.devices && db.devices[d].state == Ready && j in db.jobs && db.jobs[j].state == Queued ==>
              var x, l, row, v := Apply(db, e), db.nextLease, db.jobs[j], db.devices[d];
              && l !in db.leases && l in x.leases
              && x == db.(jobs := db.jobs[j := x.jobs[j]], devices := db.devices[d := v.(state := Busy)],
                          leases := db.leases[l := x.leases[l]], reservations := db.reservations - {d}, nextLease := l + 1)
              && x.jobs[j] == row.(state := Assigned, device := d, worker := v.worker, runtime := x.jobs[j].runtime)
              && (row.runtime != 0 ==> x.jobs[j].runtime == row.runtime)
              && (row.runtime == 0 && v.ceiling > 0 ==> x.jobs[j].runtime == v.ceiling)
              && (row.runtime == 0 && v.ceiling <= 0 ==> x.jobs[j].runtime == 0)
              && x.leases[l] == Lease(d, j, e.now, x.leases[l].expires, row.kind, true)
              && (x.jobs[j].runtime > 0 ==> x.leases[l].expires == e.now + x.jobs[j].runtime + 600)
              && (x.jobs[j].runtime <= 0 ==> x.leases[l].expires == e.now + 300)
  {
    assert LeaseOk(db, db.nextLease);
    hide Valid;
  }

  // ----- What an operator does

  /** A fault takes the device out with its explanation; one without an explanation is not accepted. */
  lemma FaultIsRecorded(db: Db, e: Event, d: string, detail: string)
    requires e.op == Op.Fault(d, detail)
    ensures Apply(db, e) ==
            if detail != "" && d in db.devices
            then db.(devices := db.devices[d := db.devices[d].(state := Unhealthy, reason := Reason.Fault, detail := detail)]) else db
  {
  }

  /** A clear puts the device back exactly if it is unhealthy and no active job is on it. */
  lemma ClearIsRecorded(db: Db, e: Event, d: string)
    requires Valid(db) && e.op == Op.Clear(d)
    ensures Apply(db, e) ==
            if d in db.devices && db.devices[d].state == Unhealthy && !exists j :: Active(db, j) && db.jobs[j].device == d
            then db.(devices := db.devices[d := db.devices[d].(state := Ready, reason := NoReason, detail := "")]) else db
  {
    if Leased(db, d) {
      var l := HolderOf(db, d);
      assert Active(db, db.leases[l].job) && db.jobs[db.leases[l].job].device == d;
    }
    if j :| Active(db, j) && db.jobs[j].device == d { var l := LeaseOf(db, j); }
    hide Valid, Leased;
  }

  /** A retired device takes its past leases with it, its labels and its reservation, and leaves jobs, workers and its recovery history. */
  lemma RetireIsRecorded(db: Db, e: Event, d: string)
    requires e.op == Op.Retire(d)
    ensures d !in db.devices || Leased(db, d) ==> Apply(db, e) == db
    ensures d in db.devices && !Leased(db, d) ==>
              var x := Apply(db, e);
              && x == db.(devices := x.devices, detected := x.detected, declared := x.declared,
                          reservations := x.reservations, leases := x.leases)
              && (forall y :: y in x.devices <==> y in db.devices && y != d)
              && (forall y :: y in x.devices ==> x.devices[y] == db.devices[y])
              && (forall l :: l in x.leases <==> l in db.leases && db.leases[l].device != d)
              && (forall l :: l in x.leases ==> x.leases[l] == db.leases[l])
  {
    hide Leased;
  }

  /** Of labels and reservations exactly the device's own go. */
  lemma RetireForgets(db: Db, e: Event, d: string)
    requires e.op == Op.Retire(d) && d in db.devices && !Leased(db, d)
    ensures var x := Apply(db, e);
            && x.detected.Keys == db.detected.Keys - {d} && (forall y :: y in x.detected ==> x.detected[y] == db.detected[y])
            && x.declared.Keys == db.declared.Keys - {d} && (forall y :: y in x.declared ==> x.declared[y] == db.declared[y])
            && x.reservations.Keys == db.reservations.Keys - {d}
            && (forall y :: y in x.reservations ==> x.reservations[y] == db.reservations[y])
  {
    hide Leased;
  }

  /** One device's ceiling, never below zero. */
  lemma CeilingIsRecorded(db: Db, e: Event, d: string, seconds: int)
    requires e.op == Op.Ceiling(d, seconds)
    ensures d !in db.devices ==> Apply(db, e) == db
    ensures d in db.devices ==>
              var x := Apply(db, e);
              && x == db.(devices := db.devices[d := db.devices[d].(ceiling := x.devices[d].ceiling)])
              && (seconds >= 0 ==> x.devices[d].ceiling == seconds) && (seconds < 0 ==> x.devices[d].ceiling == 0)
  {
  }

  /** The labels of one device and one origin are replaced by those given. */
  lemma RelabelIsRecorded(db: Db, e: Event, d: string, labels: Labels)
    ensures e.op == Op.Relabel(d, true, labels) ==> Apply(db, e) == db.(detected := db.detected[d := labels])
    ensures e.op == Op.Relabel(d, false, labels) ==> Apply(db, e) == db.(declared := db.declared[d := labels])
  {
  }

  /** Of the reservations exactly those in the job's name go. */
  lemma UnreserveIsRecorded(db: Db, e: Event, j: string)
    requires e.op == Op.Unreserve(j)
    ensures var x := Apply(db, e);
            && x == db.(reservations := x.reservations)
            && (forall d :: d in x.reservations <==> d in db.reservations && db.reservations[d] != j)
            && (forall d :: d in x.reservations ==> x.reservations[d] == db.reservations[d])
  {
  }

  /** A poll stamps exactly the flags it hands out: those of the worker's active and killed jobs not handed out in the last 30 s. */
  lemma PollIsRecorded(db: Db, e: Event, w: string, j: string)
    requires e.op == Op.TakeKills(w) && j in db.jobs
    ensures var x, row := Apply(db, e), db.jobs[j];
            && x == db.(jobs := x.jobs) && x.jobs.Keys == db.jobs.Keys
            && x.jobs[j] == if && row.worker == w && row.killRequested && row.killDeliveredAt <= e.now - 30
                               && (row.state == Assigned || row.state == Running || row.state == Killed)
                            then row.(killDeliveredAt := e.now) else row
  {
  }
}
