/**
 What every transaction leaves alone: a job's place in the queue, a finished
 job's state, who owns a device, and why a device is out of the pool.
 */
module Effects {
  import opened Model
  import opened Transactions
  import Queue
  import Selector

  // ----- Jobs

  ghost predicate SameTicket(a: Job, b: Job) {
    && a.row == b.row && a.selector == b.selector && a.priority == b.priority && a.queuedAt == b.queuedAt
    && a.submitter == b.submitter && a.key == b.key && a.kind == b.kind
  }

  /** b is a's row later on: never back in the queue, never out of a terminal state, never moved once placed. */
  ghost predicate JobLater(a: Job, b: Job) {
    && SameTicket(a, b)
    && (b.state.Queued? ==> a.state.Queued? && b.device == a.device)
    && (a.state.Terminal() ==> b.state == a.state)
    && (!a.state.Queued? ==> !b.state.Queued? && b.worker == a.worker && b.device == a.device)
  }

  ghost predicate JobKept(db: Db, e: Db, j: string) {
    && (j in db.jobs ==> j in e.jobs && JobLater(db.jobs[j], e.jobs[j]))
    && (j in e.jobs && j !in db.jobs ==> e.jobs[j].state.Queued?)
  }

  ghost predicate JobsKept(db: Db, e: Db) {
    e.jobs.Keys == db.jobs.Keys && e.nextRow == db.nextRow && forall j :: JobKept(db, e, j)
  }

  // ----- Devices

  /** While a device stays unhealthy its reason changes only to fault. */
  ghost predicate ReasonKept(v: Device, w: Device) {
    v.state.Unhealthy? && w.state.Unhealthy? ==> w.reason == v.reason || w.reason == Reason.Fault
  }

  predicate Faulty(v: Device) {
    v.state.Unhealthy? && v.reason == Reason.Fault
  }

  /** d keeps its owner, and its quarantine as far as only a clear may lift it. */
  ghost predicate DeviceKept(db: Db, e: Db, d: string) {
    d in e.devices ==>
      && d in db.devices && e.devices[d].worker == db.devices[d].worker
      && ReasonKept(db.devices[d], e.devices[d])
      && (Faulty(db.devices[d]) ==> Faulty(e.devices[d]))
  }

  ghost predicate Kept(db: Db, e: Db) {
    JobsKept(db, e) && forall d :: DeviceKept(db, e, d)
  }

  /** Only an assignment takes a job from the queue to a device. */
  ghost predicate PlacesNone(db: Db, e: Db) {
    forall j :: j in db.jobs && db.jobs[j].state.Queued? && j in e.jobs ==> !e.jobs[j].state.Active()
  }

  ghost predicate ReadiesNone(db: Db, e: Db) {
    forall d :: d in e.devices && e.devices[d].state.Ready? ==> d in db.devices && db.devices[d].state.Ready?
  }

  ghost predicate RetiresNone(db: Db, e: Db) {
    forall d :: d in db.devices ==> d in e.devices
  }

  /** No kill flag was delivered or offered anew. */
  ghost predicate StampsKept(db: Db, e: Db) {
    forall j :: j in db.jobs && j in e.jobs ==> e.jobs[j].killDeliveredAt == db.jobs[j].killDeliveredAt
  }

  /** No kill flag was withdrawn. */
  ghost predicate FlagsKept(db: Db, e: Db) {
    forall j :: j in db.jobs && j in e.jobs && db.jobs[j].killRequested ==> e.jobs[j].killRequested
  }

  /** No lease was granted, moved or renewed. */
  ghost predicate LeasesKept(db: Db, e: Db) {
    forall l :: l in e.leases ==>
      && l in db.leases
      && e.leases[l].job == db.leases[l].job && e.leases[l].device == db.leases[l].device
      && e.leases[l].expires == db.leases[l].expires && e.leases[l].kind == db.leases[l].kind
  }

  ghost predicate WorkersKept(db: Db, e: Db) {
    e.workers == db.workers
  }

  ghost predicate HistoryKept(db: Db, e: Db) {
    e.recoveries == db.recoveries
  }

  lemma KeptIfSame(db: Db, e: Db)
    requires e.jobs == db.jobs && e.nextRow == db.nextRow && e.devices == db.devices
    ensures Kept(db, e)
  {
  }

  lemma SameJobs(db: Db, e: Db)
    requires e.jobs == db.jobs && e.nextRow == db.nextRow
    ensures JobsKept(db, e) && PlacesNone(db, e) && StampsKept(db, e) && FlagsKept(db, e)
  {
  }

  lemma SameDevices(db: Db, e: Db)
    requires e.devices == db.devices
    ensures (forall d :: DeviceKept(db, e, d)) && ReadiesNone(db, e) && RetiresNone(db, e)
  {
  }

  lemma SameLeases(db: Db, e: Db)
    requires e.leases == db.leases
    ensures LeasesKept(db, e)
  {
  }

  lemma OneJob(db: Db, e: Db, j: string, job: Job)
    requires j in db.jobs && e.jobs == db.jobs[j := job] && e.nextRow == db.nextRow && JobLater(db.jobs[j], job)
    ensures JobsKept(db, e)
    ensures !(db.jobs[j].state.Queued? && job.state.Active()) ==> PlacesNone(db, e)
    ensures job.killDeliveredAt == db.jobs[j].killDeliveredAt ==> StampsKept(db, e)
    ensures (db.jobs[j].killRequested ==> job.killRequested) ==> FlagsKept(db, e)
  {
  }

  lemma OneDevice(db: Db, e: Db, d: string, v: Device)
    requires d in db.devices && e.devices == db.devices[d := v] && v.worker == db.devices[d].worker
    requires ReasonKept(db.devices[d], v) && (Faulty(db.devices[d]) ==> Faulty(v))
    ensures (forall x :: DeviceKept(db, e, x)) && RetiresNone(db, e)
    ensures (v.state.Ready? ==> db.devices[d].state.Ready?) ==> ReadiesNone(db, e)
  {
  }

  lemma AssignKeeps(db: Db, j: string, d: string, now: int)
    ensures Kept(db, Assign(db, j, d, now))
    ensures ReadiesNone(db, Assign(db, j, d, now)) && RetiresNone(db, Assign(db, j, d, now))
    ensures WorkersKept(db, Assign(db, j, d, now)) && HistoryKept(db, Assign(db, j, d, now)) && StampsKept(db, Assign(db, j, d, now)) && FlagsKept(db, Assign(db, j, d, now))
  {
    var e := Assign(db, j, d, now);
    if AssignOutcomeOf(db, j, d) == Placed {
      OneJob(db, e, j, e.jobs[j]);
      OneDevice(db, e, d, e.devices[d]);
      hide JobsKept, DeviceKept, ReadiesNone, RetiresNone;
      assert StampsKept(db, e);
    } else {
      SameJobs(db, e);
      SameDevices(db, e);
    }
  }

  lemma MarkRunningKeeps(db: Db, j: string)
    ensures Kept(db, MarkRunning(db, j))
    ensures PlacesNone(db, MarkRunning(db, j)) && ReadiesNone(db, MarkRunning(db, j)) && RetiresNone(db, MarkRunning(db, j))
    ensures WorkersKept(db, MarkRunning(db, j)) && HistoryKept(db, MarkRunning(db, j)) && LeasesKept(db, MarkRunning(db, j)) && StampsKept(db, MarkRunning(db, j)) && FlagsKept(db, MarkRunning(db, j))
  {
    var e := MarkRunning(db, j);
    if e != db { OneJob(db, e, j, e.jobs[j]); } else { SameJobs(db, e); }
    SameDevices(db, e);
    SameLeases(db, e);
    hide JobsKept, DeviceKept, PlacesNone, ReadiesNone, RetiresNone, StampsKept, FlagsKept, LeasesKept;
  }

  lemma ReleaseKeeps(db: Db, j: string, state: JobState, reason: string, now: int)
    ensures Kept(db, Release(db, j, state, reason, now))
    ensures PlacesNone(db, Release(db, j, state, reason, now)) && RetiresNone(db, Release(db, j, state, reason, now))
    ensures WorkersKept(db, Release(db, j, state, reason, now)) && HistoryKept(db, Release(db, j, state, reason, now)) && LeasesKept(db, Release(db, j, state, reason, now)) && StampsKept(db, Release(db, j, state, reason, now)) && FlagsKept(db, Release(db, j, state, reason, now))
  {
    var e := Release(db, j, state, reason, now);
    if !state.Terminal() || j !in db.jobs || db.jobs[j].state.Terminal() {
      UnchangedLeaves(db);
    } else {
      OneJob(db, e, j, e.jobs[j]);
      var d := db.jobs[j].device;
      if e.devices != db.devices { OneDevice(db, e, d, e.devices[d]); } else { SameDevices(db, e); }
      ReleasedKeepsLeases(db, e, j);
    }
    hide JobsKept, DeviceKept, PlacesNone, RetiresNone, StampsKept, FlagsKept, LeasesKept;
  }

  lemma ReleasedKeepsLeases(db: Db, e: Db, j: string)
    requires e.leases == ReleasedFor(db.leases, {j})
    ensures LeasesKept(db, e)
  {
  }

  lemma UnchangedLeaves(db: Db)
    ensures Kept(db, db) && PlacesNone(db, db) && RetiresNone(db, db) && LeasesKept(db, db) && StampsKept(db, db) && FlagsKept(db, db)
  {
  }

  lemma UnchangedSides(db: Db)
    ensures WorkersKept(db, db) && HistoryKept(db, db)
  {
  }

  lemma ReportKeeps(db: Db, w: string, j: string, state: JobState, reason: string, now: int)
    ensures Kept(db, Report(db, w, j, state, reason, now))
    ensures PlacesNone(db, Report(db, w, j, state, reason, now)) && RetiresNone(db, Report(db, w, j, state, reason, now))
    ensures WorkersKept(db, Report(db, w, j, state, reason, now)) && HistoryKept(db, Report(db, w, j, state, reason, now)) && LeasesKept(db, Report(db, w, j, state, reason, now)) && StampsKept(db, Report(db, w, j, state, reason, now)) && FlagsKept(db, Report(db, w, j, state, reason, now))
  {
    hide Release, MarkRunning, JobsKept, DeviceKept, PlacesNone, RetiresNone, StampsKept, FlagsKept, LeasesKept, WorkersKept, HistoryKept;
    MarkRunningKeeps(db, j);
    ReleaseKeeps(db, j, state, reason, now);
    UnchangedLeaves(db);
    UnchangedSides(db);
  }

  lemma CancelKeeps(db: Db, j: string, reason: string, now: int)
    ensures Kept(db, CancelQueued(db, j, reason, now))
    ensures PlacesNone(db, CancelQueued(db, j, reason, now)) && ReadiesNone(db, CancelQueued(db, j, reason, now)) && RetiresNone(db, CancelQueued(db, j, reason, now))
    ensures WorkersKept(db, CancelQueued(db, j, reason, now)) && HistoryKept(db, CancelQueued(db, j, reason, now)) && LeasesKept(db, CancelQueued(db, j, reason, now)) && StampsKept(db, CancelQueued(db, j, reason, now)) && FlagsKept(db, CancelQueued(db, j, reason, now))
  {
    var e := CancelQueued(db, j, reason, now);
    if j in db.jobs && db.jobs[j].state.Queued? { OneJob(db, e, j, e.jobs[j]); } else { SameJobs(db, e); }
    SameDevices(db, e);
    SameLeases(db, e);
    hide JobsKept, DeviceKept, PlacesNone, ReadiesNone, RetiresNone, StampsKept, FlagsKept, LeasesKept;
  }

  lemma KillKeeps(db: Db, j: string, reason: string, finalize: bool, now: int)
    ensures Kept(db, RequestKill(db, j, reason, finalize, now))
    ensures PlacesNone(db, RequestKill(db, j, reason, finalize, now)) && ReadiesNone(db, RequestKill(db, j, reason, finalize, now)) && RetiresNone(db, RequestKill(db, j, reason, finalize, now))
    ensures WorkersKept(db, RequestKill(db, j, reason, finalize, now)) && HistoryKept(db, RequestKill(db, j, reason, finalize, now)) && LeasesKept(db, RequestKill(db, j, reason, finalize, now)) && FlagsKept(db, RequestKill(db, j, reason, finalize, now))
  {
    var e := RequestKill(db, j, reason, finalize, now);
    if Active(db, j) { OneJob(db, e, j, e.jobs[j]); } else { SameJobs(db, e); }
    SameDevices(db, e);
    hide JobsKept, DeviceKept, PlacesNone, ReadiesNone, RetiresNone;
    match KillOutcomeOf(db, j, finalize)
    case NotCancellable =>
    case Requested =>
    case Finalized =>
  }

  lemma TakeKillsKeeps(db: Db, w: string, now: int)
    ensures Kept(db, TakeKills(db, w, now))
    ensures PlacesNone(db, TakeKills(db, w, now)) && ReadiesNone(db, TakeKills(db, w, now)) && RetiresNone(db, TakeKills(db, w, now))
    ensures WorkersKept(db, TakeKills(db, w, now)) && HistoryKept(db, TakeKills(db, w, now)) && LeasesKept(db, TakeKills(db, w, now)) && FlagsKept(db, TakeKills(db, w, now))
  {
  }

  lemma SweepKeeps(db: Db, a: SweepArgs, now: int)
    ensures Kept(db, Sweep(db, a, now))
    ensures PlacesNone(db, Sweep(db, a, now)) && ReadiesNone(db, Sweep(db, a, now)) && RetiresNone(db, Sweep(db, a, now))
    ensures WorkersKept(db, Sweep(db, a, now)) && HistoryKept(db, Sweep(db, a, now)) && LeasesKept(db, Sweep(db, a, now)) && StampsKept(db, Sweep(db, a, now)) && FlagsKept(db, Sweep(db, a, now))
  {
    SweepKeepsJobs(db, a, now);
    SweepKeepsDevices(db, a, now);
    SweepKeepsLeases(db, a, now);
    hide JobsKept, DeviceKept, PlacesNone, ReadiesNone, RetiresNone, StampsKept, FlagsKept, LeasesKept;
  }

  lemma SweepKeepsJobs(db: Db, a: SweepArgs, now: int)
    ensures var e := Sweep(db, a, now); JobsKept(db, e) && PlacesNone(db, e) && StampsKept(db, e) && FlagsKept(db, e)
  {
    hide WrittenOff, LapsedFor;
  }

  lemma SweepKeepsDevices(db: Db, a: SweepArgs, now: int)
    ensures var e := Sweep(db, a, now); (forall d :: DeviceKept(db, e, d)) && ReadiesNone(db, e) && RetiresNone(db, e)
  {
    var e := Sweep(db, a, now);
    forall d ensures DeviceKept(db, e, d) && (d in db.devices && e.devices[d].state.Ready? ==> db.devices[d].state.Ready?) {}
  }

  lemma SweepKeepsLeases(db: Db, a: SweepArgs, now: int)
    ensures LeasesKept(db, Sweep(db, a, now))
  {
    hide Reaped, Stale;
  }

  lemma BeatKeeps(db: Db, w: string, running: set<string>, retain: bool, now: int)
    ensures Kept(db, Heartbeat(db, w, running, retain, now))
    ensures PlacesNone(db, Heartbeat(db, w, running, retain, now)) && RetiresNone(db, Heartbeat(db, w, running, retain, now))
    ensures StampsKept(db, Heartbeat(db, w, running, retain, now)) && HistoryKept(db, Heartbeat(db, w, running, retain, now))
  {
    var e := Heartbeat(db, w, running, retain, now);
    forall j ensures JobKept(db, e, j) {}
    forall d ensures DeviceKept(db, e, d) {}
  }

  lemma CeilingKeeps(db: Db, d: string, c: int)
    ensures Kept(db, SetCeiling(db, d, c))
    ensures PlacesNone(db, SetCeiling(db, d, c)) && ReadiesNone(db, SetCeiling(db, d, c)) && RetiresNone(db, SetCeiling(db, d, c))
    ensures WorkersKept(db, SetCeiling(db, d, c)) && HistoryKept(db, SetCeiling(db, d, c)) && LeasesKept(db, SetCeiling(db, d, c)) && StampsKept(db, SetCeiling(db, d, c)) && FlagsKept(db, SetCeiling(db, d, c))
  {
    var e := SetCeiling(db, d, c);
    if d in db.devices { OneDevice(db, e, d, e.devices[d]); } else { SameDevices(db, e); }
    SameJobs(db, e);
    SameLeases(db, e);
    hide JobsKept, DeviceKept, PlacesNone, ReadiesNone, RetiresNone, StampsKept, FlagsKept, LeasesKept;
  }

  lemma RecoverKeeps(db: Db, w: string, p: Proof, now: int)
    ensures Kept(db, AutoRecover(db, w, p, now))
    ensures PlacesNone(db, AutoRecover(db, w, p, now)) && RetiresNone(db, AutoRecover(db, w, p, now))
    ensures WorkersKept(db, AutoRecover(db, w, p, now)) && LeasesKept(db, AutoRecover(db, w, p, now)) && StampsKept(db, AutoRecover(db, w, p, now)) && FlagsKept(db, AutoRecover(db, w, p, now))
  {
    var e := AutoRecover(db, w, p, now);
    forall d ensures DeviceKept(db, e, d) {}
  }

  lemma FaultKeeps(db: Db, d: string, detail: string)
    ensures Kept(db, SetDeviceState(db, d, Unhealthy, detail))
    ensures PlacesNone(db, SetDeviceState(db, d, Unhealthy, detail)) && ReadiesNone(db, SetDeviceState(db, d, Unhealthy, detail)) && RetiresNone(db, SetDeviceState(db, d, Unhealthy, detail))
    ensures WorkersKept(db, SetDeviceState(db, d, Unhealthy, detail)) && HistoryKept(db, SetDeviceState(db, d, Unhealthy, detail)) && LeasesKept(db, SetDeviceState(db, d, Unhealthy, detail)) && StampsKept(db, SetDeviceState(db, d, Unhealthy, detail)) && FlagsKept(db, SetDeviceState(db, d, Unhealthy, detail))
  {
    var e := SetDeviceState(db, d, Unhealthy, detail);
    if d in db.devices { OneDevice(db, e, d, e.devices[d]); } else { SameDevices(db, e); }
    SameJobs(db, e);
    SameLeases(db, e);
    hide JobsKept, DeviceKept, PlacesNone, ReadiesNone, RetiresNone, StampsKept, FlagsKept, LeasesKept;
  }

  lemma RetireKeeps(db: Db, d: string)
    ensures Kept(db, RetireDevice(db, d))
    ensures PlacesNone(db, RetireDevice(db, d)) && ReadiesNone(db, RetireDevice(db, d))
    ensures WorkersKept(db, RetireDevice(db, d)) && HistoryKept(db, RetireDevice(db, d)) && LeasesKept(db, RetireDevice(db, d)) && StampsKept(db, RetireDevice(db, d)) && FlagsKept(db, RetireDevice(db, d))
  {
    var e := RetireDevice(db, d);
    SameJobs(db, e);
    hide CanRetire, JobsKept, PlacesNone, StampsKept, FlagsKept;
  }

  /** A clear changes one row. */
  lemma ClearKeeps(db: Db, d: string)
    ensures var e := ClearDevice(db, d);
            && JobsKept(db, e)
            && e.devices.Keys == db.devices.Keys
            && (forall x :: x != d ==> DeviceKept(db, e, x))
            && (d in e.devices ==> e.devices[d].worker == db.devices[d].worker && ReasonKept(db.devices[d], e.devices[d]))
    ensures PlacesNone(db, ClearDevice(db, d)) && RetiresNone(db, ClearDevice(db, d))
    ensures WorkersKept(db, ClearDevice(db, d)) && HistoryKept(db, ClearDevice(db, d)) && LeasesKept(db, ClearDevice(db, d)) && StampsKept(db, ClearDevice(db, d)) && FlagsKept(db, ClearDevice(db, d))
  {
    hide Leased;
    var e := ClearDevice(db, d);
    assert e == db.(devices := e.devices);
    assert e.devices == db.devices || e.devices == db.devices[d := Cleared(db.devices[d])];
    forall j ensures JobKept(db, e, j) {}
    forall x | x != d ensures DeviceKept(db, e, x) {}
  }

  lemma ReapKeeps(db: Db, w: string, rebooted: bool, now: int)
    ensures Kept(db, ReapInFlight(db, w, rebooted, now))
    ensures ReapInFlight(db, w, rebooted, now).devices.Keys == db.devices.Keys
    ensures PlacesNone(db, ReapInFlight(db, w, rebooted, now))
    ensures WorkersKept(db, ReapInFlight(db, w, rebooted, now)) && HistoryKept(db, ReapInFlight(db, w, rebooted, now)) && LeasesKept(db, ReapInFlight(db, w, rebooted, now)) && StampsKept(db, ReapInFlight(db, w, rebooted, now)) && FlagsKept(db, ReapInFlight(db, w, rebooted, now))
  {
    var e := ReapInFlight(db, w, rebooted, now);
    forall j ensures JobKept(db, e, j) {}
    forall d ensures DeviceKept(db, e, d) {}
  }

  lemma RestoreKeeps(db: Db, w: string, guard: bool)
    ensures Kept(db, RestoreRebooted(db, w, guard))
    ensures RestoreRebooted(db, w, guard).devices.Keys == db.devices.Keys
    ensures WorkersKept(db, RestoreRebooted(db, w, guard)) && HistoryKept(db, RestoreRebooted(db, w, guard)) && LeasesKept(db, RestoreRebooted(db, w, guard)) && StampsKept(db, RestoreRebooted(db, w, guard)) && FlagsKept(db, RestoreRebooted(db, w, guard))
  {
    var e := RestoreRebooted(db, w, guard);
    forall d ensures DeviceKept(db, e, d) {}
  }

  /** A registration gives w the devices it declares, and no other device a new owner or reason. */
  ghost predicate Registered(db: Db, e: Db, w: string, ds: set<string>, d: string) {
    && (d in e.devices ==> d in db.devices || d in ds)
    && (d in e.devices && d !in db.devices ==> e.devices[d] == Device(w, Ready, NoReason, "", 0))
    && (d in db.devices ==>
          && d in e.devices
          && e.devices[d].worker == (if d in ds then w else db.devices[d].worker)
          && ReasonKept(db.devices[d], e.devices[d])
          && (Faulty(db.devices[d]) ==> Faulty(e.devices[d])))
  }

  lemma UpsertKeeps(db: Db, w: string, boot: string, ds: set<string>, now: int)
    ensures JobsKept(db, Upsert(db, w, boot, ds, now))
    ensures forall d :: Registered(db, Upsert(db, w, boot, ds, now), w, ds, d)
    ensures PlacesNone(db, Upsert(db, w, boot, ds, now))
    ensures LeasesKept(db, Upsert(db, w, boot, ds, now)) && StampsKept(db, Upsert(db, w, boot, ds, now)) && FlagsKept(db, Upsert(db, w, boot, ds, now))
    ensures HistoryKept(db, Upsert(db, w, boot, ds, now))
    ensures Upsert(db, w, boot, ds, now).workers == db.workers[w := Worker(boot, now)]
  {
    var start := db.(workers := db.workers[w := Worker(boot, now)]);
    var rebooted := Rebooted(db, w, boot);
    var reaped := ReapInFlight(start, w, rebooted, now);
    ReapKeeps(start, w, rebooted, now);
    RestoreKeeps(reaped, w, true);
    var r := if rebooted then RestoreRebooted(reaped, w, true) else reaped;
    var e := Upsert(db, w, boot, ds, now);
    assert e == r.(devices := Declare(r.devices, w, ds));
    KeptIfSame(reaped, reaped);
    DeclareRegisters(start, r, w, ds);
    SameSides(start, reaped, db, e);
    hide ReapInFlight, Upsert, DeviceKept, Declare, Registered, JobsKept, PlacesNone, StampsKept, FlagsKept, LeasesKept;
    forall d ensures Registered(db, e, w, ds, d) {
      SameRegistered(start, db, e, w, ds, d);
    }
  }

  lemma SameSides(x: Db, y: Db, db: Db, e: Db)
    requires x.jobs == db.jobs && x.leases == db.leases && x.nextRow == db.nextRow
    requires y.jobs == e.jobs && y.leases == e.leases && y.nextRow == e.nextRow
    requires JobsKept(x, y) && PlacesNone(x, y) && StampsKept(x, y) && FlagsKept(x, y) && LeasesKept(x, y)
    ensures JobsKept(db, e) && PlacesNone(db, e) && StampsKept(db, e) && FlagsKept(db, e) && LeasesKept(db, e)
  {
    forall j ensures JobKept(db, e, j) { assert JobKept(x, y, j); }
  }

  lemma SameRegistered(start: Db, db: Db, e: Db, w: string, ds: set<string>, d: string)
    requires start.devices == db.devices && Registered(start, e, w, ds, d)
    ensures Registered(db, e, w, ds, d)
  {
  }

  lemma DeclareRegisters(db: Db, r: Db, w: string, ds: set<string>)
    requires (forall d :: DeviceKept(db, r, d)) && r.devices.Keys == db.devices.Keys
    ensures forall d :: Registered(db, r.(devices := Declare(r.devices, w, ds)), w, ds, d)
  {
    forall d ensures Registered(db, r.(devices := Declare(r.devices, w, ds)), w, ds, d) { assert DeviceKept(db, r, d); }
  }

  // ----- Submission

  /** A submission at most adds one queued job. */
  ghost predicate Added(db: Db, e: Db, id: string, job: Job) {
    && id != "" && id !in db.jobs && job.state.Queued? && job.worker == "" && job.row == db.nextRow
    && e == db.(jobs := db.jobs[id := job], nextRow := db.nextRow + 1)
  }

  lemma SubmitAdds(db: Db, seen: Queue.Seen, q: Selector.Quantities, id: string, r: Queue.Request, now: int)
    ensures var e := Queue.Submit(db, seen, q, id, r, now); e == db || exists job :: Added(db, e, id, job)
  {
    var s, e := Queue.Submitted(db, seen, q, r, now), Queue.Submit(db, seen, q, id, r, now);
    if e != db { assert Added(db, e, id, s.job); }
  }

  lemma SubmitKeeps(db: Db, seen: Queue.Seen, q: Selector.Quantities, id: string, r: Queue.Request, now: int)
    ensures var e := Queue.Submit(db, seen, q, id, r, now);
            && (forall j :: JobKept(db, e, j)) && e.devices == db.devices
            && PlacesNone(db, e) && ReadiesNone(db, e) && RetiresNone(db, e)
            && WorkersKept(db, e) && HistoryKept(db, e) && LeasesKept(db, e) && StampsKept(db, e) && FlagsKept(db, e)
  {
    SubmitAdds(db, seen, q, id, r, now);
    hide Queue.Submit;
  }
}
