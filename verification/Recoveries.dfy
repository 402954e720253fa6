/**
 Registration and automatic recovery: what a worker's restart leaves of its
 jobs and devices, and how often a device may come back without a human.
 */
module Recoveries {
  import opened Model
  import opened Transactions
  import opened Invariant
  import opened Effects
  import opened Ownership
  import opened Runs

  // ----- Registration reconciles

  function SetCeilings(db: Db, ceilings: map<string, int>): Db {
    db.(devices := map d | d in db.devices ::
      if d in ceilings then db.devices[d].(ceiling := if ceilings[d] < 0 then 0 else ceilings[d]) else db.devices[d])
  }

  /** handleRegister: reconcile and declare, then the ceilings, then automatic recovery. */
  function Registration(db: Db, w: string, boot: string, ceilings: map<string, int>, p: Proof, now: int): Db {
    AutoRecover(SetCeilings(Upsert(db, w, boot, ceilings.Keys, now), ceilings), w, p, now)
  }

  /** d was out of the pool, or carried one of its worker's jobs. */
  predicate InQuestion(db: Db, w: string, d: string) {
    d in db.devices && db.devices[d].worker == w && (db.devices[d].state.Unhealthy? || Orphaned(db, w, d))
  }

  /** Why d is in question: its quarantine, or the job the restart cut short. */
  function Cause(db: Db, d: string): Reason
    requires d in db.devices
  {
    if db.devices[d].state.Unhealthy? then db.devices[d].reason else Reason.Registration
  }

  ghost predicate OwnDevices(db: Db, w: string, ds: set<string>) {
    forall d :: d in ds && d in db.devices ==> db.devices[d].worker == w
  }

  /** In a sound state a host without a colon in its name declares no other worker's device. */
  lemma PlainHostOwnsItsDevices(db: Db, host: string, names: set<string>)
    requires Sound(db) && ':' !in host
    ensures OwnDevices(db, host, DeviceIds(host, names))
  {
    forall d | d in DeviceIds(host, names) && d in db.devices ensures db.devices[d].worker == host {
      IdsBelongToHost(host, names, d);
      assert Keyed(db, d);
    }
  }

  lemma ReapedInQuestion(db: Db, w: string, rebooted: bool, now: int, d: string)
    requires Valid(db) && InQuestion(db, w, d)
    ensures d in ReapInFlight(db, w, rebooted, now).devices
    ensures var v, u := ReapInFlight(db, w, rebooted, now).devices[d], db.devices[d];
            && v.worker == w
            && (|| v == u.(state := Unhealthy, reason := Cause(db, d))
                || (rebooted && v == u.(state := Ready, reason := NoReason, detail := "") && Clearable(Cause(db, d))))
            && (!rebooted ==> v.state.Unhealthy?)
  {
    assert DeviceOk(db, d);
    hide Valid, ReleasedFor, Leased;
    if Orphaned(db, w, d) {
      var j :| j in InFlight(db, w) && db.jobs[j].device == d;
      JobsDevice(db, j);
    }
    hide Orphaned, InFlight;
  }

  /** The worker is known under one boot ID and presents another. */
  lemma RebootedMeans(db: Db, w: string, boot: string)
    ensures Rebooted(db, w, boot) <==> w in db.workers && boot != "" && db.workers[w].boot !in {"", boot}
  {
  }

  /** Reconciled: back in the pool exactly when the boot ID changed and the cause is one a reboot answers. */
  lemma ReconciledInQuestion(db: Db, w: string, boot: string, now: int, d: string)
    requires Valid(db) && InQuestion(db, w, d)
    ensures d in Reconciled(db, w, boot, now, true).devices
    ensures var v, u := Reconciled(db, w, boot, now, true).devices[d], db.devices[d];
            && v.worker == w
            && v == if Rebooted(db, w, boot) && Clearable(Cause(db, d)) then u.(state := Ready, reason := NoReason, detail := "")
                    else u.(state := Unhealthy, reason := Cause(db, d))
  {
    hide Valid, ReapInFlight, InQuestion, Cause, Leased;
    var start := db.(workers := db.workers[w := Worker(boot, now)]);
    var rebooted := Rebooted(db, w, boot);
    WorkersKeepValid(db, start.workers);
    StillInQuestion(db, w, start.workers, d);
    ReapedInQuestion(start, w, rebooted, now, d);
    ReapFreesWorker(start, w, rebooted, now, d);
  }

  lemma StillInQuestion(db: Db, w: string, workers: map<string, Worker>, d: string)
    requires InQuestion(db, w, d)
    ensures InQuestion(db.(workers := workers), w, d) && Cause(db.(workers := workers), d) == Cause(db, d)
  {
    assert Orphaned(db.(workers := workers), w, d) <==> Orphaned(db, w, d);
  }

  /** Declaring the device again leaves the verdict standing. */
  lemma UpsertInQuestion(db: Db, w: string, boot: string, ds: set<string>, now: int, d: string)
    requires Valid(db) && InQuestion(db, w, d)
    ensures d in Upsert(db, w, boot, ds, now).devices
    ensures var v, u := Upsert(db, w, boot, ds, now).devices[d], db.devices[d];
            && v.worker == w
            && v == if Rebooted(db, w, boot) && Clearable(Cause(db, d)) then u.(state := Ready, reason := NoReason, detail := "")
                    else u.(state := Unhealthy, reason := Cause(db, d))
  {
    ReconciledInQuestion(db, w, boot, now, d);
    var r := Reconciled(db, w, boot, now, true);
    assert Upsert(db, w, boot, ds, now) == r.(devices := Declare(r.devices, w, ds));
    hide Upsert, Reconciled, Valid, InQuestion;
  }

  /**
   A worker that comes back under the boot ID it had, or without one on either
   side, may have left processes behind: its quarantined devices and those of its jobs are
   out of the pool, with the reason they had or as cut short by a registration.
   */
  lemma RestartQuarantines(db: Db, w: string, boot: string, ds: set<string>, now: int, d: string)
    requires Valid(db) && InQuestion(db, w, d)
    requires w in db.workers ==> db.workers[w].boot == "" || boot == "" || db.workers[w].boot == boot
    ensures d in Upsert(db, w, boot, ds, now).devices
    ensures var v, x := db.devices[d], Upsert(db, w, boot, ds, now).devices[d];
            x == v.(state := Unhealthy, reason := if v.state == Unhealthy then v.reason else Reason.Registration)
  {
    hide Upsert, Valid, InQuestion;
    UpsertInQuestion(db, w, boot, ds, now, d);
    RebootedMeans(db, w, boot);
  }

  /**
   One that comes back under another boot ID cannot have: the devices of its jobs, and those
   out for a reason a reboot answers, are ready; any other quarantine stands.
   */
  lemma RebootReturns(db: Db, w: string, boot: string, ds: set<string>, now: int, d: string)
    requires Valid(db) && InQuestion(db, w, d)
    requires w in db.workers && db.workers[w].boot != "" && boot != "" && db.workers[w].boot != boot
    ensures d in Upsert(db, w, boot, ds, now).devices
    ensures var v, x := db.devices[d], Upsert(db, w, boot, ds, now).devices[d];
            && (v.state != Unhealthy || v.reason == WorkerLost || v.reason == LeaseExpired || v.reason == Reason.Registration ==>
                  x == v.(state := Ready, reason := NoReason, detail := ""))
            && (v.state == Unhealthy && (v.reason == Reason.Fault || v.reason == NoReason) ==> x == v)
  {
    hide Upsert, Valid, InQuestion;
    UpsertInQuestion(db, w, boot, ds, now, d);
    RebootedMeans(db, w, boot);
  }

  /** Every active job of the worker is lost, with a reason that says which of the two it was, and its lease released. */
  lemma RegistrationEndsJobs(db: Db, w: string, boot: string, ds: set<string>, now: int, j: string)
    requires j in db.jobs
    ensures j in Upsert(db, w, boot, ds, now).jobs
    ensures var x := Upsert(db, w, boot, ds, now);
            if Active(db, j) && db.jobs[j].worker == w then
              && x.jobs[j].state == Lost && x.jobs[j].finishedAt == now && (forall l :: !HeldBy(x, l, j))
              && x.jobs[j] == db.jobs[j].(state := Lost, finishedAt := now, killReason := x.jobs[j].killReason)
              && (w in db.workers && db.workers[w].boot != "" && boot != "" && db.workers[w].boot != boot ==>
                    x.jobs[j].killReason == "host rebooted")
              && (w !in db.workers || db.workers[w].boot == "" || boot == "" || db.workers[w].boot == boot ==>
                    x.jobs[j].killReason == "worker re-registered")
            else x.jobs[j] == db.jobs[j]
  {
    var start := db.(workers := db.workers[w := Worker(boot, now)]);
    UpsertJobs(db, w, boot, ds, now);
    assert InFlight(start, w) == InFlight(db, w);
    RebootedMeans(db, w, boot);
    hide Upsert, ReapedDevice, Rebooted;
  }

  /** Exactly the leases of those jobs are released. */
  lemma RegistrationReleases(db: Db, w: string, boot: string, ds: set<string>, now: int, l: nat)
    requires l in db.leases
    ensures l in Upsert(db, w, boot, ds, now).leases
    ensures Upsert(db, w, boot, ds, now).leases.Keys == db.leases.Keys
    ensures Upsert(db, w, boot, ds, now).leases[l] ==
            if Active(db, db.leases[l].job) && db.jobs[db.leases[l].job].worker == w then db.leases[l].(live := false) else db.leases[l]
  {
    UpsertJobs(db, w, boot, ds, now);
    assert InFlight(db.(workers := db.workers[w := Worker(boot, now)]), w) == InFlight(db, w);
    hide Upsert, ReapedDevice, Rebooted;
  }

  lemma UpsertJobs(db: Db, w: string, boot: string, ds: set<string>, now: int)
    ensures var x := Upsert(db, w, boot, ds, now);
            var r := ReapInFlight(db.(workers := db.workers[w := Worker(boot, now)]), w, Rebooted(db, w, boot), now);
            && x == db.(workers := db.workers[w := Worker(boot, now)], devices := x.devices, jobs := x.jobs, leases := x.leases)
            && x.jobs == r.jobs && x.leases == r.leases
  {
    hide Rebooted, InFlight, Declare;
  }

  /** The other devices: a new one is entered ready, a declared one becomes ready unless it is out, one not declared is left alone. */
  lemma RegistrationDeclares(db: Db, w: string, boot: string, ds: set<string>, now: int, d: string)
    requires Valid(db) && !InQuestion(db, w, d)
    ensures var x := Upsert(db, w, boot, ds, now);
            && x == db.(workers := db.workers[w := Worker(boot, now)], devices := x.devices, jobs := x.jobs, leases := x.leases)
            && (d in x.devices <==> d in db.devices || d in ds)
            && (d !in db.devices && d in ds ==> x.devices[d] == Device(w, Ready, NoReason, "", 0))
            && (d in db.devices && d !in ds ==> x.devices[d] == db.devices[d])
            && (d in db.devices && d in ds && db.devices[d].state == Unhealthy ==> x.devices[d] == db.devices[d].(worker := w))
            && (d in db.devices && d in ds && db.devices[d].state != Unhealthy ==>
                  x.devices[d] == db.devices[d].(worker := w, state := Ready, reason := NoReason))
  {
    hide Upsert, Reconciled, Valid, InQuestion;
    UpsertJobs(db, w, boot, ds, now);
    UpsertDeclares(db, w, boot, ds, now);
    ReconciledOutOfQuestion(db, w, boot, now, d);
  }

  lemma UpsertDeclares(db: Db, w: string, boot: string, ds: set<string>, now: int)
    ensures Upsert(db, w, boot, ds, now).devices == Declare(Reconciled(db, w, boot, now, true).devices, w, ds)
  {
  }

  lemma ReconciledOutOfQuestion(db: Db, w: string, boot: string, now: int, d: string)
    requires Valid(db) && !InQuestion(db, w, d)
    ensures var r := Reconciled(db, w, boot, now, true);
            (d in r.devices <==> d in db.devices) && (d in db.devices ==> r.devices[d] == db.devices[d])
  {
    hide ReapInFlight, Valid, Rebooted;
    var start := db.(workers := db.workers[w := Worker(boot, now)]);
    ReapedOutOfQuestion(db, w, boot, Rebooted(db, w, boot), now, d);
    hide InFlight, Leased;
  }

  lemma ReapedOutOfQuestion(db: Db, w: string, boot: string, rebooted: bool, now: int, d: string)
    requires Valid(db) && !InQuestion(db, w, d)
    ensures var r := ReapInFlight(db.(workers := db.workers[w := Worker(boot, now)]), w, rebooted, now);
            (d in r.devices <==> d in db.devices) && (d in db.devices ==> r.devices[d] == db.devices[d])
  {
    var start := db.(workers := db.workers[w := Worker(boot, now)]);
    assert Orphaned(start, w, d) <==> Orphaned(db, w, d);
    if d in db.devices && db.devices[d].worker != w { NotOrphaned(db, w, d); }
    hide Valid, Orphaned, InFlight, ReleasedFor;
  }

  lemma NoJobLeft(db: Db, w: string, boot: string, ds: set<string>, now: int, j: string)
    ensures Active(Upsert(db, w, boot, ds, now), j) ==> Upsert(db, w, boot, ds, now).jobs[j].worker != w
  {
  }

  lemma NoLeaseLeft(db: Db, w: string, boot: string, ds: set<string>, now: int, d: string)
    requires Valid(db) && OwnDevices(db, w, ds)
    ensures var u := Upsert(db, w, boot, ds, now);
            d in u.devices && u.devices[d].worker == w ==> !Leased(u, d)
  {
    var u, r := Upsert(db, w, boot, ds, now), Reconciled(db, w, boot, now, true);
    ReconciledValid(db, w, boot, now, true);
    assert Leased(u, d) <==> Leased(r, d);
    if d !in db.devices {
      ReconciledLeased(db, w, boot, now, true, d);
      if Leased(db, d) { var l := HolderOf(db, d); }
    } else {
      ReconciledOwner(db, w, boot, now, d);
    }
  }

  ghost predicate Untouched(db: Db, e: Db, w: string) {
    && (forall d :: d in db.devices && db.devices[d].worker != w ==> d in e.devices && e.devices[d] == db.devices[d])
    && (forall j :: j in db.jobs && db.jobs[j].worker != w ==> j in e.jobs && e.jobs[j] == db.jobs[j])
    && (forall l :: l in db.leases && Active(db, db.leases[l].job) && db.jobs[db.leases[l].job].worker != w ==>
          l in e.leases && e.leases[l] == db.leases[l])
  }

  lemma OthersUntouched(db: Db, w: string, boot: string, ceilings: map<string, int>, p: Proof, now: int)
    requires Valid(db) && OwnDevices(db, w, ceilings.Keys)
    ensures Untouched(db, Registration(db, w, boot, ceilings, p, now), w)
  {
    UpsertElsewhere(db, w, boot, ceilings.Keys, now);
    hide Upsert;
  }

  /** The device's row once recovery has run on reconciled tables u. */
  lemma RecoveredRow(u: Db, w: string, p: Proof, now: int, d: string)
    requires d in u.devices && u.devices[d].worker == w && !Leased(u, d)
    requires u.devices[d].state.Ready? || u.devices[d].state.Unhealthy?
    ensures d in AutoRecover(u, w, p, now).devices
    ensures var v := AutoRecover(u, w, p, now).devices[d];
            && (v.state.Ready? || v.state.Unhealthy?)
            && (v.state.Ready? <==> u.devices[d].state.Ready? || (Clearable(u.devices[d].reason) && p.Proves() && Budget(u, d, now)))
  {
    hide Budget, Recent;
  }

  /** Ceilings are no concern of recovery. */
  lemma CeilingsChangeNoState(u: Db, ceilings: map<string, int>, now: int, d: string)
    ensures var c := SetCeilings(u, ceilings);
            && (Leased(c, d) <==> Leased(u, d)) && (Budget(c, d, now) <==> Budget(u, d, now))
            && (d in u.devices ==>
                  && d in c.devices && c.devices[d].worker == u.devices[d].worker
                  && c.devices[d].state == u.devices[d].state && c.devices[d].reason == u.devices[d].reason)
  {
    hide Recent;
  }

  /** How many automatic returns of d were recorded in the hour before now. */
  function ReturnsThisHour(db: Db, d: string, now: int): nat {
    var h := History(db, d);
    |set i | 0 <= i < |h| && h[i].at >= now - 3600|
  }

  lemma {:induction false} RecentCard(h: seq<Recovery>, c: int)
    ensures |Recent(h, c)| == |set i | 0 <= i < |h| && h[i].at >= c|
  {
    var all := set i | 0 <= i < |h| && h[i].at >= c;
    if h == [] {
      assert all == {};
    } else {
      var n := |h| - 1;
      RecentCard(h[..n], c);
      var some := set i | 0 <= i < |h[..n]| && h[..n][i].at >= c;
      assert all == if h[n].at >= c then some + {n} else some;
    }
  }

  lemma BudgetMeans(db: Db, d: string, now: int)
    ensures Budget(db, d, now) <==> ReturnsThisHour(db, d, now) < 3
  {
    RecentCard(History(db, d), now - 3600);
  }

  /** Where d stands in e after w registered with this boot ID and proof p. */
  ghost predicate Decided(db: Db, e: Db, w: string, boot: string, p: Proof, now: int, d: string)
    requires d in db.devices
  {
    var v := db.devices[d];
    var clearable := v.state != Unhealthy || v.reason == WorkerLost || v.reason == LeaseExpired || v.reason == Reason.Registration;
    var rebooted := w in db.workers && db.workers[w].boot != "" && boot != "" && db.workers[w].boot != boot;
    var proved := p.isolated || (p.survivorsChecked && !p.survivorsFound);
    && d in e.devices && (e.devices[d].state == Ready || e.devices[d].state == Unhealthy)
    && (e.devices[d].state == Ready <==> clearable && (rebooted || (proved && ReturnsThisHour(db, d, now) < 3)))
  }

  /**
   After a registration the worker has no active job and none of its devices a
   live lease; a device that was quarantined or carried a job is ready exactly
   when its cause is one a proof about processes answers and either the boot
   ID changed or the worker brought a proof and the device has returns left,
   and unhealthy otherwise; nothing of another worker changed.
   */
  lemma RegistrationReconciles(db: Db, w: string, boot: string, ceilings: map<string, int>, p: Proof, now: int)
    requires Valid(db) && OwnDevices(db, w, ceilings.Keys)
    ensures var e := Registration(db, w, boot, ceilings, p, now);
            && (forall j :: Active(e, j) ==> e.jobs[j].worker != w)
            && (forall d :: d in e.devices && e.devices[d].worker == w ==> !Leased(e, d))
            && Untouched(db, e, w)
    ensures forall d :: InQuestion(db, w, d) ==> Decided(db, Registration(db, w, boot, ceilings, p, now), w, boot, p, now, d)
  {
    OthersUntouched(db, w, boot, ceilings, p, now);
    RegistrationFrees(db, w, boot, ceilings, p, now);
    hide Registration, Valid, Untouched, Rebooted, Clearable, Budget;
    forall d | InQuestion(db, w, d) ensures Decided(db, Registration(db, w, boot, ceilings, p, now), w, boot, p, now, d) {
      RegistrationDecides(db, w, boot, ceilings, p, now, d);
    }
    hide InQuestion;
  }

  lemma RegistrationFrees(db: Db, w: string, boot: string, ceilings: map<string, int>, p: Proof, now: int)
    requires Valid(db) && OwnDevices(db, w, ceilings.Keys)
    ensures var e := Registration(db, w, boot, ceilings, p, now);
            && (forall j :: Active(e, j) ==> e.jobs[j].worker != w)
            && (forall d :: d in e.devices && e.devices[d].worker == w ==> !Leased(e, d))
  {
    hide Upsert, AutoRecover, SetCeilings, Valid;
    var u, e := Upsert(db, w, boot, ceilings.Keys, now), Registration(db, w, boot, ceilings, p, now);
    RegistrationSameJobs(u, w, ceilings, p, now);
    forall j | Active(e, j) ensures e.jobs[j].worker != w { NoJobLeft(db, w, boot, ceilings.Keys, now, j); }
    forall d | d in e.devices && e.devices[d].worker == w ensures !Leased(e, d) {
      NoLeaseLeft(db, w, boot, ceilings.Keys, now, d);
    }
  }

  lemma RegistrationDecides(db: Db, w: string, boot: string, ceilings: map<string, int>, p: Proof, now: int, d: string)
    requires Valid(db) && OwnDevices(db, w, ceilings.Keys) && InQuestion(db, w, d)
    ensures Decided(db, Registration(db, w, boot, ceilings, p, now), w, boot, p, now, d)
  {
    hide Upsert, AutoRecover, SetCeilings, Valid, OwnDevices;
    var u := Upsert(db, w, boot, ceilings.Keys, now);
    UpsertInQuestion(db, w, boot, ceilings.Keys, now, d);
    NoLeaseLeft(db, w, boot, ceilings.Keys, now, d);
    UpsertKeeps(db, w, boot, ceilings.Keys, now);
    hide JobsKept, Registered, PlacesNone, LeasesKept, StampsKept, FlagsKept;
    assert Budget(u, d, now) <==> Budget(db, d, now);
    BudgetMeans(db, d, now);
    RebootedMeans(db, w, boot);
    hide Budget, Rebooted, Leased, History, HistoryKept, ReturnsThisHour;
    CeilingsChangeNoState(u, ceilings, now, d);
    RecoveredRow(SetCeilings(u, ceilings), w, p, now, d);
  }

  /** Recovery and ceilings change no job, no lease and no owner. */
  lemma RegistrationSameJobs(u: Db, w: string, ceilings: map<string, int>, p: Proof, now: int)
    ensures var e := AutoRecover(SetCeilings(u, ceilings), w, p, now);
            && e.jobs == u.jobs && e.devices.Keys == u.devices.Keys
            && (forall d :: d in u.devices ==> e.devices[d].worker == u.devices[d].worker)
            && (forall d :: Leased(e, d) <==> Leased(u, d))
  {
  }

  /** After a registration every declared device has the ceiling declared for it, none if it was negative, and no other device's changed. */
  lemma CeilingsAreDeclared(db: Db, w: string, boot: string, ceilings: map<string, int>, p: Proof, now: int, d: string)
    ensures var e := Registration(db, w, boot, ceilings, p, now);
            && (d in e.devices <==> d in db.devices || d in ceilings)
            && (d in ceilings && ceilings[d] >= 0 ==> e.devices[d].ceiling == ceilings[d])
            && (d in ceilings && ceilings[d] < 0 ==> e.devices[d].ceiling == 0)
            && (d in db.devices && d !in ceilings ==> e.devices[d].ceiling == db.devices[d].ceiling)
  {
    var u := Upsert(db, w, boot, ceilings.Keys, now);
    UpsertKeepsCeilings(db, w, boot, ceilings.Keys, now, d);
    RecoveredDevice(SetCeilings(u, ceilings), w, p, now, d);
    hide Upsert, AutoRecover, Revivable, Budget;
  }

  lemma UpsertKeepsCeilings(db: Db, w: string, boot: string, ds: set<string>, now: int, d: string)
    ensures var u := Upsert(db, w, boot, ds, now);
            (d in u.devices <==> d in db.devices || d in ds) && (d in db.devices ==> u.devices[d].ceiling == db.devices[d].ceiling)
  {
    hide Upsert, Reconciled;
    UpsertDeclares(db, w, boot, ds, now);
    ReconciledKeys(db, w, boot, now);
    if d in db.devices { ReconciledOwner(db, w, boot, now, d); }
  }

  lemma ReconciledKeys(db: Db, w: string, boot: string, now: int)
    ensures Reconciled(db, w, boot, now, true).devices.Keys == db.devices.Keys
  {
    hide ReapInFlight, RestoreRebooted, Rebooted;
    var start := db.(workers := db.workers[w := Worker(boot, now)]);
    var reaped := ReapInFlight(start, w, Rebooted(db, w, boot), now);
    SameKeys(start, w, Rebooted(db, w, boot), now);
    SameKeys(reaped, w, true, now);
  }

  lemma SameKeys(db: Db, w: string, rebooted: bool, now: int)
    ensures ReapInFlight(db, w, rebooted, now).devices.Keys == db.devices.Keys
    ensures RestoreRebooted(db, w, true).devices.Keys == db.devices.Keys
  {
    hide Revivable, InFlight, ReapedDevice;
  }

  // ----- Restart and reboot over a run

  predicate Registers(e: Event, host: string) {
    e.op.Register? && e.op.host == host && host != ""
  }

  lemma BootStep(db: Db, e: Event, w: string)
    ensures Registers(e, w) ==> w in Apply(db, e).workers && Apply(db, e).workers[w].boot == e.op.boot
    ensures !Registers(e, w) && w in db.workers ==> w in Apply(db, e).workers && Apply(db, e).workers[w].boot == db.workers[w].boot
  {
    hide Upsert;
    if e.op.Register? {
      UpsertKeeps(db, e.op.host, e.op.boot, DeviceIds(e.op.host, e.op.names), e.now);
    } else if !e.op.Beat? {
      StepLeaves(db, e);
      hide Apply;
    }
  }

  lemma {:induction false} BootStays(es: Run, m: nat, n: nat, w: string)
    requires m < n <= |es| && Registers(es[m], w) && forall i :: m < i < n ==> !Registers(es[i], w)
    ensures w in After(EMPTY_DB, es, n).workers && After(EMPTY_DB, es, n).workers[w].boot == es[m].op.boot
  {
    hide Apply;
    BootStep(After(EMPTY_DB, es, n - 1), es[n - 1], w);
    if m < n - 1 { BootStays(es, m, n - 1, w); }
  }

  /** The registration as an event, of a worker whose stored boot ID is known. */
  lemma RegisterDecides(db: Db, e: Event, w: string, was: string, j: string)
    requires Sound(db) && PlainHost(e) && Registers(e, w) && w in db.workers && db.workers[w].boot == was
    requires Active(db, j) && db.jobs[j].worker == w
    ensures var x, d, boot := Apply(db, e), db.jobs[j].device, e.op.boot;
            && j in x.jobs && x.jobs[j].state == Lost
            && d in db.devices && d in x.devices
            && var v := db.devices[d];
               && (boot == "" || was == "" || boot == was ==> x.devices[d].state == Unhealthy)
               && (boot != "" && was != "" && boot != was && v.state != Unhealthy ==> x.devices[d].state == Ready)
  {
    hide Apply, Upsert, Valid, Keyed;
    var ds, d := DeviceIds(w, e.op.names), db.jobs[j].device;
    RegisterIsUpsert(db, e, w);
    CarriesJob(db, w, j);
    RegistrationEndsJobs(db, w, e.op.boot, ds, e.now, j);
    hide InQuestion;
    if e.op.boot == "" || was == "" || e.op.boot == was {
      RestartQuarantines(db, w, e.op.boot, ds, e.now, d);
    } else {
      RebootReturns(db, w, e.op.boot, ds, e.now, d);
    }
  }

  lemma RegisterIsUpsert(db: Db, e: Event, w: string)
    requires Registers(e, w)
    ensures Apply(db, e) == Upsert(db, w, e.op.boot, DeviceIds(w, e.op.names), e.now)
  {
    hide Upsert;
  }

  lemma CarriesJob(db: Db, w: string, j: string)
    requires Valid(db) && Active(db, j) && db.jobs[j].worker == w
    ensures InQuestion(db, w, db.jobs[j].device)
  {
    JobsDevice(db, j);
    assert j in InFlight(db, w);
    hide Valid;
  }

  /**
   In every run: a worker that registers again ends its jobs; under the boot
   ID it registered with before, their devices are quarantined; under another
   one, those not quarantined already are ready.
   */
  lemma RestartOrReboot(es: Run, m: nat, n: nat, w: string, j: string)
    requires (forall i :: 0 <= i < |es| ==> PlainHost(es[i])) && m < n < |es|
    requires Registers(es[m], w) && Registers(es[n], w) && forall i :: m < i < n ==> !Registers(es[i], w)
    requires Active(After(EMPTY_DB, es, n), j) && After(EMPTY_DB, es, n).jobs[j].worker == w
    ensures var before, x := After(EMPTY_DB, es, n), After(EMPTY_DB, es, n + 1);
            var d, was, boot := before.jobs[j].device, es[m].op.boot, es[n].op.boot;
            && j in x.jobs && x.jobs[j].state == Lost
            && d in before.devices && d in x.devices
            && (boot == was || boot == "" || was == "" ==> x.devices[d].state == Unhealthy)
            && (boot != was && boot != "" && was != "" && before.devices[d].state != Unhealthy ==> x.devices[d].state == Ready)
  {
    hide Apply, PlainHost, Sound;
    EmptyIsSound();
    RunIsSound(EMPTY_DB, es, n);
    BootStays(es, m, n, w);
    RegisterDecides(After(EMPTY_DB, es, n), es[n], w, es[m].op.boot, j);
  }

  // ----- The lease guards of the restore paths

  /** On the reboot path the lease guard is redundant: the reap has just released every lease it could find. */
  lemma RebootGuardIsRedundant(db: Db, w: string, boot: string, ds: set<string>, now: int)
    requires Valid(db)
    ensures UpsertWith(db, w, boot, ds, now, false) == Upsert(db, w, boot, ds, now)
  {
    var start := db.(workers := db.workers[w := Worker(boot, now)]);
    var reaped := ReapInFlight(start, w, Rebooted(db, w, boot), now);
    WorkersKeepValid(db, start.workers);
    forall d | d in reaped.devices ensures Revivable(reaped, w, false, d) <==> Revivable(reaped, w, true, d) {
      if reaped.devices[d].worker == w { ReapFreesWorker(start, w, Rebooted(db, w, boot), now, d); }
    }
    hide ReapInFlight, Valid;
    assert RestoreRebooted(reaped, w, false).devices == RestoreRebooted(reaped, w, true).devices;
  }

  /** So it is in the recovery that follows a registration at once. */
  lemma RecoveryGuardIsRedundant(db: Db, w: string, boot: string, ceilings: map<string, int>, p: Proof, now: int)
    requires Valid(db) && OwnDevices(db, w, ceilings.Keys)
    ensures var u := SetCeilings(Upsert(db, w, boot, ceilings.Keys, now), ceilings);
            RecoverWith(u, w, p, now, false) == AutoRecover(u, w, p, now)
  {
    var v := Upsert(db, w, boot, ceilings.Keys, now);
    var u := SetCeilings(v, ceilings);
    forall d | d in u.devices ensures Revivable(u, w, false, d) <==> Revivable(u, w, true, d) {
      NoLeaseLeft(db, w, boot, ceilings.Keys, now, d);
      assert Leased(u, d) <==> Leased(v, d);
    }
    hide Upsert, SetCeilings, Valid;
    SameRevivable(u, w, p, now);
  }

  lemma SameRevivable(u: Db, w: string, p: Proof, now: int)
    requires forall d :: d in u.devices ==> (Revivable(u, w, false, d) <==> Revivable(u, w, true, d))
    ensures RecoverWith(u, w, p, now, false) == AutoRecover(u, w, p, now)
  {
    var x, y := RecoverWith(u, w, p, now, false), AutoRecover(u, w, p, now);
    assert forall d :: Revivable(u, w, false, d) <==> Revivable(u, w, true, d);
    assert x.devices == y.devices;
    assert x.recoveries == y.recoveries;
  }

  /** A device recovery without the guard would hand out under a live lease. */
  predicate WouldContradict(db: Db, w: string, now: int, d: string) {
    Revivable(db, w, false, d) && Leased(db, d) && Budget(db, d, now)
  }

  /** Run later, the recovery needs its guard: without it the invariant is kept exactly when no such device is leased. */
  lemma LateRecoveryNeedsGuardIff(db: Db, w: string, p: Proof, now: int)
    requires Valid(db) && p.Proves()
    ensures Valid(RecoverWith(db, w, p, now, false)) <==> !exists d :: WouldContradict(db, w, now, d)
  {
    var e := RecoverWith(db, w, p, now, false);
    assert forall d :: Leased(e, d) <==> Leased(db, d);
    if exists d :: WouldContradict(db, w, now, d) {
      var d :| WouldContradict(db, w, now, d);
      assert !DeviceOk(e, d);
    } else {
      forall d | d in db.devices ensures RowOk(e.devices[d], Leased(db, d)) {
        assert DeviceOk(db, d) && !WouldContradict(db, w, now, d);
      }
      RowsKeepValid(db, e);
    }
  }

  // ----- The flap guard

  /** How many of the recorded returns are at or after c. */
  function Since(h: seq<Recovery>, c: int): nat {
    if h == [] then 0 else Since(h[..|h| - 1], c) + (if h[|h| - 1].at >= c then 1 else 0)
  }

  function SinceTimes(ts: seq<int>, c: int): nat {
    if ts == [] then 0 else SinceTimes(ts[..|ts| - 1], c) + (if ts[|ts| - 1] >= c then 1 else 0)
  }

  lemma {:induction false} RecentCounts(h: seq<Recovery>, cutoff: int, c: int)
    requires cutoff <= c
    ensures Since(Recent(h, cutoff), c) == Since(h, c)
    ensures |Recent(h, cutoff)| == Since(h, cutoff) && |Recent(h, cutoff)| <= |h|
  {
    if h != [] {
      var n := |h| - 1;
      RecentCounts(h[..n], cutoff, c);
      RecentCounts(h[..n], cutoff, cutoff);
      assert (Recent(h[..n], cutoff) + [h[n]])[..|Recent(h[..n], cutoff)|] == Recent(h[..n], cutoff);
    }
  }

  /** A recovery finds d out of the pool and leaves it ready. */
  predicate Returns(db: Db, e: Event, d: string) {
    && e.op.Recover? && d in db.devices && db.devices[d].state == Unhealthy
    && d in Apply(db, e).devices && Apply(db, e).devices[d].state == Ready
  }

  lemma ReturnsIff(db: Db, e: Event, d: string)
    ensures Returns(db, e, d) <==>
            e.op.Recover? && e.op.proof.Proves() && Revivable(db, e.op.worker, true, d) && Budget(db, d, e.now)
  {
    hide Apply, AutoRecover, Budget, Leased;
    if e.op.Recover? {
      ApplyRecovers(db, e);
      RecoveredDevice(db, e.op.worker, e.op.proof, e.now, d);
    }
  }

  lemma ApplyRecovers(db: Db, e: Event)
    requires e.op.Recover?
    ensures Apply(db, e) == AutoRecover(db, e.op.worker, e.op.proof, e.now)
  {
    hide AutoRecover;
  }

  lemma RecoveredDevice(db: Db, w: string, p: Proof, now: int, d: string)
    ensures var x := AutoRecover(db, w, p, now);
            && (d in x.devices <==> d in db.devices)
            && (d in db.devices ==>
                  x.devices[d] == if p.Proves() && Revivable(db, w, true, d) && Budget(db, d, now) then Cleared(db.devices[d]) else db.devices[d])
  {
    hide Recent, Budget;
  }

  /**
   Recovery on its own: with a proof, a device of the worker that is out for a
   reason a proof answers, carries no live lease and was returned fewer than three times this
   hour is ready; every other device, and every job and lease, is as it was.
   */
  lemma RecoveryVerdict(db: Db, w: string, p: Proof, now: int, d: string)
    requires d in db.devices
    ensures var x, v := AutoRecover(db, w, p, now), db.devices[d];
            && x == db.(devices := x.devices, recoveries := x.recoveries) && x.devices.Keys == db.devices.Keys
            && var back :=
                 && v.worker == w && v.state == Unhealthy && !Leased(db, d)
                 && (v.reason == WorkerLost || v.reason == LeaseExpired || v.reason == Reason.Registration)
                 && (p.isolated || (p.survivorsChecked && !p.survivorsFound)) && ReturnsThisHour(db, d, now) < 3;
               x.devices[d] == if back then v.(state := Ready, reason := NoReason, detail := "") else v
  {
    RecoveredDevice(db, w, p, now, d);
    BudgetMeans(db, d, now);
    hide Recent, Budget, ReturnsThisHour, Leased;
  }

  /** When d was returned by proof during the first n events. */
  function ReturnTimes(db: Db, es: Run, d: string, n: nat): seq<int>
    requires n <= |es|
  {
    if n == 0 then []
    else ReturnTimes(db, es, d, n - 1) + (if Returns(After(db, es, n - 1), es[n - 1], d) then [es[n - 1].now] else [])
  }

  /** The table forgets nothing that still counts. */
  lemma HistoryStep(db: Db, e: Event, d: string, c: int)
    requires c >= e.now - RECOVERY_WINDOW
    ensures Since(History(Apply(db, e), d), c) == Since(History(db, d), c) + (if Returns(db, e, d) && e.now >= c then 1 else 0)
    ensures |History(db, d)| <= RECOVERY_LIMIT ==> |History(Apply(db, e), d)| <= RECOVERY_LIMIT
  {
    ReturnsIff(db, e, d);
    hide Returns, Recent, AutoRecover;
    if e.op.Recover? {
      RecoverHistory(db, e.op.worker, e.op.proof, e.now, d, c);
    } else {
      StepLeaves(db, e);
      hide Apply;
    }
  }

  /** A device's history after a recovery: pruned, and one row longer if it was returned, when it was a candidate at all. */
  lemma RecoveredHistory(db: Db, w: string, p: Proof, now: int, d: string)
    ensures var e, r := AutoRecover(db, w, p, now), Recent(History(db, d), now - RECOVERY_WINDOW);
            History(e, d) == if p.Proves() && Revivable(db, w, true, d)
                             then r + (if Budget(db, d, now) then [Recovery(now, db.devices[d].reason)] else [])
                             else History(db, d)
  {
    hide Recent, Budget;
  }

  lemma RecoverHistory(db: Db, w: string, p: Proof, now: int, d: string, c: int)
    requires c >= now - RECOVERY_WINDOW
    ensures var e := AutoRecover(db, w, p, now);
            && Since(History(e, d), c) == Since(History(db, d), c)
                 + (if p.Proves() && Revivable(db, w, true, d) && Budget(db, d, now) && now >= c then 1 else 0)
            && (|History(db, d)| <= RECOVERY_LIMIT ==> |History(e, d)| <= RECOVERY_LIMIT)
  {
    var r := Recent(History(db, d), now - RECOVERY_WINDOW);
    RecentCounts(History(db, d), now - RECOVERY_WINDOW, c);
    RecoveredHistory(db, w, p, now, d);
    hide AutoRecover, History, Recent;
    if p.Proves() && Revivable(db, w, true, d) {
      var x := Recovery(now, db.devices[d].reason);
      assert (r + [x])[..|r|] == r && r + [] == r;
    }
  }

  lemma {:induction false} LogIsRecorded(db: Db, es: Run, d: string, n: nat, c: int)
    requires n <= |es| && Clocked(es) && (n > 0 ==> c >= es[n - 1].now - RECOVERY_WINDOW)
    ensures SinceTimes(ReturnTimes(db, es, d, n), c) <= Since(History(After(db, es, n), d), c)
  {
    hide Apply, Returns, Recent, Since, History;
    if n > 0 {
      LogIsRecorded(db, es, d, n - 1, c);
      HistoryStep(After(db, es, n - 1), es[n - 1], d, c);
      OneMore(ReturnTimes(db, es, d, n - 1), es[n - 1].now, c);
      hide SinceTimes;
      assert ReturnTimes(db, es, d, n - 1) + [] == ReturnTimes(db, es, d, n - 1);
    }
  }

  lemma OneMore(ts: seq<int>, t: int, c: int)
    ensures SinceTimes(ts + [t], c) == SinceTimes(ts, c) + if t >= c then 1 else 0
  {
    assert (ts + [t])[..|ts|] == ts;
  }

  /** A log in order whose i-th entry from the end counts: three entries back is too long ago. */
  lemma {:induction false} FewSince(ts: seq<int>, c: int, k: nat)
    requires k < |ts| && Rising(ts) && ts[k] >= c
    ensures SinceTimes(ts, c) >= |ts| - k
  {
    var n := |ts| - 1;
    if k < n { FewSince(ts[..n], c, k); }
  }

  ghost predicate Rising(ts: seq<int>) {
    forall i, m :: 0 <= i <= m < |ts| ==> ts[i] <= ts[m]
  }

  ghost predicate Spread(ts: seq<int>) {
    forall i :: 0 <= i && i + 3 < |ts| ==> ts[i + 3] - ts[i] > 3600
  }

  ghost predicate Sparse(ts: seq<int>) {
    Rising(ts) && Spread(ts)
  }

  /**
   The flap guard: however runs prune, retire and re-register, a fourth return
   comes more than an hour after the first, so no hour holds more than three.
   */
  lemma {:induction false} FlapGuardBound(db: Db, es: Run, d: string, n: nat)
    requires n <= |es| && Clocked(es)
    ensures Sparse(ReturnTimes(db, es, d, n))
    ensures forall i :: 0 <= i < |ReturnTimes(db, es, d, n)| ==> n > 0 && ReturnTimes(db, es, d, n)[i] <= es[n - 1].now
  {
    hide Apply, Recent, Since, History, Sparse;
    if n > 0 {
      FlapGuardBound(db, es, d, n - 1);
      var log, x, e := ReturnTimes(db, es, d, n - 1), After(db, es, n - 1), es[n - 1];
      ReturnsIff(x, e, d);
      if Returns(x, e, d) {
        var c := e.now - RECOVERY_WINDOW;
        RecentCounts(History(x, d), c, c);
        if n > 1 { LogIsRecorded(db, es, d, n - 1, c); }
        assert SinceTimes(log, c) < RECOVERY_LIMIT;
        hide Returns, SinceTimes;
        NextIsFar(log, e.now);
      }
      hide Returns;
      assert log + [] == log;
    } else {
      SparseIfEmpty();
    }
  }

  lemma SparseIfEmpty()
    ensures Sparse([])
  {
  }

  lemma NextIsFar(log: seq<int>, t: int)
    requires Sparse(log) && (forall i :: 0 <= i < |log| ==> log[i] <= t)
    requires SinceTimes(log, t - RECOVERY_WINDOW) < RECOVERY_LIMIT
    ensures Sparse(log + [t])
  {
    var k := |log| - RECOVERY_LIMIT;
    if k >= 0 && log[k] >= t - RECOVERY_WINDOW { FewSince(log, t - RECOVERY_WINDOW, k); }
    hide Rising, Spread, SinceTimes;
    RisingNext(log, t);
    SpreadNext(log, t);
  }

  lemma RisingNext(log: seq<int>, t: int)
    requires Rising(log) && forall i :: 0 <= i < |log| ==> log[i] <= t
    ensures Rising(log + [t])
  {
  }

  lemma SpreadNext(log: seq<int>, t: int)
    requires Spread(log) && (|log| >= RECOVERY_LIMIT ==> log[|log| - RECOVERY_LIMIT] < t - RECOVERY_WINDOW)
    ensures Spread(log + [t])
  {
    var ts := log + [t];
    forall i | 0 <= i && i + 3 < |ts| ensures ts[i + 3] - ts[i] > 3600 {
      assert ts[i] == log[i];
    }
  }

  lemma {:induction false} HistoryStaysShort(db: Db, es: Run, d: string, n: nat)
    requires n <= |es| && |History(db, d)| <= 3
    ensures |History(After(db, es, n), d)| <= 3
  {
    hide Apply;
    if n > 0 {
      HistoryStaysShort(db, es, d, n - 1);
      HistoryStep(After(db, es, n - 1), es[n - 1], d, es[n - 1].now);
    }
  }

  /** RecoveryHistoryFor's count of automatic returns left. */
  function Remaining(db: Db, d: string, now: int): nat {
    var used := |Recent(History(db, d), now - RECOVERY_WINDOW)|;
    if used >= RECOVERY_LIMIT then 0 else RECOVERY_LIMIT - used
  }

  /** It is three less those of the last hour. */
  lemma RemainingCounts(db: Db, d: string, now: int)
    ensures Remaining(db, d, now) == if ReturnsThisHour(db, d, now) < 3 then 3 - ReturnsThisHour(db, d, now) else 0
  {
    RecentCard(History(db, d), now - 3600);
  }

  /** What an operator is told is what the guard does: returns are left exactly when a proof would return the device now. */
  lemma RemainingIsHonest(db: Db, w: string, p: Proof, d: string, now: int)
    requires p.Proves() && Revivable(db, w, true, d)
    ensures Remaining(db, d, now) > 0 <==> AutoRecover(db, w, p, now).devices[d].state.Ready?
    ensures Remaining(AutoRecover(db, w, p, now), d, now) == if Remaining(db, d, now) > 0 then Remaining(db, d, now) - 1 else 0
  {
    var e, cutoff := AutoRecover(db, w, p, now), now - RECOVERY_WINDOW;
    RecoverHistory(db, w, p, now, d, cutoff);
    RecentCounts(History(db, d), cutoff, cutoff);
    RecentCounts(History(e, d), cutoff, cutoff);
  }
}
