/**
 The store (internal/store), statement by statement: tables held in fields,
 one assignment for each SQL statement, one loop for each loop of the source.
 Every method is held to the transaction it is supposed to be.
 */
module Tables {
  import opened Wrappers
  import opened Model
  import opened Transactions
  import opened Ordering
  import opened Ownership
  import opened Runs
  import opened Steps
  import Invariant
  import Probes
  import Recoveries
  import Queue
  import Scheduling
  import Selector
  import Submissions
  import Sweeping

  lemma DeletedThenInserted<T>(m: map<string, T>, k: string, v: T)
    ensures (m - {k})[k := v] == m[k := v]
  {
  }

  lemma PlacedIs(db: Db, j: string, d: string, now: int, ttl: int, expiry: int)
    requires AssignOutcomeOf(db, j, d) == Placed && ttl == Runtime(db, j, d)
    requires expiry == if ttl > 0 then now + ttl + LEASE_GRACE else now + DEFAULT_LEASE_TTL
    ensures Transactions.Assign(db, j, d, now) ==
            Db(db.workers, db.devices[d := db.devices[d].(state := Busy)],
               db.jobs[j := db.jobs[j].(state := Assigned, device := d, worker := db.devices[d].worker, runtime := ttl)],
               db.leases[db.nextLease := Lease(d, j, now, expiry, db.jobs[j].kind, true)],
               db.reservations - {d}, db.recoveries, db.detected, db.declared, db.nextRow, db.nextLease + 1)
  {
  }

  /** A take stamps the due rows. */
  lemma TakesStamp(db: Db, w: string, now: int, due: set<string>)
    requires due == set j | j in db.jobs && KillDue(db, w, now, j)
    ensures var target := Transactions.TakeKills(db, w, now).jobs;
            && Transactions.TakeKills(db, w, now) == db.(jobs := target) && target.Keys == db.jobs.Keys
            && (forall j :: j in due ==> j in db.jobs && target[j] == db.jobs[j].(killDeliveredAt := now))
            && (forall j :: j in db.jobs && j !in due ==> target[j] == db.jobs[j])
  {
  }

  ghost predicate IsNewestFirst(r: seq<Recovery>) {
    forall i, k :: 0 <= i < k < |r| ==> r[i].at >= r[k].at
  }

  lemma MovedIn(a: seq<Recovery>, b: seq<Recovery>, x: Recovery)
    ensures multiset(a + [x] + b) == multiset(a + b + [x])
  {
  }

  lemma InsertNewest(r: seq<Recovery>, k: nat, x: Recovery)
    requires IsNewestFirst(r) && k <= |r| && (k > 0 ==> r[k - 1].at >= x.at) && (k < |r| ==> r[k].at <= x.at)
    ensures IsNewestFirst(r[..k] + [x] + r[k..])
  {
    forall i, l | 0 <= i < l < |r| + 1 ensures (r[..k] + [x] + r[k..])[i].at >= (r[..k] + [x] + r[k..])[l].at {
      assert i < k ==> i == k - 1 || r[i].at >= r[k - 1].at;
      assert l > k ==> l == k + 1 || r[k].at >= r[l - 1].at;
    }
  }

  /** ORDER BY at DESC */
  method NewestFirst(rows: seq<Recovery>) returns (r: seq<Recovery>)
    ensures |r| == |rows| && multiset(r) == multiset(rows) && IsNewestFirst(r)
  {
    hide IsNewestFirst;
    r := [];
    assert IsNewestFirst(r) by { NothingIsNewestFirst(); }
    for n := 0 to |rows|
      invariant |r| == n && multiset(r) == multiset(rows[..n]) && IsNewestFirst(r)
    {
      var k := 0;
      while k < |r| && r[k].at > rows[n].at
        invariant 0 <= k <= |r| && (k > 0 ==> r[k - 1].at >= rows[n].at)
      {
        k := k + 1;
      }
      InsertNewest(r, k, rows[n]);
      MovedIn(r[..k], r[k..], rows[n]);
      assert r == r[..k] + r[k..];
      assert rows[..n + 1] == rows[..n] + [rows[n]];
      r := r[..k] + [rows[n]] + r[k..];
    }
    assert rows[..|rows|] == rows;
  }

  lemma NothingIsNewestFirst()
    ensures IsNewestFirst([])
  {
  }

  class Store {
    var workers: map<string, Worker>
    var devices: map<string, Device>
    var jobs: map<string, Job>
    var leases: map<nat, Lease>
    var reservations: map<string, string>
    var recoveries: map<string, seq<Recovery>>
    var detected: map<string, Labels>
    var declared: map<string, Labels>
    var nextRow: nat
    var nextLease: nat

    ghost function View(): (db: Db)
      reads this
    {
      Db(workers, devices, jobs, leases, reservations, recoveries, detected, declared, nextRow, nextLease)
    }

    constructor ()
      ensures View() == EMPTY_DB
    {
      workers, devices, jobs, leases := map[], map[], map[], map[];
      reservations, recoveries, detected, declared := map[], map[], map[], map[];
      nextRow, nextLease := 0, 0;
    }

    // ----- Assignment and release (allocate.go)

    method AssignQueued(j: string, d: string, now: int) returns (outcome: AssignOutcome)
      modifies this`devices, this`jobs, this`leases, this`reservations, this`nextLease
      ensures View() == Transactions.Assign(old(View()), j, d, now)
      ensures outcome == AssignOutcomeOf(old(View()), j, d)
      ensures outcome != Placed ==> View() == old(View())
    {
      if !(d in devices && devices[d].state.Ready?) { return NoDevice; }
      if !(j in jobs && jobs[j].state.Queued?) { return NoLongerQueued; }
      var ttl := jobs[j].runtime;
      if ttl == 0 && devices[d].ceiling > 0 { ttl := devices[d].ceiling; }
      var expiry := now + DEFAULT_LEASE_TTL;
      if ttl > 0 { expiry := now + ttl + LEASE_GRACE; }
      PlacedIs(View(), j, d, now, ttl, expiry);
      hide Transactions.Assign;
      var worker := devices[d].worker;
      devices := devices[d := devices[d].(state := Busy)];
      jobs := jobs[j := jobs[j].(state := Assigned, device := d, worker := worker, runtime := ttl)];
      leases := leases[nextLease := Lease(d, j, now, expiry, jobs[j].kind, true)];
      nextLease := nextLease + 1;
      reservations := reservations - {d};
      return Placed;
    }

    method StartRunning(j: string)
      modifies this`jobs
      ensures View() == MarkRunning(old(View()), j)
    {
      if j in jobs && jobs[j].state.Assigned? { jobs := jobs[j := jobs[j].(state := Running)]; }
    }

    /** UPDATE leases SET released_at WHERE job_id = ? AND released_at IS NULL */
    method ReleaseLeases(j: string)
      modifies this`leases
      ensures leases == ReleasedFor(old(leases), {j})
    {
      leases := map l | l in leases :: if leases[l].job == j && leases[l].live then leases[l].(live := false) else leases[l];
    }

    method Release(j: string, state: JobState, reason: string, now: int)
      modifies this`jobs, this`leases, this`devices
      ensures View() == Transactions.Release(old(View()), j, state, reason, now)
    {
      if !state.Terminal() { return; }
      if j !in jobs { return; }
      if jobs[j].state.Terminal() { return; }
      var d := jobs[j].device;
      jobs := jobs[j := Ended(jobs[j], state, reason, now)];
      ReleaseLeases(j);
      if d in devices && devices[d].state.Busy? { devices := devices[d := devices[d].(state := Ready)]; }
    }

    /** handleJobStatus: only the worker the job was given to may report on it. */
    method Report(w: string, j: string, state: JobState, reason: string, now: int)
      modifies this`jobs, this`leases, this`devices
      ensures View() == Transactions.Report(old(View()), w, j, state, reason, now)
    {
      if w == "" || j !in jobs || jobs[j].worker != w { return; }
      if state.Running? { StartRunning(j); } else { Release(j, state, reason, now); }
    }

    // ----- Cancelling and killing (queue.go)

    /** UPDATE jobs SET state = killed WHERE id = ? AND state = queued */
    method CancelJob(j: string, reason: string, now: int) returns (ok: bool)
      modifies this`jobs
      ensures View() == CancelQueued(old(View()), j, reason, now)
      ensures ok <==> j in old(jobs) && old(jobs)[j].state.Queued?
    {
      if !(j in jobs && jobs[j].state.Queued?) { return false; }
      jobs := jobs[j := Ended(jobs[j], Killed, reason, now)];
      return true;
    }

    /** DELETE FROM reservations WHERE job_id = ? */
    method DropReservations(j: string)
      modifies this`reservations
      ensures View() == Transactions.Unreserve(old(View()), j)
    {
      reservations := map d | d in reservations && reservations[d] != j :: reservations[d];
    }

    /** DELETE FROM reservations */
    method ForgetReservations()
      modifies this`reservations
      ensures View() == old(View()).(reservations := map[])
    {
      reservations := map[];
    }

    /** INSERT OR REPLACE INTO reservations */
    method ReserveFor(d: string, j: string)
      modifies this`reservations
      ensures View() == old(View()).(reservations := old(View()).reservations[d := j])
    {
      reservations := reservations[d := j];
    }

    method Kill(j: string, reason: string, finalizeDisconnected: bool, now: int) returns (outcome: KillOutcome)
      modifies this`jobs, this`leases
      ensures View() == RequestKill(old(View()), j, reason, finalizeDisconnected, now)
      ensures outcome == KillOutcomeOf(old(View()), j, finalizeDisconnected)
    {
      if !(j in jobs && (jobs[j].state.Assigned? || jobs[j].state.Running?)) { return NotCancellable; }
      var d := jobs[j].device;
      var finalize := finalizeDisconnected && d in devices
        && (devices[d].state.Unknown? || (devices[d].state.Unhealthy? && devices[d].reason == WorkerLost));
      if finalize {
        jobs := jobs[j := Ended(jobs[j], Killed, reason, now).(killRequested := true, killDeliveredAt := 0)];
        ReleaseLeases(j);
        return Finalized;
      }
      jobs := jobs[j := jobs[j].(killRequested := true, killDeliveredAt := 0)];
      return Requested;
    }

    /** A take: what is handed out is stamped, row by row. */
    method TakeKillRequests(w: string, now: int) returns (due: set<string>)
      modifies this`jobs
      ensures View() == Transactions.TakeKills(old(View()), w, now)
      ensures due == set j | j in old(jobs) && KillDue(old(View()), w, now, j)
    {
      ghost var before, target := jobs, Transactions.TakeKills(View(), w, now).jobs;
      due := set j | j in jobs && jobs[j].worker == w && jobs[j].killRequested
                     && (jobs[j].state.Assigned? || jobs[j].state.Running? || jobs[j].state.Killed?)
                     && jobs[j].killDeliveredAt <= now - KILL_REDELIVER;
      TakesStamp(View(), w, now, due);
      hide Transactions.TakeKills, KillDue, Patched;
      PatchedNone(before, target);
      var rest := due;
      assert due - rest == {};
      while rest != {}
        invariant rest <= due && Patched(before, target, due - rest, jobs)
        decreases |rest|
      {
        var j :| j in rest;
        PatchedRest(before, target, due - rest, jobs, j);
        PatchedNext(before, target, due - rest, jobs, j);
        RestShrinks(due, rest, j);
        jobs := jobs[j := jobs[j].(killDeliveredAt := now)];
        rest := rest - {j};
      }
      PatchedAll(before, target, due - rest, jobs);
    }

    // ----- Devices taken out and put back (store.go, reaper.go, retire.go)

    method SetDeviceMaxRuntime(d: string, seconds: int) returns (ok: bool)
      modifies this`devices
      ensures View() == SetCeiling(old(View()), d, seconds)
      ensures ok <==> d in old(devices)
      ensures devices == if ok then old(devices)[d := old(devices)[d].(ceiling := seconds)] else old(devices)
    {
      if d !in devices { return false; }
      devices := devices[d := devices[d].(ceiling := seconds)];
      return true;
    }

    method SetState(d: string, state: DeviceState, why: string) returns (ok: bool)
      modifies this`devices
      ensures View() == SetDeviceState(old(View()), d, state, why)
      ensures ok <==> d in old(devices)
    {
      var reason, detail := NoReason, why;
      if state.Unhealthy? { reason := Reason.Fault; } else { detail := ""; }
      if d !in devices { return false; }
      devices := devices[d := devices[d].(state := state, reason := reason, detail := detail)];
      return true;
    }

    method Clear(d: string) returns (ok: bool)
      modifies this`devices
      ensures View() == ClearDevice(old(View()), d)
      ensures ok <==> CanClear(old(View()), d)
    {
      if !(d in devices && devices[d].state.Unhealthy?) { return false; }
      if exists l :: l in leases && leases[l].live && leases[l].device == d { return false; }
      devices := devices[d := devices[d].(state := Ready, reason := NoReason, detail := "")];
      return true;
    }

    /** Everything keyed to the device goes with it, one statement at a time. */
    method Retire(d: string) returns (ok: bool)
      modifies this`devices, this`leases, this`reservations, this`detected, this`declared
      ensures View() == RetireDevice(old(View()), d)
      ensures ok <==> CanRetire(old(View()), d)
    {
      if d !in devices { return false; }
      var live := set l | l in leases && leases[l].device == d && leases[l].live;
      assert Leased(View(), d) ==> live != {} by {
        if Leased(View(), d) {
          var l :| l in leases && leases[l].live && leases[l].device == d;
          assert l in live;
        }
      }
      if live != {} {
        var l :| l in live;
        return false;
      }
      detected, declared := detected - {d}, declared - {d};
      reservations := reservations - {d};
      leases := map l | l in leases && leases[l].device != d :: leases[l];
      devices := devices - {d};
      return true;
    }

    // ----- Labels (labels.go)

    method ReplaceLabels(d: string, isDetected: bool, labels: Labels)
      modifies this`detected, this`declared
      ensures View() == if isDetected then old(View()).(detected := old(View()).detected[d := labels])
                        else old(View()).(declared := old(View()).declared[d := labels])
    {
      if isDetected {
        DeletedThenInserted(detected, d, labels);
        detected := detected - {d};
        detected := detected[d := labels];
      } else {
        DeletedThenInserted(declared, d, labels);
        declared := declared - {d};
        declared := declared[d := labels];
      }
    }

    // ----- Registration (store.go, recover.go)

    /** One job the worker's last process left behind. */
    method ReapOne(j: string, reason: string, rebooted: bool, now: int)
      requires j in jobs
      modifies this`jobs, this`leases, this`devices
      ensures jobs == old(jobs)[j := Ended(old(jobs)[j], Lost, reason, now)]
      ensures leases == ReleasedFor(old(leases), {j})
      ensures var d := old(jobs)[j].device;
              devices == if d in old(devices) then old(devices)[d := Transactions.Reap(old(devices)[d], rebooted)] else old(devices)
    {
      var d := jobs[j].device;
      jobs := jobs[j := Ended(jobs[j], Lost, reason, now)];
      ReleaseLeases(j);
      if d !in devices { return; }
      if rebooted {
        if devices[d].state.Busy? || devices[d].state.Unknown? {
          devices := devices[d := devices[d].(state := Ready, reason := NoReason, detail := "")];
        }
      } else {
        var why := if devices[d].state.Unhealthy? then devices[d].reason else Registration;
        devices := devices[d := devices[d].(state := Unhealthy, reason := why)];
      }
    }

    method SelectInFlight(w: string) returns (found: set<string>)
      ensures found == InFlight(View(), w) && found <= jobs.Keys
    {
      found := set j | j in jobs && (jobs[j].state.Assigned? || jobs[j].state.Running?) && jobs[j].worker == w;
    }

    method ReapInFlightJobs(w: string, rebooted: bool, now: int)
      modifies this`jobs, this`leases, this`devices
      ensures View() == ReapInFlight(old(View()), w, rebooted, now)
    {
      hide Reaping, ReapInFlight, ReleasedFor, Transactions.Reap, Ended, InFlight;
      ghost var db := View();
      var reason := if rebooted then "host rebooted" else "worker re-registered";
      var found := SelectInFlight(w);
      var rest := found;
      assert found - rest == {};
      ReapingNone(db, rebooted, now);
      while rest != {}
        invariant rest <= found && Reaping(db, found - rest, rebooted, now, jobs, leases, devices)
        invariant jobs.Keys == db.jobs.Keys
        decreases |rest|
      {
        var j :| j in rest;
        ReapingNext(db, found - rest, rebooted, now, jobs, leases, devices, j);
        RestShrinks(found, rest, j);
        ReapOne(j, reason, rebooted, now);
        rest := rest - {j};
      }
      assert found - rest == found;
      ReapingAll(db, w, rebooted, now, jobs, leases, devices);
    }

    /** UPDATE devices SET state = ready ... WHERE worker_id = ? AND the quarantine is one a reboot answers AND no lease is live */
    method RestoreRebootedDevices(w: string)
      modifies this`devices
      ensures View() == RestoreRebooted(old(View()), w, true)
    {
      hide Leased;
      var leased := SelectLeased();
      devices := map d | d in devices ::
        if devices[d].worker == w && devices[d].state.Unhealthy? && Clearable(devices[d].reason) && d !in leased
        then devices[d].(state := Ready, reason := NoReason, detail := "") else devices[d];
    }

    method UpsertWorker(w: string, boot: string, declaring: seq<string>, now: int)
      modifies this`workers, this`devices, this`jobs, this`leases
      ensures View() == Upsert(old(View()), w, boot, Elements(declaring), now)
    {
      hide Invariant.Reconciled, Declare, Upsert;
      UpsertIs(View(), w, boot, Elements(declaring), now);
      Reconcile(w, boot, now);
      DeclareDevices(w, declaring);
    }

    /** The first half of the transaction: the worker's row, and what its last process left behind. */
    method Reconcile(w: string, boot: string, now: int)
      modifies this`workers, this`devices, this`jobs, this`leases
      ensures View() == Invariant.Reconciled(old(View()), w, boot, now, true)
    {
      hide ReapInFlight, RestoreRebooted;
      var prior := if w in workers then workers[w].boot else "";
      var rebooted := prior != "" && boot != "" && prior != boot;
      workers := workers[w := Worker(boot, now)];
      ReapInFlightJobs(w, rebooted, now);
      if rebooted { RestoreRebootedDevices(w); }
    }

    /** INSERT ... ON CONFLICT(id) DO UPDATE, for each declared device */
    method DeclareDevices(w: string, declaring: seq<string>)
      modifies this`devices
      ensures devices == Declare(old(devices), w, Elements(declaring))
    {
      ghost var before := devices;
      DeclareNone(before, w);
      for i := 0 to |declaring|
        invariant devices == Declare(before, w, Elements(declaring[..i]))
      {
        hide Declare;
        var d := declaring[i];
        DeclareNext(before, w, Elements(declaring[..i]), d);
        assert declaring[..i + 1] == declaring[..i] + [d];
        assert Elements(declaring[..i + 1]) == Elements(declaring[..i]) + {d};
        if d in devices {
          var v := devices[d];
          devices := devices[d := v.(worker := w,
                                     state := if v.state.Unhealthy? then v.state else Ready,
                                     reason := if v.state.Unhealthy? then v.reason else NoReason)];
        } else {
          devices := devices[d := Device(w, Ready, NoReason, "", 0)];
        }
      }
      assert declaring[..|declaring|] == declaring;
    }

    // ----- Heartbeats (reaper.go)

    method Heartbeat(w: string, running: set<string>, retain: bool, now: int)
      modifies this`workers, this`leases, this`jobs, this`devices
      ensures View() == Transactions.Heartbeat(old(View()), w, running, retain, now)
    {
      hide SettledDevices, BeforeSettling, Transactions.Heartbeat, RenewedLeases, RestoredDevices, AnsweredJobs;
      ghost var db := View();
      if w in workers { workers := workers[w := workers[w].(heartbeat := now)]; }
      RenewLeases(w, running, now);
      RestoreNamed(w, running);
      ClearAnswered(w, running);
      PartsOfHeartbeat(db, w, running, retain, now);
      assert View() == BeforeSettling(db, w, running, retain, now);
      SettleUnknown(w, running, retain);
      BeatInSteps(db, w, running, retain, now);
    }

    /** A kill is answered by a heartbeat that no longer names the job. */
    method ClearAnswered(w: string, running: set<string>)
      modifies this`jobs
      ensures jobs == AnsweredJobs(old(jobs), w, running)
    {
      jobs := map j | j in jobs ::
        if jobs[j].worker == w && jobs[j].state.Killed? && jobs[j].killRequested && j !in running
        then jobs[j].(killRequested := false) else jobs[j];
    }

    /** Only the jobs the worker names, and only its own. */
    method RenewLeases(w: string, running: set<string>, now: int)
      modifies this`leases
      ensures leases == RenewedLeases(old(leases), jobs, w, running, now)
    {
      if running != {} {
        var named := set j | j in jobs && jobs[j].worker == w && jobs[j].state.Active() && j in running;
        leases := map l | l in leases ::
          if leases[l].live && leases[l].job in named then leases[l].(expires := now + RENEW_WINDOW) else leases[l];
      }
    }

    /** A device written off as worker-lost comes back busy when its worker names the job on it. */
    method RestoreNamed(w: string, running: set<string>)
      modifies this`devices
      ensures devices == RestoredDevices(old(devices), jobs, w, running)
    {
      if running != {} {
        var named := set j | j in jobs && jobs[j].worker == w && jobs[j].state.Active() && j in running :: jobs[j].device;
        devices := map d | d in devices ::
          if devices[d].worker == w && devices[d].state.Unhealthy? && devices[d].reason == WorkerLost && d in named
          then devices[d].(state := Busy, reason := NoReason, detail := "") else devices[d];
      }
    }

    /** Unknown devices of the worker: busy if leased (in retain mode, only to a job it names), ready if neither leased nor awaiting a kill. */
    method SettleUnknown(w: string, running: set<string>, retain: bool)
      modifies this`devices
      ensures devices == SettledDevices(old(View()), w, running, retain)
    {
      hide Leased, NamedHolding, KillFlagged, Settled;
      ghost var db := View();
      var leased := SelectLeased();
      var flagged := SelectFlagged(w);
      var busy := leased;
      if retain { busy := SelectHolding(w, running); }
      MoveUnknown(w, busy, Busy);
      var ready := set d | d in devices && d !in leased && d !in flagged;
      MoveUnknown(w, ready, Ready);
      forall d | d in devices ensures devices[d] == Settled(db, w, running, retain, d) {
        SettledInSteps(db, w, running, retain, busy, leased, flagged, d);
      }
    }

    /** UPDATE devices SET state WHERE worker_id = ? AND state = unknown AND id IN (...) */
    method MoveUnknown(w: string, ids: set<string>, state: DeviceState)
      modifies this`devices
      ensures devices == Moved(old(devices), w, ids, state)
    {
      devices := map d | d in devices ::
        if devices[d].worker == w && devices[d].state.Unknown? && d in ids then devices[d].(state := state) else devices[d];
    }

    method SelectLeased() returns (found: set<string>)
      ensures forall d :: d in found <==> Leased(View(), d)
    {
      found := set l | l in leases && leases[l].live :: leases[l].device;
    }

    method SelectHolding(w: string, running: set<string>) returns (found: set<string>)
      ensures forall d :: d in found <==> NamedHolding(View(), w, running, d)
    {
      found := set j, l | j in jobs && l in leases && jobs[j].worker == w && jobs[j].state.Active() && j in running
                          && leases[l].live && leases[l].job == j :: jobs[j].device;
    }

    method SelectFlagged(w: string) returns (found: set<string>)
      ensures forall d :: d in found <==> KillFlagged(View(), w, d)
    {
      found := set j | j in jobs && jobs[j].worker == w && jobs[j].state.Killed? && jobs[j].killRequested :: jobs[j].device;
    }

    // ----- Automatic recovery (recover.go)

    method Recover(w: string, p: Proof, now: int) returns (recovered: seq<string>)
      modifies this`devices, this`recoveries
      ensures View() == AutoRecover(old(View()), w, p, now)
      ensures recovered == if p.Proves() then Recoverable(old(View()), now, Scheduling.Sorted(Candidates(old(View()), w))) else []
    {
      recovered := [];
      if !p.Proves() { return; }
      ghost var db := View();
      var candidates := SelectRevivable(w);
      recovered := RecoverEach(w, candidates, now);
      RecoveringAll(db, w, p, now, devices, recoveries);
    }

    method RecoverEach(ghost w: string, candidates: seq<string>, now: int) returns (recovered: seq<string>)
      requires candidates == Scheduling.Sorted(Candidates(View(), w))
      modifies this`devices, this`recoveries
      ensures Recovering(old(View()), now, Elements(candidates), devices, recoveries)
      ensures recovered == Recoverable(old(View()), now, candidates)
    {
      hide Recovering, Candidates, Budget, Recent, Recoverable, Scheduling.Sorted;
      ghost var db := View();
      recovered := [];
      RecoveringNone(db, now);
      assert candidates[..0] == [];
      RecoverableNone(db, now);
      for i := 0 to |candidates|
        invariant Recovering(db, now, Elements(candidates[..i]), devices, recoveries)
        invariant recovered == Recoverable(db, now, candidates[..i])
      {
        var d := candidates[i];
        CandidateAt(db, w, candidates, i);
        RecoveringNext(db, now, Elements(candidates[..i]), devices, recoveries, d);
        RecoverableNext(db, now, candidates, i);
        ElementsNext(candidates, i);
        var ok := RecoverOne(d, now);
        if ok { recovered := recovered + [d]; }
      }
      assert candidates[..|candidates|] == candidates;
    }

    /** One candidate: prune its history, count, and if returns are left, return it and record that. */
    method RecoverOne(d: string, now: int) returns (ok: bool)
      requires d in devices && devices[d].state.Unhealthy?
      modifies this`devices, this`recoveries
      ensures var h := Recent(if d in old(recoveries) then old(recoveries)[d] else [], now - RECOVERY_WINDOW);
              && (ok <==> |h| < RECOVERY_LIMIT)
              && recoveries == old(recoveries)[d := h + if ok then [Recovery(now, old(devices)[d].reason)] else []]
              && devices == if ok then old(devices)[d := Cleared(old(devices)[d])] else old(devices)
    {
      var history := Recent(if d in recoveries then recoveries[d] else [], now - RECOVERY_WINDOW);
      recoveries := recoveries[d := history];
      assert history + [] == history;
      if |history| >= RECOVERY_LIMIT { return false; }
      var reason := devices[d].reason;
      devices := devices[d := devices[d].(state := Ready, reason := NoReason, detail := "")];
      recoveries := recoveries[d := history + [Recovery(now, reason)]];
      return true;
    }

    method SelectRevivable(w: string) returns (r: seq<string>)
      ensures r == Scheduling.Sorted(Candidates(View(), w)) && Elements(r) == Candidates(View(), w)
    {
      hide Leased;
      var leased := SelectLeased();
      var found := set d | d in devices && devices[d].worker == w && devices[d].state.Unhealthy?
                           && Clearable(devices[d].reason) && d !in leased;
      assert found == Candidates(View(), w);
      Scheduling.TextIsTotal(found);
      r := Sort(found, Scheduling.TextOrder());
    }

    /** The returns in the window, newest first, and how many the device has left. */
    method RecoveryHistoryFor(d: string, now: int) returns (events: seq<Recovery>, remaining: int)
      ensures multiset(events) == multiset(Recent(History(View(), d), now - RECOVERY_WINDOW))
      ensures IsNewestFirst(events)
      ensures remaining == Recoveries.Remaining(View(), d, now)
    {
      events := NewestFirst(Recent(if d in recoveries then recoveries[d] else [], now - RECOVERY_WINDOW));
      remaining := RECOVERY_LIMIT - |events|;
      if remaining < 0 { remaining := 0; }
    }

    /** handleRegister: the worker and its devices, their ceilings, then automatic recovery. */
    method Register(w: string, boot: string, declaring: seq<string>, ceilings: map<string, int>, p: Proof, now: int)
      returns (recovered: seq<string>)
      requires Elements(declaring) == ceilings.Keys
      modifies this`workers, this`devices, this`jobs, this`leases, this`recoveries
      ensures View() == Recoveries.Registration(old(View()), w, boot, ceilings, p, now)
    {
      hide Upsert, AutoRecover, Recoveries.SetCeilings;
      UpsertWorker(w, boot, declaring, now);
      DeclareCeilings(declaring, ceilings);
      recovered := Recover(w, p, now);
    }

    method DeclareCeilings(declaring: seq<string>, ceilings: map<string, int>)
      requires Elements(declaring) == ceilings.Keys
      modifies this`devices
      ensures View() == Recoveries.SetCeilings(old(View()), ceilings)
    {
      ghost var before, target := devices, Recoveries.SetCeilings(View(), ceilings).devices;
      ghost var db := View();
      assert before.Keys == target.Keys && forall d :: d in before && d !in ceilings ==> target[d] == before[d];
      hide Patched, Recoveries.SetCeilings, SetCeiling;
      PatchedNone(before, target);
      assert Elements(declaring[..0]) == {};
      for i := 0 to |declaring|
        invariant Patched(before, target, Elements(declaring[..i]), devices)
      {
        var d := declaring[i];
        assert d in Elements(declaring);
        ElementsNext(declaring, i);
        var seconds := if ceilings[d] < 0 then 0 else ceilings[d];
        if d in devices {
          CeilingRow(db, ceilings, Elements(declaring[..i]), devices, d);
          PatchedNext(before, target, Elements(declaring[..i]), devices, d);
        } else {
          PatchedSame(before, target, Elements(declaring[..i]), devices, d);
        }
        var ok := SetDeviceMaxRuntime(d, seconds);
      }
      assert declaring[..|declaring|] == declaring;
      PatchedAll(before, target, Elements(declaring), devices);
    }

    // ----- The sweep (reaper.go)

    method Sweep(a: SweepArgs, now: int) returns (res: Sweeping.SweepResult)
      modifies this`devices, this`jobs, this`leases
      ensures View() == Transactions.Sweep(old(View()), a, now)
      ensures Sweeping.Reports(old(View()), a, now, res)
    {
      hide Judged, DemotedDevices, LostOn, ReapedOn, ReleasedFor, Due, Lapsing, LapsedSet, Sweeping.Reports, Transactions.Sweep, WrittenOff;
      ghost var db := View();
      var pending, found, unknown, unhealthy := Judge(a, now);
      JudgedReap(db, a, now, pending, found, unknown, unhealthy);
      Demote(a, now, pending, found, unknown, unhealthy);
      var reap := if a.retain then [] else found;
      var lost := ReapJobs(reap, now);
      assert View() == BeforeDeadlines(db, a, now);
      var expired := ExpireLeases(a, now);
      SweepInSteps(db, a, now, devices, jobs, leases);
      res := Sweeping.SweepResult(unknown, unhealthy, lost, expired);
      ReportsInSteps(db, a, now, pending, found, res);
    }

    /** One row for each device whose worker is known. */
    method Judge(a: SweepArgs, now: int)
      returns (pending: seq<Demotion>, reap: seq<string>, unknown: seq<string>, unhealthy: seq<string>)
      ensures Judged(View(), a, now, devices.Keys, pending, reap, unknown, unhealthy)
    {
      hide Judged;
      pending, reap, unknown, unhealthy := [], [], [], [];
      var rest := devices.Keys;
      assert devices.Keys - rest == {};
      JudgedNone(View(), a, now);
      while rest != {}
        invariant rest <= devices.Keys
        invariant Judged(View(), a, now, devices.Keys - rest, pending, reap, unknown, unhealthy)
        decreases |rest|
      {
        var d :| d in rest;
        JudgedNext(View(), a, now, devices.Keys - rest, pending, reap, unknown, unhealthy, d);
        RestShrinks(devices.Keys, rest, d);
        rest := rest - {d};
        var v := devices[d];
        if v.worker in workers {
          var silence := now - workers[v.worker].heartbeat;
          if now >= a.holdOffUntil && silence >= a.unhealthyAfter {
            reap := reap + [d];
            if !v.state.Unhealthy? {
              pending := pending + [Demotion(d, Unhealthy)];
              unhealthy := unhealthy + [d];
            }
          } else if silence >= a.grace && (v.state.Ready? || v.state.Busy?) {
            pending := pending + [Demotion(d, Unknown)];
            unknown := unknown + [d];
          }
        }
      }
      assert devices.Keys - rest == devices.Keys;
    }

    method Demote(ghost a: SweepArgs, ghost now: int, pending: seq<Demotion>,
                  ghost reap: seq<string>, ghost unknown: seq<string>, ghost unhealthy: seq<string>)
      requires Judged(View(), a, now, devices.Keys, pending, reap, unknown, unhealthy)
      modifies this`devices
      ensures devices == DemotedDevices(old(View()), a, now)
    {
      hide Judged, Patched, DemotedDevices;
      ghost var db := View();
      ghost var target := DemotedDevices(db, a, now);
      DemotedKeys(db, a, now);
      PatchedNone(db.devices, target);
      ghost var done: set<string> := {};
      for i := 0 to |pending|
        invariant Patched(db.devices, target, done, devices) && devices.Keys == db.devices.Keys
        invariant done == DemotedBy(pending[..i])
      {
        var x := pending[i];
        DemotedRow(db, a, now, pending, reap, unknown, unhealthy, done, devices, i);
        PatchedNext(db.devices, target, done, devices, x.device);
        DemotedByNext(pending, i);
        var reason := if x.state.Unhealthy? then WorkerLost else NoReason;
        devices := devices[x.device := devices[x.device].(state := x.state, reason := reason)];
        done := done + {x.device};
      }
      assert pending[..|pending|] == pending;
      NotDemoted(db, a, now, pending, reap, unknown, unhealthy);
      PatchedAll(db.devices, target, done, devices);
    }

    method ReapJobs(reap: seq<string>, now: int) returns (lost: seq<string>)
      modifies this`jobs, this`leases
      ensures jobs == ReapedOn(old(jobs), Elements(reap), now)
      ensures leases == ReleasedFor(old(leases), LostOn(old(jobs), Elements(reap)))
      ensures multiset(lost) == multiset(LostOn(old(jobs), Elements(reap)))
    {
      ghost var jobs0, leases0 := jobs, leases;
      lost := [];
      ReapedOnNone(jobs, leases, now);
      hide ReapedOn, LostOn, ReleasedFor;
      assert reap[..0] == [];
      for i := 0 to |reap|
        invariant jobs == ReapedOn(jobs0, Elements(reap[..i]), now)
        invariant leases == ReleasedFor(leases0, LostOn(jobs0, Elements(reap[..i])))
        invariant multiset(lost) == multiset(LostOn(jobs0, Elements(reap[..i])))
      {
        ElementsNext(reap, i);
        ReapedOnMore(jobs0, leases0, Elements(reap[..i]), reap[i], now);
        var more := ReapDevice(reap[i], now);
        MultisetOfUnion(LostOn(jobs0, Elements(reap[..i])), LostOn(ReapedOn(jobs0, Elements(reap[..i]), now), {reap[i]}));
        lost := lost + more;
      }
      assert reap[..|reap|] == reap;
    }

    method SelectOn(d: string) returns (found: set<string>)
      ensures found == LostOn(jobs, {d}) && found <= jobs.Keys
    {
      found := set j | j in jobs && jobs[j].device == d && (jobs[j].state.Assigned? || jobs[j].state.Running?);
    }

    method ReapDevice(d: string, now: int) returns (lost: seq<string>)
      modifies this`jobs, this`leases
      ensures jobs == ReapedOn(old(jobs), {d}, now)
      ensures leases == ReleasedFor(old(leases), LostOn(old(jobs), {d}))
      ensures multiset(lost) == multiset(LostOn(old(jobs), {d}))
    {
      hide Reaped1, LostOn, ReapedOn, ReleasedFor, Ended;
      ghost var jobs0, leases0 := jobs, leases;
      lost := [];
      var found := SelectOn(d);
      var rest := found;
      assert found - rest == {};
      ReapedNone(jobs, leases, now);
      while rest != {}
        invariant rest <= found && found == LostOn(jobs0, {d}) && jobs.Keys == jobs0.Keys && found <= jobs0.Keys
        invariant Reaped1(jobs0, leases0, found - rest, now, jobs, leases, lost)
        decreases |rest|
      {
        var j :| j in rest;
        ReapedNext(jobs0, leases0, found - rest, now, jobs, leases, lost, j);
        RestShrinks(found, rest, j);
        jobs := jobs[j := Ended(jobs[j], Lost, "worker lost", now)];
        ReleaseLeases(j);
        lost := lost + [j];
        rest := rest - {j};
      }
      assert found - rest == found;
      ReapedDone(jobs0, leases0, d, now, jobs, leases, lost);
    }

    method SelectDue(a: SweepArgs, now: int) returns (stale: set<nat>)
      ensures stale == Due(leases, a, now) && stale <= leases.Keys
    {
      stale := {};
      if now >= a.holdOffUntil {
        stale := set l | l in leases && leases[l].live && leases[l].expires <= now && (a.retain ==> !leases[l].kind.JobKind?);
      }
    }

    method ExpireLeases(a: SweepArgs, now: int) returns (expired: seq<Sweeping.Expired>)
      modifies this`devices, this`jobs, this`leases
      ensures Lapsing(old(View()), Due(old(leases), a, now), now, devices, jobs, leases)
      ensures multiset(expired) == multiset(LapsedSet(old(View()), Due(old(leases), a, now)))
    {
      ghost var db := View();
      expired := [];
      var stale := SelectDue(a, now);
      hide Lapsing, LapsedSet, Due, Expire, Ended;
      var rest := stale;
      assert stale - rest == {};
      LapsingNone(db, now);
      while rest != {}
        invariant rest <= stale <= db.leases.Keys && Lapsing(db, stale - rest, now, devices, jobs, leases)
        invariant leases.Keys == db.leases.Keys
        invariant multiset(expired) == multiset(LapsedSet(db, stale - rest))
        decreases |rest|
      {
        var l :| l in rest;
        LapsingNext(db, stale - rest, now, devices, jobs, leases, l);
        LapsedSetNext(db, stale - rest, now, devices, jobs, leases, l, expired);
        RestShrinks(stale, rest, l);
        rest := rest - {l};
        var e := ExpireOne(l, now);
        if e.Some? { expired := expired + [e.value]; }
      }
      assert stale - rest == stale;
    }

    /** One lease past its deadline: released, its device quarantined, its job lost if it was still active. */
    method ExpireOne(l: nat, now: int) returns (e: Option<Sweeping.Expired>)
      requires l in leases
      modifies this`devices, this`jobs, this`leases
      ensures var d, j := old(leases)[l].device, old(leases)[l].job;
              && leases == old(leases)[l := old(leases)[l].(live := false)]
              && devices == (if d in old(devices) then old(devices)[d := Expire(old(devices)[d])] else old(devices))
              && jobs == (if j != "" && j in old(jobs) && old(jobs)[j].state.Active()
                          then old(jobs)[j := Ended(old(jobs)[j], Lost, "lease expired", now)] else old(jobs))
              && e == if j == "" then Some(Sweeping.OfLease(l))
                      else if j in old(jobs) && old(jobs)[j].state.Active() then Some(Sweeping.OfJob(j)) else None
    {
      var d, j := leases[l].device, leases[l].job;
      leases := leases[l := leases[l].(live := false)];
      if d in devices {
        devices := devices[d := devices[d].(state := Unhealthy, reason := if devices[d].state.Unhealthy? then devices[d].reason else LeaseExpired)];
      }
      if j == "" { return Some(Sweeping.OfLease(l)); }
      if j in jobs && (jobs[j].state.Assigned? || jobs[j].state.Running?) {
        jobs := jobs[j := Ended(jobs[j], Lost, "lease expired", now)];
        return Some(Sweeping.OfJob(j));
      }
      return None;
    }

    method QuarantineReasons(ids: set<string>) returns (out: map<string, Reason>)
      ensures Sweeping.ReasonsRead(View(), ids, out)
    {
      out := map[];
      var rest := set d | d in ids && d in devices;
      ghost var all := rest;
      while rest != {}
        invariant rest <= all && out.Keys == all - rest && forall d :: d in out ==> out[d] == devices[d].reason
        decreases |rest|
      {
        var d :| d in rest;
        out := out[d := devices[d].reason];
        rest := rest - {d};
      }
    }

    /** The leases that are, or whose jobs are, expired: ORDER BY acquired_at */
    method SelectLeases(expired: seq<Sweeping.Expired>) returns (rows: seq<nat>)
      ensures forall l :: l in rows <==> l in leases && (Sweeping.OfLease(l) in expired || Sweeping.OfJob(leases[l].job) in expired)
      ensures ByAcquired(leases, rows)
    {
      var found := set l | l in leases && (Sweeping.OfLease(l) in expired || Sweeping.OfJob(leases[l].job) in expired);
      ByAcquisition(leases, found);
      hide Acquired, ByAcquired;
      rows := Sort(found, Acquired(leases));
      ListedInOrder(found, Acquired(leases));
      InAcquisitionOrder(leases, rows);
    }

    /** The device of each expired job, from its most recently acquired lease, and of each expired lease. */
    method LeaseDevices(expired: seq<Sweeping.Expired>) returns (out: map<Sweeping.Expired, string>)
      ensures Sweeping.LeaseDevicesRead(View(), expired, out)
    {
      hide DevicesRead, ByAcquired, Sweeping.LeaseDevicesRead;
      out := map[];
      var rows := SelectLeases(expired);
      DevicesReadNone(leases);
      assert rows[..0] == [];
      for i := 0 to |rows|
        invariant DevicesRead(leases, Elements(rows[..i]), out)
      {
        var l := rows[i];
        assert l in rows;
        ElementsNext(rows, i);
        EarlierAcquired(leases, rows, i);
        DevicesReadNext(leases, Elements(rows[..i]), out, l);
        out := out[Sweeping.OfLease(l) := leases[l].device];
        if leases[l].job != "" { out := out[Sweeping.OfJob(leases[l].job) := leases[l].device]; }
      }
      assert rows[..|rows|] == rows;
      DevicesReadAll(View(), expired, Elements(rows), out);
    }

    /** sweepAndNotify: sweep, read back what it left, and say so. */
    method SweepAndNotify(a: SweepArgs, now: int) returns (out: seq<Sweeping.Notice>)
      requires Invariant.Valid(View())
      modifies this`devices, this`jobs, this`leases
      ensures View() == Transactions.Sweep(old(View()), a, now)
      ensures forall d :: d != "" ==> Sweeping.OutCount(out, d) == if Sweeping.BecameUnhealthy(old(View()), a, now, d) then 1 else 0
      ensures forall j :: j in old(jobs) ==>
                Sweeping.LostCount(out, j) + Sweeping.LapseCount(out, Sweeping.OfJob(j))
                == if old(jobs)[j].state != Lost && jobs[j].state == Lost then 1 else 0
    {
      hide Invariant.Valid, Transactions.Sweep, Sweeping.Reports, Sweeping.LeaseDevicesRead, Sweeping.ReasonsRead, Sweeping.Announces, Sweeping.BecameUnhealthy;
      ghost var db := View();
      var res := Sweep(a, now);
      var leaseDevices := LeaseDevices(res.leasesExpired);
      var ids := (set d | d in res.devicesUnhealthy) + (set x | x in res.leasesExpired :: Sweeping.DeviceOf(leaseDevices, x));
      var reasons := QuarantineReasons(ids);
      out := Sweeping.SweepEvents(res, reasons, leaseDevices);
      Sweeping.AnnouncementsAreExact(db, a, now, res, reasons, leaseDevices, out);
    }

    // ----- Labels and candidates (labels.go, queue.go)

    /** A detected value is written after the declared one, so it is the one that stays. */
    method LabelSnapshot() returns (out: map<string, Labels>)
      ensures forall d :: LabelsIn(out, d) == Queue.Effective(View(), d)
    {
      hide Snapped;
      out := map[];
      var all := declared.Keys + detected.Keys;
      var rest := all;
      assert all - rest == {};
      SnappedNone(View());
      while rest != {}
        invariant rest <= all && Snapped(View(), all - rest, out)
        decreases |rest|
      {
        var d :| d in rest;
        SnappedNext(View(), all - rest, out, d);
        RestShrinks(all, rest, d);
        var labels := LabelsOf(d);
        out := out[d := labels];
        rest := rest - {d};
      }
      assert all - rest == all;
      SnappedAll(View(), out);
    }

    method LabelsOf(d: string) returns (labels: Labels)
      ensures labels == Queue.Effective(View(), d)
    {
      labels := map[];
      if d in declared { labels := Probes.Overlay(labels, declared[d]); }
      if d in detected { labels := Probes.Overlay(labels, detected[d]); }
    }

    method MatchingDevices(q: Selector.Quantities, ts: Selector.Terms, snap: map<string, Labels>, ghost labels: Db) returns (ids: seq<string>)
      requires forall d :: LabelsIn(snap, d) == Queue.Effective(labels, d)
      ensures ids == Scheduling.Sorted(Queue.MatchingIds(labels, View(), q, ts))
    {
      var found: set<string> := {};
      var rest := devices.Keys;
      while rest != {}
        invariant rest <= devices.Keys
        invariant forall d :: d in found <==> d in devices && d !in rest && Selector.Matches(q, ts, Queue.Effective(labels, d))
        decreases |rest|
      {
        var d :| d in rest;
        var ok := Selector.Match(q, ts, LabelsIn(snap, d));
        if ok { found := found + {d}; }
        rest := rest - {d};
      }
      assert found == Queue.MatchingIds(labels, View(), q, ts);
      Scheduling.TextIsTotal(found);
      ids := Sort(found, Scheduling.TextOrder());
    }

    method CeilingFilter(ids: seq<string>, runtime: int) returns (out: seq<string>)
      ensures out == Scheduling.Within(View(), ids, runtime)
    {
      if runtime <= 0 {
        Scheduling.WithinAll(View(), ids, runtime);
        return ids;
      }
      out := [];
      for i := 0 to |ids|
        invariant out == Scheduling.Within(View(), ids[..i], runtime)
      {
        assert ids[..i + 1][..i] == ids[..i];
        var ceiling := if ids[i] in devices then devices[ids[i]].ceiling else 0;
        if ceiling == 0 || ceiling >= runtime { out := out + [ids[i]]; }
      }
      assert ids[..|ids|] == ids;
    }

    // ----- The queue (queue.go)

    /** The transaction of a submission. */
    method Enter(selector: string, id: string, r: Queue.Request, now: int) returns (res: Queue.Submission)
      modifies this`jobs, this`nextRow
      ensures (View(), res) == Queue.Entered(old(View()), selector, id, r, now)
    {
      if r.key != "" && exists j :: j in jobs && jobs[j].key == r.key { return Queue.Existing; }
      var runtime := r.runtime;
      if r.device != "" {
        if r.device !in devices { return Queue.Rejected(Queue.UnknownDevice); }
        var ceiling := devices[r.device].ceiling;
        if ceiling > 0 && (runtime == 0 || runtime > ceiling) {
          if runtime > ceiling { return Queue.Rejected(Queue.AboveCeiling); }
          runtime := ceiling;
        }
      }
      if id == "" || id in jobs { return Queue.Rejected(Queue.DuplicateId); }
      var job := Job(Queued, selector, r.device, "", r.submitter, r.key, r.priority, now, nextRow,
                     runtime, r.kind, false, 0, "", 0);
      jobs := jobs[id := job];
      nextRow := nextRow + 1;
      return Queue.Recorded(job);
    }

    /** Enter, once the screening has given its verdict. */
    method EnterScreened(ghost seen: Queue.Seen, ghost q: Selector.Quantities, screened: Result<string, Queue.SubmitError>,
                         id: string, r: Queue.Request, now: int)
      requires screened == Queue.Screen(seen, q, r)
      modifies this`jobs, this`nextRow
      ensures View() == Queue.Submit(old(View()), seen, q, id, r, now)
    {
      hide Queue.Screen, Queue.Entered;
      if screened.Ok? { var res := Enter(screened.value, id, r, now); }
    }

    method QueuedIds() returns (ids: seq<string>)
      requires Queue.RowsDistinct(View())
      ensures ids == Queue.QueueOrder(View())
    {
      var db := Db(workers, devices, jobs, leases, reservations, recoveries, detected, declared, nextRow, nextLease);
      var queued := set j | j in jobs && jobs[j].state.Queued?;
      assert queued == Queue.QueuedSet(db);
      Queue.OrderIsTotal(db, queued);
      ids := Sort(queued, Queue.Order(db));
    }

    method QueuePosition(j: string) returns (n: nat)
      requires j in jobs
      ensures n == Queue.QueuePosition(View(), j)
    {
      if !jobs[j].state.Queued? { return 0; }
      var x := jobs[j];
      var at := if x.queuedAt > 0 then x.queuedAt else 0;
      var ahead := set i | i in jobs && jobs[i].state.Queued? && (x.selector != "" || jobs[i].device == x.device)
                           && (|| jobs[i].priority > x.priority
                               || (jobs[i].priority == x.priority
                                   && (jobs[i].queuedAt < at || (jobs[i].queuedAt == at && jobs[i].row < x.row))));
      assert ahead == Queue.AheadOf(View(), j);
      return |ahead| + 1;
    }

    // ----- Any transaction, and any run of them

    /** Each event is carried out by the method that stands for it. */
    method Perform(e: Event)
      modifies this
      ensures View() == Apply(old(View()), e)
    {
      hide View, Transactions.Assign, MarkRunning, Transactions.Report, CancelQueued, RequestKill, Transactions.TakeKills;
      hide Transactions.Sweep, Transactions.Heartbeat, Upsert, SetCeiling, AutoRecover, SetDeviceState, ClearDevice, RetireDevice;
      hide Transactions.Unreserve, Queue.Submit, Queue.Screen, DeviceIds, Sweeping.Reports, KillOutcomeOf, AssignOutcomeOf, KillDue, CanClear, CanRetire;
      match e.op {
        case Submit(id, r, q, seen) => EnterScreened(seen, q, Queue.Screen(seen, q, r), id, r, e.now);
        case Assign(j, d) => var outcome := AssignQueued(j, d, e.now);
        case ClearReservations => ForgetReservations();
        case Reserve(j, d) => ReserveFor(d, j);
        case Handout(j) => StartRunning(j);
        case Report(w, j, state, reason) => Report(w, j, state, reason, e.now);
        case Cancel(j, reason) => var ok := CancelJob(j, reason, e.now);
        case Unreserve(j) => DropReservations(j);
        case Kill(j, reason, finalize) => var outcome := Kill(j, reason, finalize, e.now);
        case TakeKills(w) => var due := TakeKillRequests(w, e.now);
        case Sweep(a) => var res := Sweep(a, e.now);
        case Beat(w, running, retain) => Heartbeat(w, running, retain, e.now);
        case _ => PerformOnDevices(e);
      }
    }

    static predicate OnDevices(o: Op) {
      o.Register? || o.Ceiling? || o.Recover? || o.Fault? || o.Clear? || o.Retire? || o.Relabel?
    }

    method PerformOnDevices(e: Event)
      requires OnDevices(e.op)
      modifies this
      ensures View() == Apply(old(View()), e)
    {
      hide View, Upsert, SetCeiling, AutoRecover, DeviceIds;
      match e.op {
        case Register(host, boot, names) =>
          if host != "" { RegisterHost(host, boot, names, e.now); }
        case Ceiling(d, c) => var ok := SetDeviceMaxRuntime(d, if c < 0 then 0 else c);
        case Recover(w, p) => var recovered := Recover(w, p, e.now);
        case Relabel(d, isDetected, labels) => ReplaceLabels(d, isDetected, labels);
        case _ => PerformByOperator(e);
      }
    }

    method PerformByOperator(e: Event)
      requires e.op.Fault? || e.op.Clear? || e.op.Retire?
      modifies this
      ensures View() == Apply(old(View()), e)
    {
      hide SetDeviceState, ClearDevice, RetireDevice, CanClear, CanRetire;
      hide View;
      if e.op.Fault? {
        if e.op.detail != "" { var ok := SetState(e.op.device, Unhealthy, e.op.detail); }
      } else if e.op.Clear? {
        var ok := Clear(e.op.device);
      } else {
        var ok := Retire(e.op.device);
      }
    }

    /** handleRegister names the worker after the host, and its devices host:name. */
    method RegisterHost(host: string, boot: string, names: set<string>, now: int)
      modifies this`workers, this`devices, this`jobs, this`leases
      ensures View() == Upsert(old(View()), host, boot, DeviceIds(host, names), now)
    {
      var ids := DeviceIds(host, names);
      Scheduling.TextIsTotal(ids);
      var declaring := Sort(ids, Scheduling.TextOrder());
      assert Elements(declaring) == ids;
      UpsertWorker(host, boot, declaring, now);
    }

    method PerformAll(es: Run)
      modifies this
      ensures View() == After(old(View()), es, |es|)
    {
      hide Apply;
      for i := 0 to |es|
        invariant View() == After(old(View()), es, i)
      {
        Perform(es[i]);
      }
    }

    // ----- The scheduling pass (queue.go)

    /** Everything else that runs before the next access. */
    method Others(env: Scheduling.Env, ghost s: Scheduling.Pass, tick: nat)
      requires s.db == View() && s.tick == tick
      modifies this
      ensures View() == Scheduling.Turn(s, env).db
    {
      PerformAll(env(tick).others);
    }

    /** The job is cancelled, and if it was still queued, its reservations are dropped afterwards. */
    method Cancel(env: Scheduling.Env, j: string, reason: string) returns (ok: bool)
      modifies this
      ensures (View(), ok) == Submissions.Cancelled(old(View()), env, j, reason)
    {
      hide Scheduling.Turn, CancelQueued, Transactions.Unreserve;
      ghost var s := Submissions.Begin(View());
      Scheduling.TurnCounts(s, env);
      Others(env, s, 0);
      ghost var a := Scheduling.Turn(s, env);
      ok := CancelJob(j, reason, env(0).now);
      if !ok {
        NotQueuedNotCancelled(a.db, j, reason, env(0).now);
        return;
      }
      Others(env, a.(db := View()), 1);
      DropReservations(j);
    }

    method Screen(env: Scheduling.Env, q: Selector.Quantities, ghost s: Scheduling.Pass, start: nat, r: Queue.Request)
      returns (tick: nat, res: Result<string, Queue.SubmitError>)
      requires s.db == View() && s.tick == start
      modifies this
      ensures var (t, v) := Submissions.Screened(s, env, q, r); View() == t.db && tick == t.tick && res == v
    {
      hide View, Submissions.Offered, Selector.Parse;
      tick := start;
      if r.command == [] { return tick, Err(Queue.CommandRequired); }
      if r.submitter == "" { return tick, Err(Queue.SubmitterRequired); }
      if r.device != "" && r.selector != "" { return tick, Err(Queue.BothTargets); }
      if r.device == "" && r.selector == "" { return tick, Err(Queue.NoTarget); }
      if r.selector == "" { return tick, Ok(""); }
      var parsed := Selector.ParseSelector(r.selector);
      if parsed.Err? { return tick, Err(Queue.BadSelector(parsed.error)); }
      tick, res := Offer(env, q, s, start, parsed.value, r.runtime);
    }

    method Offer(env: Scheduling.Env, q: Selector.Quantities, ghost s: Scheduling.Pass, start: nat, ts: Selector.Terms, runtime: int)
      returns (tick: nat, res: Result<string, Queue.SubmitError>)
      requires s.db == View() && s.tick == start
      modifies this
      ensures var (t, v) := Submissions.Offered(s, env, q, ts, runtime); View() == t.db && tick == t.tick && res == v
    {
      hide Scheduling.Turn, Scheduling.Matched, Scheduling.Within, Selector.Print;
      var matches;
      tick, matches := Match(env, q, s, start, ts);
      if |matches| == 0 { return tick, Err(Queue.NoMatchingDevice); }
      var text := Selector.PrintSelector(ts);
      if runtime > 0 {
        var within;
        tick, within := AnyWithin(env, Scheduling.Matched(s, env, q, ts).0, tick, matches, runtime);
        if !within { return tick, Err(Queue.AboveCeiling); }
      }
      return tick, Ok(text);
    }

    /** Reads the ceilings, and once more to word the refusal if none will do. */
    method AnyWithin(env: Scheduling.Env, ghost b: Scheduling.Pass, start: nat, matches: seq<string>, runtime: int) returns (tick: nat, ok: bool)
      requires b.db == View() && b.tick == start
      modifies this
      ensures var c := Scheduling.Turn(b, env);
              && ok == (Scheduling.Within(c.db, matches, runtime) != [])
              && var t := if ok then c else Scheduling.Turn(c, env); View() == t.db && tick == t.tick
    {
      hide Scheduling.Turn, Scheduling.Within;
      Scheduling.TurnCounts(b, env);
      Others(env, b, start);
      ghost var c := Scheduling.Turn(b, env);
      var within := CeilingFilter(matches, runtime);
      tick, ok := start + 1, |within| > 0;
      if !ok {
        Scheduling.TurnCounts(c, env);
        Others(env, c, tick);
        tick := tick + 1;
      }
    }

    /** id: the new job's random identifier. */
    method Enqueue(env: Scheduling.Env, q: Selector.Quantities, id: string, r: Queue.Request) returns (res: Queue.Submission)
      modifies this
      ensures (View(), res) == Submissions.Enqueued(old(View()), env, q, id, r)
    {
      hide Scheduling.Turn, Submissions.Screened, Queue.Entered;
      ghost var s := Submissions.Begin(View());
      var tick, screened := Screen(env, q, s, 0, r);
      ghost var t := Submissions.Screened(s, env, q, r).0;
      if screened.Err? { return Queue.Rejected(screened.error); }
      var now := env(tick).now;
      Others(env, t, tick);
      res := Enter(screened.value, id, r, now);
    }

    method ScheduleOnce(env: Scheduling.Env, q: Selector.Quantities) returns (granted: seq<Scheduling.Grant>)
      requires Ticketed(View())
      modifies this
      ensures View() == Scheduling.ScheduleOnce(old(View()), env, q).db
      ensures granted == Scheduling.ScheduleOnce(old(View()), env, q).granted
    {
      ghost var s := Scheduling.Begun(View(), env);
      var tick, ids, rows := Begin(env);
      Scheduling.BegunClean(old(View()), env);
      hide Ticketed, Scheduling.Begun, Scheduling.VisitAll, Scheduling.Entries;
      granted := VisitAll(env, q, s, tick, ids, rows);
    }

    /** The queue is read, then its rows, and the reservations are dropped. */
    method Begin(env: Scheduling.Env) returns (tick: nat, ids: seq<string>, rows: seq<Job>)
      requires Ticketed(View())
      modifies this
      ensures var s := Scheduling.Begun(old(View()), env); View() == s.db && tick == s.tick
      ensures ids == Scheduling.Entries(old(View()), env) && rows == Scheduling.Rows(old(View()), env) && |rows| == |ids|
    {
      hide Ticketed, Scheduling.Turn, Scheduling.ReadRows;
      ghost var db := View();
      ghost var first := Scheduling.Pass(db, 0, {}, [], []);
      Scheduling.EntriesAreQueued(db, env);
      Scheduling.TurnCounts(first, env);
      Others(env, first, 0);
      ids := QueuedIds();
      tick, rows := ReadRows(env, Scheduling.Turn(first, env), 1, ids);
      ghost var s := Scheduling.ReadRows(Scheduling.Turn(first, env), env, ids).0;
      Scheduling.TurnCounts(s, env);
      Others(env, s, tick);
      ForgetReservations();
      tick := tick + 1;
    }

    method ReadRows(env: Scheduling.Env, ghost s: Scheduling.Pass, start: nat, ids: seq<string>) returns (tick: nat, rows: seq<Job>)
      requires s.db == View() && s.tick == start && forall j :: j in ids ==> j in jobs
      modifies this
      ensures var (t, r) := Scheduling.ReadRows(s, env, ids); View() == t.db && tick == t.tick && rows == r
    {
      hide After, Apply, Scheduling.Turn, Scheduling.Follows;
      tick, rows := start, [];
      assert ids[..0] == [];
      for i := 0 to |ids|
        invariant var (t, r) := Scheduling.ReadRows(s, env, ids[..i]); View() == t.db && tick == t.tick && rows == r
      {
        ghost var t := Scheduling.ReadRows(s, env, ids[..i]).0;
        Scheduling.RowsNext(s, env, ids, i);
        Others(env, t, tick);
        rows := rows + [jobs[ids[i]]];
        tick := tick + 1;
      }
      assert ids[..|ids|] == ids;
    }

    method VisitAll(env: Scheduling.Env, q: Selector.Quantities, ghost s: Scheduling.Pass, start: nat, ids: seq<string>, rows: seq<Job>)
      returns (granted: seq<Scheduling.Grant>)
      requires s.db == View() && s.tick == start && s.reserved == {} && s.granted == [] && s.wanted == [] && |ids| == |rows|
      modifies this
      ensures View() == Scheduling.VisitAll(s, env, q, ids, rows, |ids|).db
      ensures granted == Scheduling.VisitAll(s, env, q, ids, rows, |ids|).granted
    {
      hide Scheduling.Visit;
      granted := [];
      var tick, reserved := start, {};
      for i := 0 to |ids|
        invariant var t := Scheduling.VisitAll(s, env, q, ids, rows, i);
                  && View() == t.db && tick == t.tick && reserved == t.reserved && granted == t.granted && |t.wanted| == i
      {
        ghost var t := Scheduling.VisitAll(s, env, q, ids, rows, i);
        var grant;
        tick, reserved, grant := Visit(env, q, t, tick, reserved, i, ids[i], rows[i]);
        if grant.Some? { granted := granted + [grant.value]; }
      }
    }

    method Visit(env: Scheduling.Env, q: Selector.Quantities, ghost s: Scheduling.Pass, start: nat, held: set<string>, k: nat, j: string, row: Job)
      returns (tick: nat, reserved: set<string>, grant: Option<Scheduling.Grant>)
      requires s.db == View() && s.tick == start && s.reserved == held && |s.wanted| == k
      modifies this
      ensures var t := Scheduling.Visit(s, env, q, j, row);
              && View() == t.db && tick == t.tick && reserved == t.reserved && |t.wanted| == k + 1
              && t.granted == if grant.Some? then s.granted + [grant.value] else s.granted
    {
      hide Scheduling.Choose, Scheduling.Free, Scheduling.TryEach, Scheduling.ReserveEach;
      var candidates;
      tick, candidates := Choose(env, q, s, start, row);
      Scheduling.ChooseKeepsLocals(s, env, q, row);
      ghost var (c, ds) := Scheduling.Choose(s, env, q, row);
      ghost var v := c.(wanted := c.wanted + [ds]);
      var available := Available(candidates, held);
      reserved, grant := held, None;
      if |available| == 0 { return; }
      var done;
      Scheduling.TryKeepsLocals(v, env, k, j, available);
      tick, grant, done := TryEach(env, v, tick, k, j, available);
      if done { return; }
      ghost var t := Scheduling.TryEach(v, env, k, j, available).0;
      Scheduling.ReserveKeepsLocals(t, env, j, available);
      tick, reserved := ReserveEach(env, t, tick, held, j, available);
    }

    method Choose(env: Scheduling.Env, q: Selector.Quantities, ghost s: Scheduling.Pass, start: nat, row: Job) returns (tick: nat, ds: seq<string>)
      requires s.db == View() && s.tick == start
      modifies this
      ensures var (t, r) := Scheduling.Choose(s, env, q, row); View() == t.db && tick == t.tick && ds == r
    {
      hide View, Scheduling.Turn, Scheduling.Matched, Scheduling.Within, Selector.Parse;
      tick := start;
      if row.selector == "" { return tick, [row.device]; }
      var parsed := Selector.ParseSelector(row.selector);
      if parsed.Err? { return tick, []; }
      tick, ds := Match(env, q, s, start, parsed.value);
      if row.runtime <= 0 || |ds| == 0 { return; }
      ghost var b := Scheduling.Matched(s, env, q, parsed.value).0;
      Scheduling.TurnCounts(b, env);
      Others(env, b, tick);
      ds := CeilingFilter(ds, row.runtime);
      tick := tick + 1;
    }

    method Match(env: Scheduling.Env, q: Selector.Quantities, ghost s: Scheduling.Pass, start: nat, ts: Selector.Terms)
      returns (tick: nat, ds: seq<string>)
      requires s.db == View() && s.tick == start
      modifies this
      ensures var (t, r) := Scheduling.Matched(s, env, q, ts); View() == t.db && tick == t.tick && ds == r
    {
      hide Scheduling.Turn, Queue.MatchingIds, Scheduling.Sorted, LabelsIn, Queue.Effective;
      Scheduling.TurnCounts(s, env);
      Others(env, s, start);
      ghost var a := Scheduling.Turn(s, env);
      var snap := LabelSnapshot();
      Scheduling.TurnCounts(a, env);
      Others(env, a, start + 1);
      ds := MatchingDevices(q, ts, snap, a.db);
      tick := start + 2;
    }

    method Available(ds: seq<string>, reserved: set<string>) returns (out: seq<string>)
      ensures out == Scheduling.Free(ds, reserved)
    {
      out := [];
      for i := 0 to |ds|
        invariant out == Scheduling.Free(ds[..i], reserved)
      {
        assert ds[..i + 1][..i] == ds[..i];
        if ds[i] !in reserved { out := out + [ds[i]]; }
      }
      assert ds[..|ds|] == ds;
    }

    method TryEach(env: Scheduling.Env, ghost s: Scheduling.Pass, start: nat, k: nat, j: string, ds: seq<string>)
      returns (tick: nat, grant: Option<Scheduling.Grant>, done: bool)
      requires s.db == View() && s.tick == start
      modifies this
      ensures var (t, over) := Scheduling.TryEach(s, env, k, j, ds);
              && View() == t.db && tick == t.tick && done == over
              && t.granted == (if grant.Some? then s.granted + [grant.value] else s.granted) && (grant.Some? ==> done)
    {
      hide Scheduling.Turn, Transactions.Assign, AssignOutcomeOf;
      tick, grant, done := start, None, false;
      ghost var t := s;
      var i := 0;
      assert ds[0..] == ds;
      while i < |ds|
        invariant 0 <= i <= |ds| && View() == t.db && tick == t.tick && t.granted == s.granted
        invariant Scheduling.TryEach(s, env, k, j, ds) == Scheduling.TryEach(t, env, k, j, ds[i..])
      {
        Scheduling.TryStep(t, env, k, j, ds[i..]);
        assert ds[i..][1..] == ds[i + 1..];
        var now := env(tick).now;
        Others(env, t, tick);
        t := Scheduling.Turn(t, env);
        tick := tick + 1;
        var outcome := AssignQueued(j, ds[i], now);
        match outcome {
          case Placed => return tick, Some(Scheduling.Grant(k, j, ds[i])), true;
          case NoLongerQueued => return tick, None, true;
          case NoDevice => i := i + 1;
        }
      }
    }

    method ReserveEach(env: Scheduling.Env, ghost s: Scheduling.Pass, start: nat, held: set<string>, j: string, ds: seq<string>)
      returns (tick: nat, reserved: set<string>)
      requires s.db == View() && s.tick == start && s.reserved == held
      modifies this
      ensures var t := Scheduling.ReserveEach(s, env, j, ds); View() == t.db && tick == t.tick && reserved == t.reserved
    {
      hide Scheduling.Turn;
      tick, reserved := start, held;
      assert ds[..0] == [];
      for i := 0 to |ds|
        invariant var t := Scheduling.ReserveEach(s, env, j, ds[..i]); View() == t.db && tick == t.tick && reserved == t.reserved
      {
        ghost var t := Scheduling.ReserveEach(s, env, j, ds[..i]);
        assert ds[..i + 1][..i] == ds[..i];
        Scheduling.TurnCounts(t, env);
        reserved := reserved + {ds[i]};
        Others(env, t, tick);
        ReserveFor(ds[i], j);
        tick := tick + 1;
      }
      assert ds[..|ds|] == ds;
    }
  }

  /** A store that starts empty and carries out any run: what holds of the run holds of its tables. */
  method Serve(es: Run) returns (s: Store)
    requires forall i :: 0 <= i < |es| ==> PlainHost(es[i])
    ensures fresh(s) && s.View() == After(EMPTY_DB, es, |es|)
    ensures Sound(s.View()) && Ticketed(s.View())
  {
    s := new Store();
    s.PerformAll(es);
    Invariant.EmptyIsValid();
    EmptyIsTicketed();
    RunIsSound(EMPTY_DB, es, |es|);
    RunIsTicketed(EMPTY_DB, es, |es|);
  }

  lemma EmptyIsTicketed()
    ensures Ticketed(EMPTY_DB)
  {
  }
}
