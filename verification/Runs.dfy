/**
 Runs of the controller: any interleaving of its transactions, each atomic,
 at the times its clock shows. What holds in every reachable state.
 */
module Runs {
  import opened Model
  import opened Transactions
  import opened Invariant
  import opened Effects
  import opened Ownership
  import Queue
  import Selector

  datatype Op =
    | Submit(id: string, request: Queue.Request, quantities: Selector.Quantities, seen: Queue.Seen)
    | Assign(job: string, device: string)
    | ClearReservations
    | Reserve(job: string, device: string)
    | Handout(job: string)
    | Report(worker: string, job: string, state: JobState, reason: string)
    | Cancel(job: string, reason: string)
    | Unreserve(job: string)
    | Kill(job: string, reason: string, finalize: bool)
    | TakeKills(worker: string)
    | Sweep(args: SweepArgs)
    | Beat(worker: string, running: set<string>, retain: bool)
    | Register(host: string, boot: string, names: set<string>)
    | Ceiling(device: string, seconds: int)
    | Recover(worker: string, proof: Proof)
    | Fault(device: string, detail: string)
    | Clear(device: string)
    | Retire(device: string)
    | Relabel(device: string, isDetected: bool, labels: Labels)

  datatype Event = At(now: int, op: Op)

  function Apply(db: Db, e: Event): Db {
    match e.op
    case Submit(id, r, q, seen) => Queue.Submit(db, seen, q, id, r, e.now)
    case Assign(j, d) => Transactions.Assign(db, j, d, e.now)
    case ClearReservations => db.(reservations := map[])
    case Reserve(j, d) => db.(reservations := db.reservations[d := j])
    case Handout(j) => MarkRunning(db, j)
    case Report(w, j, state, reason) => Transactions.Report(db, w, j, state, reason, e.now)
    case Cancel(j, reason) => CancelQueued(db, j, reason, e.now)
    case Unreserve(j) => Transactions.Unreserve(db, j)
    case Kill(j, reason, finalize) => RequestKill(db, j, reason, finalize, e.now)
    case TakeKills(w) => Transactions.TakeKills(db, w, e.now)
    case Sweep(a) => Transactions.Sweep(db, a, e.now)
    case Beat(w, running, retain) => Heartbeat(db, w, running, retain, e.now)
    case Register(host, boot, names) => if host == "" then db else Upsert(db, host, boot, DeviceIds(host, names), e.now)
    case Ceiling(d, c) => SetCeiling(db, d, if c < 0 then 0 else c)
    case Recover(w, p) => AutoRecover(db, w, p, e.now)
    case Fault(d, detail) => if detail == "" then db else SetDeviceState(db, d, Unhealthy, detail)
    case Clear(d) => ClearDevice(db, d)
    case Retire(d) => RetireDevice(db, d)
    case Relabel(d, isDetected, labels) =>
      if isDetected then db.(detected := db.detected[d := labels]) else db.(declared := db.declared[d := labels])
  }

  type Run = seq<Event>

  /** The tables after the first n events of es. */
  function After(db: Db, es: Run, n: nat): Db
    requires n <= |es|
  {
    if n == 0 then db else Apply(After(db, es, n - 1), es[n - 1])
  }

  lemma {:induction false} AfterPrefix(db: Db, es: Run, fs: Run, n: nat)
    requires n <= |es|
    ensures After(db, es + fs, n) == After(db, es, n)
  {
    hide Apply;
    if n > 0 { AfterPrefix(db, es, fs, n - 1); }
  }

  lemma {:induction false} AfterConcat(db: Db, es: Run, fs: Run, n: nat)
    requires n <= |fs|
    ensures After(db, es + fs, |es| + n) == After(After(db, es, |es|), fs, n)
  {
    hide Apply;
    if n == 0 { AfterPrefix(db, es, fs, |es|); } else { AfterConcat(db, es, fs, n - 1); }
  }

  ghost predicate Clocked(es: Run) {
    forall i, k :: 0 <= i <= k < |es| ==> es[i].now <= es[k].now
  }

  // ----- One step

  /** The step registers no device another worker's job holds. */
  ghost predicate Safe(db: Db, e: Event) {
    e.op.Register? && e.op.host != "" ==> !TakesOver(db, e.op.host, DeviceIds(e.op.host, e.op.names))
  }

  lemma SubmitKeepsValid(db: Db, seen: Queue.Seen, q: Selector.Quantities, id: string, r: Queue.Request, now: int)
    requires Valid(db)
    ensures Valid(Queue.Submit(db, seen, q, id, r, now))
  {
    var e := Queue.Submit(db, seen, q, id, r, now);
    SubmitAdds(db, seen, q, id, r, now);
    hide Queue.Submit;
    forall l ensures KeepsLease(db, e, l) { assert LeaseOk(db, l); }
    forall i ensures KeepsJob(db, e, i) {}
    forall d ensures KeepsHeld(db, e, d) {}
    QuietKeepsValid(db, e);
  }

  lemma ReservationsKeepValid(db: Db, r: map<string, string>)
    requires Valid(db)
    ensures Valid(db.(reservations := r))
  {
    forall d | d in db.devices ensures RowOk(db.devices[d], Leased(db, d)) { assert DeviceOk(db, d); }
    RowsKeepValid(db, db.(reservations := r));
  }

  lemma LabelsKeepValid(db: Db, detected: map<string, Labels>, declared: map<string, Labels>)
    requires Valid(db)
    ensures Valid(db.(detected := detected, declared := declared))
  {
    forall d | d in db.devices ensures RowOk(db.devices[d], Leased(db, d)) { assert DeviceOk(db, d); }
    RowsKeepValid(db, db.(detected := detected, declared := declared));
  }

  /** Every transaction keeps the invariant; a registration does exactly when it takes over no leased device. */
  lemma StepKeepsValidIff(db: Db, e: Event)
    requires Valid(db)
    ensures Valid(Apply(db, e)) <==> Safe(db, e)
  {
    hide Valid, TakesOver;
    hide Transactions.Assign, MarkRunning, Transactions.Report, CancelQueued, RequestKill, Transactions.TakeKills;
    hide Transactions.Sweep, Heartbeat, Upsert, SetCeiling, AutoRecover, SetDeviceState, ClearDevice, RetireDevice, Queue.Submit;
    match e.op {
      case Submit(id, r, q, seen) => SubmitKeepsValid(db, seen, q, id, r, e.now);
      case Assign(j, d) => AssignKeepsValid(db, j, d, e.now);
      case ClearReservations => ReservationsKeepValid(db, map[]);
      case Reserve(j, d) => ReservationsKeepValid(db, db.reservations[d := j]);
      case Handout(j) => MarkRunningKeepsValid(db, j);
      case Report(w, j, state, reason) => ReportKeepsValid(db, w, j, state, reason, e.now);
      case Cancel(j, reason) => CancelKeepsValid(db, j, reason, e.now);
      case Unreserve(j) => ReservationsKeepValid(db, Transactions.Unreserve(db, j).reservations);
      case Kill(j, reason, finalize) => KillKeepsValid(db, j, reason, finalize, e.now);
      case TakeKills(w) => TakeKillsKeepsValid(db, w, e.now);
      case Sweep(a) => SweepKeepsValid(db, a, e.now);
      case Beat(w, running, retain) => HeartbeatKeepsValid(db, w, running, retain, e.now);
      case Register(host, boot, names) => UpsertKeepsValidIff(db, host, boot, DeviceIds(host, names), e.now);
      case Ceiling(d, c) => CeilingKeepsValid(db, d, if c < 0 then 0 else c);
      case Recover(w, p) => RecoverKeepsValid(db, w, p, e.now);
      case Fault(d, detail) => FaultKeepsValid(db, d, detail);
      case Clear(d) => ClearKeepsValid(db, d);
      case Retire(d) => RetireKeepsValid(db, d);
      case Relabel(d, isDetected, labels) =>
        LabelsKeepValid(db, db.detected[d := labels], db.declared);
        LabelsKeepValid(db, db.detected, db.declared[d := labels]);
    }
  }

  // ----- Ownership is fixed by the device's name

  /** No registering host has a colon in its name. */
  predicate PlainHost(e: Event) {
    e.op.Register? ==> ':' !in e.op.host
  }

  /** Some run of such hosts leads from a to b. */
  ghost predicate Reaches(a: Db, b: Db) {
    exists es: Run :: (forall i :: 0 <= i < |es| ==> PlainHost(es[i])) && After(a, es, |es|) == b
  }

  lemma ReachesItself(db: Db)
    ensures Reaches(db, db)
  {
    assert After(db, [], 0) == db;
  }

  lemma ReachesNext(db: Db, e: Event)
    requires PlainHost(e)
    ensures Reaches(db, Apply(db, e))
  {
    hide Apply;
    assert After(db, [e], 0) == db;
    assert After(db, [e], 1) == Apply(db, e);
  }

  lemma ReachesAlong(db: Db, es: Run)
    requires forall i :: 0 <= i < |es| ==> PlainHost(es[i])
    ensures Reaches(db, After(db, es, |es|))
  {
  }

  lemma ReachesFurther(a: Db, b: Db, c: Db)
    requires Reaches(a, b) && Reaches(b, c)
    ensures Reaches(a, c)
  {
    hide Apply, PlainHost;
    var es: Run :| (forall i :: 0 <= i < |es| ==> PlainHost(es[i])) && After(a, es, |es|) == b;
    var fs: Run :| (forall i :: 0 <= i < |fs| ==> PlainHost(fs[i])) && After(b, fs, |fs|) == c;
    AfterConcat(a, es, fs, |fs|);
    assert |es + fs| == |es| + |fs|;
  }

  lemma PlainIsSafe(db: Db, e: Event)
    requires Sound(db) && PlainHost(e)
    ensures Safe(db, e)
  {
    if e.op.Register? {
      forall d | d in DeviceIds(e.op.host, e.op.names) && d in db.devices ensures db.devices[d].worker == e.op.host {
        IdsBelongToHost(e.op.host, e.op.names, d);
        assert Keyed(db, d);
      }
    }
  }

  /** Sweeps, scheduling, submissions, cancels, kills and reports of trouble. */
  predicate Quiet(o: Op) {
    !o.Report? && !o.Beat? && !o.Register? && !o.Recover? && !o.Clear?
  }

  /** What no step does, with the exceptions named. */
  lemma StepLeaves(db: Db, e: Event)
    ensures !e.op.Submit? ==> JobsKept(db, Apply(db, e))
    ensures !e.op.Assign? ==> PlacesNone(db, Apply(db, e))
    ensures Quiet(e.op) ==> ReadiesNone(db, Apply(db, e))
    ensures !e.op.Retire? ==> RetiresNone(db, Apply(db, e))
    ensures !e.op.Kill? && !e.op.TakeKills? ==> StampsKept(db, Apply(db, e))
    ensures !e.op.Beat? ==> FlagsKept(db, Apply(db, e))
    ensures !e.op.Assign? && !e.op.Beat? ==> LeasesKept(db, Apply(db, e))
    ensures !e.op.Beat? && !e.op.Register? ==> WorkersKept(db, Apply(db, e))
    ensures !e.op.Recover? ==> HistoryKept(db, Apply(db, e))
  {
    hide JobsKept, PlacesNone, ReadiesNone, RetiresNone, StampsKept, FlagsKept, LeasesKept, WorkersKept, HistoryKept;
    hide Transactions.Assign, MarkRunning, Transactions.Report, CancelQueued, RequestKill, Transactions.TakeKills;
    hide Transactions.Sweep, Heartbeat, Upsert, SetCeiling, AutoRecover, SetDeviceState, ClearDevice, RetireDevice, Queue.Submit;
    UnchangedKept(db);
    match e.op {
      case Submit(id, r, q, seen) => SubmitKeeps(db, seen, q, id, r, e.now);
      case Register(host, boot, names) =>
        UpsertKeeps(db, host, boot, DeviceIds(host, names), e.now);
        RegisteredRetiresNone(db, Upsert(db, host, boot, DeviceIds(host, names), e.now), host, DeviceIds(host, names));
      case Clear(d) => ClearKeeps(db, d);
      case _ =>
        StepKeeps(db, e);
        StepKeepsSides(db, e);
    }
  }

  lemma RegisteredRetiresNone(db: Db, e: Db, w: string, ds: set<string>)
    requires forall d :: Registered(db, e, w, ds, d)
    ensures RetiresNone(db, e)
  {
    forall d | d in db.devices ensures d in e.devices { assert Registered(db, e, w, ds, d); }
  }

  lemma {:induction false} StepKeepsJobs(db: Db, e: Event, j: string)
    ensures JobKept(db, Apply(db, e), j)
  {
    if e.op.Submit? { SubmitKeeps(db, e.op.seen, e.op.quantities, e.op.id, e.op.request, e.now); }
    else { StepLeaves(db, e); }
    hide Apply;
  }

  lemma UnchangedKept(db: Db)
    ensures Kept(db, db) && JobsKept(db, db) && PlacesNone(db, db) && ReadiesNone(db, db) && RetiresNone(db, db)
    ensures StampsKept(db, db) && FlagsKept(db, db) && LeasesKept(db, db) && WorkersKept(db, db) && HistoryKept(db, db)
  {
  }

  /** Reservations and labels are beside the point. */
  lemma SidesKeep(db: Db, r: map<string, string>, detected: map<string, Labels>, declared: map<string, Labels>)
    ensures var e := db.(reservations := r, detected := detected, declared := declared);
            && Kept(db, e) && PlacesNone(db, e) && ReadiesNone(db, e) && RetiresNone(db, e)
            && StampsKept(db, e) && FlagsKept(db, e) && LeasesKept(db, e) && WorkersKept(db, e) && HistoryKept(db, e)
  {
  }

  /** Every step but a submission, a registration and a clear. */
  lemma StepKeeps(db: Db, e: Event)
    requires !e.op.Submit? && !e.op.Register? && !e.op.Clear?
    ensures Kept(db, Apply(db, e))
    ensures !e.op.Assign? ==> PlacesNone(db, Apply(db, e))
    ensures Quiet(e.op) ==> ReadiesNone(db, Apply(db, e))
    ensures !e.op.Retire? ==> RetiresNone(db, Apply(db, e))
  {
    UnchangedKept(db);
    hide Kept, PlacesNone, ReadiesNone, RetiresNone, StampsKept, FlagsKept, LeasesKept, WorkersKept, HistoryKept;
    hide Transactions.Assign, MarkRunning, Transactions.Report, CancelQueued, RequestKill, Transactions.TakeKills;
    hide Transactions.Sweep, Heartbeat, Upsert, SetCeiling, AutoRecover, SetDeviceState, ClearDevice, RetireDevice, Queue.Submit;
    match e.op {
      case Assign(i, d) => AssignKeeps(db, i, d, e.now);
      case ClearReservations => SidesKeep(db, map[], db.detected, db.declared);
      case Reserve(i, d) => SidesKeep(db, db.reservations[d := i], db.detected, db.declared);
      case Handout(i) => MarkRunningKeeps(db, i);
      case Report(w, i, state, reason) => ReportKeeps(db, w, i, state, reason, e.now);
      case Cancel(i, reason) => CancelKeeps(db, i, reason, e.now);
      case Unreserve(i) => SidesKeep(db, Transactions.Unreserve(db, i).reservations, db.detected, db.declared);
      case Kill(i, reason, finalize) => KillKeeps(db, i, reason, finalize, e.now);
      case TakeKills(w) => TakeKillsKeeps(db, w, e.now);
      case Sweep(a) => SweepKeeps(db, a, e.now);
      case Beat(w, running, retain) => BeatKeeps(db, w, running, retain, e.now);
      case Ceiling(d, c) => CeilingKeeps(db, d, if c < 0 then 0 else c);
      case Recover(w, p) => RecoverKeeps(db, w, p, e.now);
      case Fault(d, detail) => FaultKeeps(db, d, detail);
      case Retire(d) => RetireKeeps(db, d);
      case Relabel(d, isDetected, labels) =>
        SidesKeep(db, db.reservations, db.detected[d := labels], db.declared);
        SidesKeep(db, db.reservations, db.detected, db.declared[d := labels]);
    }
  }

  /** Their kill stamps, leases and workers. */
  lemma StepKeepsSides(db: Db, e: Event)
    requires !e.op.Submit? && !e.op.Register? && !e.op.Clear?
    ensures !e.op.Kill? && !e.op.TakeKills? ==> StampsKept(db, Apply(db, e))
    ensures !e.op.Beat? ==> FlagsKept(db, Apply(db, e))
    ensures !e.op.Assign? && !e.op.Beat? ==> LeasesKept(db, Apply(db, e))
    ensures !e.op.Beat? && !e.op.Register? ==> WorkersKept(db, Apply(db, e))
    ensures !e.op.Recover? ==> HistoryKept(db, Apply(db, e))
  {
    hide Kept, PlacesNone, ReadiesNone, RetiresNone, StampsKept, FlagsKept, LeasesKept, WorkersKept, HistoryKept;
    UnchangedKept(db);
    hide Transactions.Assign, MarkRunning, Transactions.Report, CancelQueued, RequestKill, Transactions.TakeKills;
    hide Transactions.Sweep, Heartbeat, Upsert, SetCeiling, AutoRecover, SetDeviceState, ClearDevice, RetireDevice, Queue.Submit;
    match e.op {
      case Assign(i, d) => AssignKeeps(db, i, d, e.now);
      case ClearReservations => SidesKeep(db, map[], db.detected, db.declared);
      case Reserve(i, d) => SidesKeep(db, db.reservations[d := i], db.detected, db.declared);
      case Handout(i) => MarkRunningKeeps(db, i);
      case Report(w, i, state, reason) => ReportKeeps(db, w, i, state, reason, e.now);
      case Cancel(i, reason) => CancelKeeps(db, i, reason, e.now);
      case Unreserve(i) => SidesKeep(db, Transactions.Unreserve(db, i).reservations, db.detected, db.declared);
      case Kill(i, reason, finalize) => KillKeeps(db, i, reason, finalize, e.now);
      case TakeKills(w) => TakeKillsKeeps(db, w, e.now);
      case Sweep(a) => SweepKeeps(db, a, e.now);
      case Beat(w, running, retain) => BeatKeeps(db, w, running, retain, e.now);
      case Ceiling(d, c) => CeilingKeeps(db, d, if c < 0 then 0 else c);
      case Recover(w, p) => RecoverKeeps(db, w, p, e.now);
      case Fault(d, detail) => FaultKeeps(db, d, detail);
      case Retire(d) => RetireKeeps(db, d);
      case Relabel(d, isDetected, labels) =>
        SidesKeep(db, db.reservations, db.detected[d := labels], db.declared);
        SidesKeep(db, db.reservations, db.detected, db.declared[d := labels]);
    }
  }

  lemma KeyedStays(db: Db, e: Event, d: string)
    requires Sound(db) && PlainHost(e)
    ensures Keyed(Apply(db, e), d)
  {
    hide Transactions.Assign, MarkRunning, Transactions.Report, CancelQueued, RequestKill, Transactions.TakeKills;
    hide Transactions.Sweep, Heartbeat, Upsert, SetCeiling, AutoRecover, SetDeviceState, ClearDevice, RetireDevice, Queue.Submit;
    assert Keyed(db, d);
    hide Valid;
    match e.op {
      case Submit(id, r, q, seen) => SubmitKeeps(db, seen, q, id, r, e.now);
      case Register(host, boot, names) =>
        UpsertKeeps(db, host, boot, DeviceIds(host, names), e.now);
        if d in DeviceIds(host, names) { IdsBelongToHost(host, names, d); }
        if host != "" { assert Registered(db, Apply(db, e), host, DeviceIds(host, names), d); }
      case Clear(x) =>
        ClearKeeps(db, x);
        assert d != x ==> DeviceKept(db, Apply(db, e), d);
      case _ =>
        StepKeeps(db, e);
        assert DeviceKept(db, Apply(db, e), d);
    }
  }

  lemma StepIsSound(db: Db, e: Event)
    requires Sound(db) && PlainHost(e)
    ensures Sound(Apply(db, e))
  {
    PlainIsSafe(db, e);
    StepKeepsValidIff(db, e);
    forall d ensures Keyed(Apply(db, e), d) { KeyedStays(db, e, d); }
  }

  lemma {:induction false} RunIsSound(db: Db, es: Run, n: nat)
    requires Sound(db) && (forall i :: 0 <= i < |es| ==> PlainHost(es[i])) && n <= |es|
    ensures Sound(After(db, es, n))
  {
    hide Apply;
    if n > 0 {
      RunIsSound(db, es, n - 1);
      StepIsSound(After(db, es, n - 1), es[n - 1]);
    }
  }

  lemma EmptyIsSound()
    ensures Sound(EMPTY_DB)
  {
    EmptyIsValid();
  }

  /** Exclusivity over every run that starts with empty tables. */
  lemma RunIsExclusive(es: Run, n: nat)
    requires (forall i :: 0 <= i < |es| ==> PlainHost(es[i])) && n <= |es|
    ensures var db := After(EMPTY_DB, es, n);
            && (forall k, l :: k in db.leases && l in db.leases && db.leases[k].live && db.leases[l].live
                               && db.leases[k].device == db.leases[l].device
                               ==> k == l)
            && (forall d :: d in db.devices && db.devices[d].state.Ready? ==> !Leased(db, d))
            && (forall d :: d in db.devices && db.devices[d].state.Busy? ==> Leased(db, d))
            && (forall j :: Active(db, j) ==> exists l :: HeldBy(db, l, j) && db.leases[l].device == db.jobs[j].device)
            && (forall l :: l in db.leases && db.leases[l].live ==> LeaseHasJob(db, l))
            && (forall i, j :: Active(db, i) && Active(db, j) && db.jobs[i].device == db.jobs[j].device ==> i == j)
  {
    var db := After(EMPTY_DB, es, n);
    EmptyIsValid();
    RunIsSound(EMPTY_DB, es, n);
    ValidIsExclusive(db);
    forall k, l | k in db.leases && l in db.leases && db.leases[k].live && db.leases[l].live
                  && db.leases[k].device == db.leases[l].device ensures k == l { assert Distinct(db, k, l); }
    forall d | d in db.devices ensures (db.devices[d].state.Ready? ==> !Leased(db, d)) && (db.devices[d].state.Busy? ==> Leased(db, d)) {
      assert DeviceOk(db, d);
    }
    forall j | Active(db, j) ensures exists l :: HeldBy(db, l, j) && db.leases[l].device == db.jobs[j].device { var l := LeaseOf(db, j); }
    forall l | l in db.leases && db.leases[l].live ensures LeaseHasJob(db, l) { assert LeaseOk(db, l); }
  }

  /** Every state of the run from empty tables up to the n-th meets the invariant. */
  ghost predicate AlwaysValid(es: Run, n: nat)
    requires n <= |es|
  {
    forall i :: 0 <= i <= n ==> Valid(After(EMPTY_DB, es, i))
  }

  /** Each of the first n steps is safe where it is taken. */
  ghost predicate AlwaysSafe(es: Run, n: nat)
    requires n <= |es|
  {
    forall i :: 0 <= i < n ==> Safe(After(EMPTY_DB, es, i), es[i])
  }

  /** The exact condition for exclusivity over a run. */
  lemma {:induction false} RunIsValidIff(es: Run, n: nat)
    requires n <= |es|
    ensures AlwaysValid(es, n) <==> AlwaysSafe(es, n)
  {
    hide After, Apply, Valid, Safe;
    if AlwaysValid(es, n) {
      forall i | 0 <= i < n ensures Safe(After(EMPTY_DB, es, i), es[i]) { NextIsValidIff(es, i); }
    }
    if AlwaysSafe(es, n) {
      forall i | 0 <= i <= n ensures Valid(After(EMPTY_DB, es, i)) { SafeRunIsValid(es, i); }
    }
  }

  lemma NextIsValidIff(es: Run, i: nat)
    requires i < |es| && Valid(After(EMPTY_DB, es, i))
    ensures Valid(After(EMPTY_DB, es, i + 1)) <==> Safe(After(EMPTY_DB, es, i), es[i])
  {
    hide Apply, Valid, Safe;
    StepKeepsValidIff(After(EMPTY_DB, es, i), es[i]);
  }

  lemma {:induction false} SafeRunIsValid(es: Run, n: nat)
    requires n <= |es| && forall i :: 0 <= i < n ==> Safe(After(EMPTY_DB, es, i), es[i])
    ensures Valid(After(EMPTY_DB, es, n))
  {
    hide Apply, Valid, Safe;
    if n == 0 {
      EmptyIsValid();
    } else {
      SafeRunIsValid(es, n - 1);
      NextIsValidIff(es, n - 1);
    }
  }

  // ----- Jobs keep their place in line

  /** A job never goes back into the queue, and a finished one never changes state. */
  lemma {:induction false} NeverRequeued(db: Db, es: Run, m: nat, n: nat, j: string)
    requires m <= n <= |es| && j in After(db, es, m).jobs
    ensures j in After(db, es, n).jobs && JobLater(After(db, es, m).jobs[j], After(db, es, n).jobs[j])
  {
    hide Apply;
    if m < n {
      NeverRequeued(db, es, m, n - 1, j);
      StepKeepsJobs(After(db, es, n - 1), es[n - 1], j);
    }
  }

  /** Rows are numbered in order of insertion, and every stored selector parses to its own text. */
  ghost predicate TicketOk(db: Db, j: string) {
    j in db.jobs ==>
      && db.jobs[j].row < db.nextRow
      && (db.jobs[j].selector != "" ==>
            && Selector.Parse(db.jobs[j].selector).Ok?
            && Selector.Print(Selector.Parse(db.jobs[j].selector).value) == db.jobs[j].selector)
      && (db.jobs[j].state.Queued? ==> (db.jobs[j].selector != "" <==> db.jobs[j].device == ""))
  }

  ghost predicate Ticketed(db: Db) {
    Queue.RowsDistinct(db) && forall j :: TicketOk(db, j)
  }

  lemma SubmitKeepsTicketed(db: Db, seen: Queue.Seen, q: Selector.Quantities, id: string, r: Queue.Request, now: int)
    requires Ticketed(db)
    ensures Ticketed(Queue.Submit(db, seen, q, id, r, now))
  {
    var e := Queue.Submit(db, seen, q, id, r, now);
    SubmittedText(db, seen, q, r, now);
    SubmitAdds(db, seen, q, id, r, now);
    assert e != db ==> e.jobs[id] == Queue.Submitted(db, seen, q, r, now).job;
    hide Queue.Submit, Queue.Submitted;
    forall j ensures TicketOk(e, j) { assert TicketOk(db, j); }
    forall i, j | i in e.jobs && j in e.jobs && e.jobs[i].row == e.jobs[j].row ensures i == j {
      assert TicketOk(db, i) && TicketOk(db, j);
    }
  }

  lemma SubmittedText(db: Db, seen: Queue.Seen, q: Selector.Quantities, r: Queue.Request, now: int)
    ensures var s := Queue.Submitted(db, seen, q, r, now);
            s.Recorded? ==>
              && (s.job.selector != "" <==> s.job.device == "")
              && (s.job.selector != "" ==>
                    && Selector.Parse(s.job.selector).Ok?
                    && Selector.Print(Selector.Parse(s.job.selector).value) == s.job.selector)
  {
    Selector.PrintParseRoundTrip(r.selector);
    if Selector.Parse(r.selector).Ok? { Selector.PrintIsNotEmpty(r.selector); }
    hide Selector.Parse, Selector.Print;
  }

  lemma StepKeepsTicketed(db: Db, e: Event)
    requires Ticketed(db)
    ensures Ticketed(Apply(db, e))
  {
    if e.op.Submit? {
      SubmitKeepsTicketed(db, e.op.seen, e.op.quantities, e.op.id, e.op.request, e.now);
    } else {
      StepLeaves(db, e);
      KeptIsTicketed(db, Apply(db, e));
    }
  }

  lemma KeptIsTicketed(db: Db, e: Db)
    requires Ticketed(db) && JobsKept(db, e)
    ensures Ticketed(e)
  {
    forall j ensures TicketOk(e, j) {
      assert JobKept(db, e, j) && TicketOk(db, j);
    }
    forall i, j | i in e.jobs && j in e.jobs && e.jobs[i].row == e.jobs[j].row ensures i == j {
      assert JobKept(db, e, i) && JobKept(db, e, j);
    }
  }

  lemma {:induction false} RunIsTicketed(db: Db, es: Run, n: nat)
    requires Ticketed(db) && n <= |es|
    ensures Ticketed(After(db, es, n))
  {
    hide Apply;
    if n > 0 {
      RunIsTicketed(db, es, n - 1);
      StepKeepsTicketed(After(db, es, n - 1), es[n - 1]);
    }
  }
}
