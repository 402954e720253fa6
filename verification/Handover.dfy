/**
 What runs remember: a device goes from one job to the next only on evidence
 that the first is over; a quarantine is lifted only by what answers it; a
 kill is offered often enough and not too often.
 */
module Handover {
  import opened Model
  import opened Transactions
  import opened Invariant
  import opened Effects
  import opened Ownership
  import opened Occupancy
  import opened Runs
  import Queue

  // ----- Quarantine reasons

  /** While a device is unhealthy its reason changes only to fault, and only a clear of that device lifts a fault. */
  lemma QuarantineIsOneWay(db: Db, e: Event, d: string)
    requires d in db.devices
    ensures d !in Apply(db, e).devices ==> e.op == Retire(d)
    ensures d in Apply(db, e).devices ==> ReasonKept(db.devices[d], Apply(db, e).devices[d])
    ensures d in Apply(db, e).devices && Faulty(db.devices[d]) && e.op != Clear(d) ==> Faulty(Apply(db, e).devices[d])
  {
    hide Transactions.Assign, MarkRunning, Transactions.Report, CancelQueued, RequestKill, Transactions.TakeKills;
    hide Transactions.Sweep, Heartbeat, Upsert, SetCeiling, AutoRecover, SetDeviceState, ClearDevice, RetireDevice, Queue.Submit;
    hide JobsKept, PlacesNone, ReadiesNone, RetiresNone, StampsKept, FlagsKept, LeasesKept, WorkersKept, HistoryKept;
    var x := Apply(db, e);
    match e.op {
      case Submit(id, r, q, seen) => SubmitKeeps(db, seen, q, id, r, e.now);
      case Register(host, boot, names) =>
        UpsertKeeps(db, host, boot, DeviceIds(host, names), e.now);
        assert host != "" ==> Registered(db, x, host, DeviceIds(host, names), d);
      case Clear(y) =>
        ClearKeeps(db, y);
        assert y != d ==> DeviceKept(db, x, d);
      case Retire(y) =>
        RetireKeeps(db, y);
        RetireRemovesOne(db, y);
        assert DeviceKept(db, x, d);
      case _ =>
        StepKeeps(db, e);
        AllStay(db, x, d);
        assert DeviceKept(db, x, d);
    }
  }

  lemma AllStay(db: Db, e: Db, d: string)
    requires d in db.devices && RetiresNone(db, e)
    ensures d in e.devices
  {
  }

  lemma RetireRemovesOne(db: Db, y: string)
    ensures db.devices.Keys - {y} <= RetireDevice(db, y).devices.Keys
  {
  }

  /** A fault survives every run in which nobody clears or retires the device. */
  lemma {:induction false} FaultSurvives(db: Db, es: Run, n: nat, d: string)
    requires n <= |es| && d in db.devices && Faulty(db.devices[d])
    requires forall i :: 0 <= i < n ==> es[i].op != Clear(d) && es[i].op != Retire(d)
    ensures d in After(db, es, n).devices && Faulty(After(db, es, n).devices[d])
  {
    hide Apply;
    if n > 0 {
      FaultSurvives(db, es, n - 1, d);
      QuarantineIsOneWay(After(db, es, n - 1), es[n - 1], d);
    }
  }

  /** In every reachable state only an unhealthy device has a reason, and only a fault has an explanation. */
  lemma ReasonsAreCurrent(es: Run, n: nat, d: string)
    requires (forall i :: 0 <= i < |es| ==> PlainHost(es[i])) && n <= |es| && d in After(EMPTY_DB, es, n).devices
    ensures var v := After(EMPTY_DB, es, n).devices[d];
            (!v.state.Unhealthy? ==> v.reason == NoReason && v.detail == "") && (v.detail != "" ==> Faulty(v))
  {
    hide Apply;
    EmptyIsValid();
    RunIsSound(EMPTY_DB, es, n);
    assert DeviceOk(After(EMPTY_DB, es, n), d);
  }

  // ----- What never makes a device schedulable

  /** No run of sweeps, scheduling, submissions, cancels, kills and faults adds a device to the pool. */
  lemma {:induction false} QuietRunFreesNothing(db: Db, es: Run, n: nat)
    requires n <= |es| && forall i :: 0 <= i < n ==> Quiet(es[i].op)
    ensures ReadiesNone(db, After(db, es, n))
  {
    hide Apply;
    if n > 0 {
      QuietRunFreesNothing(db, es, n - 1);
      StepLeaves(After(db, es, n - 1), es[n - 1]);
    }
  }

  // ----- Evidence between leases

  /** The step, taken in db, tells the controller that job j no longer holds device d. */
  ghost predicate Evidence(db: Db, e: Event, j: string, d: string) {
    match e.op
    case Report(w, i, state, _) => i == j && Owns(db, w, j) && state.Terminal()
    case Clear(x) => x == d
    case Register(host, _, _) => host == HostOf(d)
    case Recover(w, p) => w == HostOf(d) && p.Proves()
    case Beat(w, running, _) => w == HostOf(d) && j !in running && j in db.jobs && KillStands(db, j)
    case _ => false
  }

  lemma OccupiedStep(db: Db, e: Event, j: string, d: string)
    requires Sound(db) && PlainHost(e) && Occupied(db, j, d) && !Evidence(db, e, j, d)
    ensures Occupied(Apply(db, e), j, d)
  {
    hide Queue.Submit, Transactions.Assign, Sound, PlainHost, Explained, Evidence;
    var x := Apply(db, e);
    if e.op.Assign? {
      AssignElsewhere(db, j, d, e.op.job, e.op.device, e.now);
    } else if e.op.Submit? {
      SubmitOccupied(db, e, j, d);
    } else {
      StepLeaves(db, e);
      ExplainedStep(db, e, j, d);
      hide Apply;
      PlacementStays(db, x, j, d);
    }
  }

  lemma SubmitOccupied(db: Db, e: Event, j: string, d: string)
    requires Occupied(db, j, d) && e.op.Submit?
    ensures Occupied(Apply(db, e), j, d)
  {
    hide Queue.Submit, Occupied;
    SubmitAdds(db, e.op.seen, e.op.quantities, e.op.id, e.op.request, e.now);
    var x := Apply(db, e);
    if x != db {
      var job :| Added(db, x, e.op.id, job);
      AddedOccupied(db, x, e.op.id, job, j, d);
    }
  }

  lemma AddedOccupied(db: Db, e: Db, id: string, job: Job, j: string, d: string)
    requires Added(db, e, id, job) && Occupied(db, j, d)
    ensures Occupied(e, j, d)
  {
  }

  lemma SidesExplained(db: Db, r: map<string, string>, detected: map<string, Labels>, declared: map<string, Labels>,
                       j: string, d: string)
    requires Occupied(db, j, d)
    ensures StillExplained(db, j, d)
    ensures StillExplained(db.(reservations := r, detected := detected, declared := declared), j, d)
  {
  }

  lemma ExplainedStep(db: Db, e: Event, j: string, d: string)
    requires Sound(db) && PlainHost(e) && Occupied(db, j, d) && !Evidence(db, e, j, d)
    requires !e.op.Assign? && !e.op.Submit?
    ensures StillExplained(Apply(db, e), j, d)
  {
    hide Valid, StillExplained, Placement, Explained, MarkRunning, Transactions.Report, CancelQueued, RequestKill, Transactions.TakeKills;
    hide Transactions.Sweep, Heartbeat, Upsert, SetCeiling, AutoRecover, SetDeviceState, ClearDevice, RetireDevice;
    SidesExplained(db, map[], map[], map[], j, d);
    match e.op {
      case Report(w, i, state, reason) => ReportExplained(db, j, d, w, i, state, reason, e.now);
      case Kill(i, reason, finalize) => KillExplained(db, j, d, i, reason, finalize, e.now);
      case Sweep(a) => SweepExplained(db, j, d, a, e.now);
      case Beat(w, running, retain) => BeatExplained(db, j, d, w, running, retain, e.now);
      case Register(host, boot, names) =>
        if d in DeviceIds(host, names) { IdsBelongToHost(host, names, d); }
        RegisterExplained(db, j, d, host, boot, DeviceIds(host, names), e.now);
      case Recover(w, p) => RecoverExplained(db, j, d, w, p, e.now);
      case Handout(i) => HandoutExplained(db, j, d, i);
      case Unreserve(i) => SidesExplained(db, Transactions.Unreserve(db, i).reservations, db.detected, db.declared, j, d);
      case Cancel(i, reason) => CancelExplained(db, j, d, i, reason, e.now);
      case TakeKills(w) => TakeKillsExplained(db, j, d, w, e.now);
      case Ceiling(x, c) => CeilingExplained(db, j, d, x, if c < 0 then 0 else c);
      case Fault(x, detail) => FaultExplained(db, j, d, x, detail);
      case Clear(x) => RemovalStepsExplained(db, j, d, x);
      case Retire(x) => RemovalStepsExplained(db, j, d, x);
      case ClearReservations => SidesExplained(db, map[], db.detected, db.declared, j, d);
      case Reserve(i, x) => SidesExplained(db, db.reservations[x := i], db.detected, db.declared, j, d);
      case Relabel(x, isDetected, labels) =>
        SidesExplained(db, db.reservations, db.detected[x := labels], db.declared, j, d);
        SidesExplained(db, db.reservations, db.detected, db.declared[x := labels], j, d);
    }
  }

  /** Where an occupied device stops being so there is evidence. */
  lemma {:induction false} FindEvidence(db: Db, es: Run, m: nat, n: nat, j: string, d: string) returns (x: nat)
    requires Sound(db) && (forall i :: 0 <= i < |es| ==> PlainHost(es[i])) && m <= n <= |es|
    requires Occupied(After(db, es, m), j, d) && !Occupied(After(db, es, n), j, d)
    ensures m <= x < n && Evidence(After(db, es, x), es[x], j, d)
  {
    hide Apply, Evidence, Occupied, Sound;
    x := n - 1;
    if Occupied(After(db, es, x), j, d) {
      RunIsSound(db, es, x);
      if !Evidence(After(db, es, x), es[x], j, d) { OccupiedStep(After(db, es, x), es[x], j, d); }
    } else {
      x := FindEvidence(db, es, m, x, j, d);
    }
  }

  predicate Grants(db: Db, e: Event, j: string, d: string) {
    e.op.Assign? && e.op.job == j && e.op.device == d && AssignOutcomeOf(db, j, d) == Placed
  }

  /**
   Between two leases of one device, to job i and later to job k, the
   controller learnt that i was over: its owner reported it finished, the
   owner registered or presented a proof, the owner's heartbeat left out a job
   whose kill was finalised, or an operator cleared the device.
   */
  lemma EvidenceBetweenLeases(db: Db, es: Run, m: nat, n: nat, i: string, k: string, d: string)
    returns (x: nat)
    requires Sound(db) && (forall y :: 0 <= y < |es| ==> PlainHost(es[y])) && m < n < |es|
    requires Grants(After(db, es, m), es[m], i, d) && Grants(After(db, es, n), es[n], k, d)
    ensures m < x < n && Evidence(After(db, es, x), es[x], i, d)
  {
    hide Apply, After, Sound, Grants, Evidence, Occupied, PlainHost;
    RunIsSound(db, es, m);
    GrantOccupies(db, es, m, i, d);
    OccupiedIsRefused(After(db, es, n), es[n], i, k, d);
    x := FindEvidence(db, es, m + 1, n, i, d);
  }

  lemma GrantOccupies(db: Db, es: Run, m: nat, j: string, d: string)
    requires m < |es| && Sound(After(db, es, m)) && Grants(After(db, es, m), es[m], j, d)
    ensures Occupied(After(db, es, m + 1), j, d)
  {
    AssignOccupies(After(db, es, m), j, d, es[m].now);
  }

  lemma OccupiedIsRefused(db: Db, e: Event, j: string, k: string, d: string)
    ensures Occupied(db, j, d) ==> !Grants(db, e, k, d)
  {
  }

  /** Without evidence about job j, device d stays occupied and out of the pool, whatever else the run does. */
  lemma OccupiedUntilEvidence(es: Run, m: nat, n: nat, j: string, d: string)
    requires (forall i :: 0 <= i < |es| ==> PlainHost(es[i])) && m <= n <= |es| && Occupied(After(EMPTY_DB, es, m), j, d)
    requires forall i :: m <= i < n ==> !Evidence(After(EMPTY_DB, es, i), es[i], j, d)
    ensures var x := After(EMPTY_DB, es, n); Occupied(x, j, d) && (d in x.devices ==> !x.devices[d].state.Ready?)
  {
    hide Apply, Evidence;
    EmptyIsValid();
    if !Occupied(After(EMPTY_DB, es, n), j, d) { var x := FindEvidence(EMPTY_DB, es, m, n, j, d); }
  }

  /** A kill finalised while its device was out of reach leaves the device occupied by the killed job. */
  lemma FinalizedKillOccupies(db: Db, j: string, reason: string, now: int)
    requires Sound(db) && KillOutcomeOf(db, j, true) == Finalized
    ensures Occupied(RequestKill(db, j, reason, true, now), j, db.jobs[j].device)
  {
    var e, d := RequestKill(db, j, reason, true, now), db.jobs[j].device;
    assert Keyed(db, d);
    JobsDevice(db, j);
    forall i | Active(e, i) && e.jobs[i].device == d ensures i == j {
      if Active(db, i) { OneJobPerDevice(db, i, j); }
    }
  }

  lemma KillEventOccupies(db: Db, e: Event, j: string, reason: string)
    requires Sound(db) && e.op == Kill(j, reason, true) && KillOutcomeOf(db, j, true) == Finalized
    ensures j in db.jobs && Occupied(Apply(db, e), j, db.jobs[j].device)
  {
    hide RequestKill, Occupied;
    FinalizedKillOccupies(db, j, reason, e.now);
  }

  /**
   A job killed while its device was out of reach keeps that device out of the
   pool for as long as the controller has no evidence about it: heartbeats
   that still name the job, and everything else, change nothing.
   */
  lemma NamedKillHoldsDevice(es: Run, m: nat, n: nat, j: string, reason: string)
    requires (forall i :: 0 <= i < |es| ==> PlainHost(es[i])) && m < n <= |es|
    requires es[m].op == Kill(j, reason, true) && KillOutcomeOf(After(EMPTY_DB, es, m), j, true) == Finalized
    requires var d := After(EMPTY_DB, es, m).jobs[j].device;
             forall i :: m < i < n ==> !Evidence(After(EMPTY_DB, es, i), es[i], j, d)
    ensures var d, x := After(EMPTY_DB, es, m).jobs[j].device, After(EMPTY_DB, es, n);
            Occupied(x, j, d) && (d in x.devices ==> !x.devices[d].state.Ready?)
  {
    hide Apply, PlainHost;
    var db := After(EMPTY_DB, es, m);
    EmptyIsValid();
    RunIsSound(EMPTY_DB, es, m);
    KillEventOccupies(db, es[m], j, reason);
    hide Evidence, Occupied, KillOutcomeOf;
    OccupiedUntilEvidence(es, m + 1, n, j, db.jobs[j].device);
  }
}
