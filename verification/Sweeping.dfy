/**
 The sweep and what is said about it: the startup window is not an amnesty, a
 sweep repeated changes nothing, and each loss is announced exactly once.
 */
module Sweeping {
  import opened Model
  import opened Transactions
  import opened Invariant
  import opened Effects

  // ----- The startup window

  /** Inside the window a sweep ends no job and releases no lease. */
  lemma HoldOffSparesAll(db: Db, a: SweepArgs, now: int)
    requires !Judging(a, now)
    ensures Sweep(db, a, now).jobs == db.jobs && Sweep(db, a, now).leases == db.leases
    ensures forall d :: d in db.devices ==>
              || Sweep(db, a, now).devices[d] == db.devices[d]
              || (Sweep(db, a, now).devices[d].state.Unknown? && (db.devices[d].state.Ready? || db.devices[d].state.Busy?))
  {
  }

  /** What a judging sweep goes by is the same before and after a sweep inside the window. */
  lemma SameGrounds(db: Db, a: SweepArgs, t: int, now: int)
    requires t < a.holdOffUntil <= now
    ensures var e := Sweep(db, a, t);
            && (forall d, limit :: Silent(e, d, limit, now) <==> Silent(db, d, limit, now))
            && (forall j :: Reaped(e, a, now, j) <==> Reaped(db, a, now, j))
            && (forall l :: Stale(e, a, now, l) <==> Stale(db, a, now, l))
  {
    HoldOffSparesAll(db, a, t);
    var e := Sweep(db, a, t);
    assert forall d, limit :: Silent(e, d, limit, now) <==> Silent(db, d, limit, now);
    assert forall j :: Reaped(e, a, now, j) <==> Reaped(db, a, now, j);
  }

  lemma VerdictOnDevice(db: Db, a: SweepArgs, t: int, now: int, d: string)
    requires t < a.holdOffUntil <= now && d in db.devices
    ensures SweptDevice(Sweep(db, a, t), a, now, d) == SweptDevice(db, a, now, d)
  {
    HoldOffSparesAll(db, a, t);
    SameGrounds(db, a, t, now);
    hide Stale, Reaped;
  }

  lemma VerdictOnJob(db: Db, a: SweepArgs, t: int, now: int, j: string)
    requires t < a.holdOffUntil <= now && j in db.jobs
    ensures SweptJob(Sweep(db, a, t), a, now, j) == SweptJob(db, a, now, j)
  {
    HoldOffSparesAll(db, a, t);
    SameGrounds(db, a, t, now);
    hide Stale, Reaped;
  }

  lemma VerdictOnLease(db: Db, a: SweepArgs, t: int, now: int, l: nat)
    requires t < a.holdOffUntil <= now && l in db.leases
    ensures SweptLease(Sweep(db, a, t), a, now, l) == SweptLease(db, a, now, l)
  {
    HoldOffSparesAll(db, a, t);
    SameGrounds(db, a, t, now);
    hide Stale, Reaped;
  }

  lemma SameDeviceVerdicts(db: Db, a: SweepArgs, t: int, now: int)
    requires t < a.holdOffUntil <= now
    ensures Sweep(Sweep(db, a, t), a, now).devices == Sweep(db, a, now).devices
  {
    hide SweptDevice, SweptJob, SweptLease, Judging;
    forall d | d in db.devices ensures SweptDevice(Sweep(db, a, t), a, now, d) == SweptDevice(db, a, now, d) {
      VerdictOnDevice(db, a, t, now, d);
    }
  }

  lemma SameVerdict(db: Db, a: SweepArgs, t: int, now: int)
    requires t < a.holdOffUntil <= now
    ensures Sweep(Sweep(db, a, t), a, now) == Sweep(db, a, now)
  {
    hide SweptDevice, SweptJob, SweptLease, Judging;
    var e := Sweep(db, a, t);
    SameDeviceVerdicts(db, a, t, now);
    forall j | j in db.jobs ensures SweptJob(e, a, now, j) == SweptJob(db, a, now, j) { VerdictOnJob(db, a, t, now, j); }
    forall l | l in db.leases ensures SweptLease(e, a, now, l) == SweptLease(db, a, now, l) { VerdictOnLease(db, a, t, now, l); }
  }

  /** Any number of sweeps inside the window. */
  function HeldOff(db: Db, a: SweepArgs, times: seq<int>): Db
    decreases |times|
  {
    if times == [] then db else HeldOff(Sweep(db, a, times[0]), a, times[1..])
  }

  /** The first judging sweep after the window reaches the verdict it would have reached without it. */
  lemma {:induction false} HoldOffIsNoAmnesty(db: Db, a: SweepArgs, times: seq<int>, now: int)
    requires (forall i :: 0 <= i < |times| ==> !Judging(a, times[i])) && Judging(a, now)
    ensures HeldOff(db, a, times).jobs == db.jobs && HeldOff(db, a, times).leases == db.leases
    ensures Sweep(HeldOff(db, a, times), a, now) == Sweep(db, a, now)
    decreases |times|
  {
    if times != [] {
      HoldOffSparesAll(db, a, times[0]);
      SameVerdict(db, a, times[0], now);
      hide Sweep;
      HoldOffIsNoAmnesty(Sweep(db, a, times[0]), a, times[1..], now);
    }
  }

  // ----- Repetition

  lemma NothingLeft(db: Db, a: SweepArgs, now: int)
    ensures forall j :: !Reaped(Sweep(db, a, now), a, now, j)
    ensures forall l :: !Stale(Sweep(db, a, now), a, now, l)
  {
  }

  /** A sweep repeated at the same time changes nothing. */
  lemma SweepIsIdempotent(db: Db, a: SweepArgs, now: int)
    ensures Sweep(Sweep(db, a, now), a, now) == Sweep(db, a, now)
  {
    hide Stale, Reaped, SweptDevice;
    var e := Sweep(db, a, now);
    NothingLeft(db, a, now);
    forall d | d in e.devices ensures SweptDevice(e, a, now, d) == e.devices[d] { SettledDevice(db, a, now, d); }
    var f := Sweep(e, a, now);
    assert f.jobs == e.jobs;
    assert f.leases == e.leases;
    assert f.devices == e.devices;
  }

  lemma SettledDevice(db: Db, a: SweepArgs, now: int, d: string)
    requires d in db.devices
    ensures SweptDevice(Sweep(db, a, now), a, now, d) == Sweep(db, a, now).devices[d]
  {
    hide Stale, Reaped;
    NothingLeft(db, a, now);
    DemotedOnce(db, a, now, d);
    hide Sweep, Demoted;
  }

  lemma DemotedOnce(db: Db, a: SweepArgs, now: int, d: string)
    requires d in db.devices
    ensures Demoted(Sweep(db, a, now), a, now, d) == Sweep(db, a, now).devices[d]
  {
    var e := Sweep(db, a, now);
    assert forall limit :: Silent(e, d, limit, now) <==> Silent(db, d, limit, now);
    hide LapsedOn;
  }

  // ----- What a sweep reports

  /** What an entry of LeasesExpired identifies: the job, or the lease when it had none. */
  datatype Expired = OfJob(job: string) | OfLease(lease: nat)

  datatype SweepResult = SweepResult(
    devicesUnknown: seq<string>, devicesUnhealthy: seq<string>, jobsLost: seq<string>, leasesExpired: seq<Expired>)

  predicate NewlyUnknown(db: Db, a: SweepArgs, now: int, d: string) {
    && d in db.devices && !WrittenOff(db, a, now, d) && Silent(db, d, a.grace, now)
    && (db.devices[d].state.Ready? || db.devices[d].state.Busy?)
  }

  predicate NewlyWrittenOff(db: Db, a: SweepArgs, now: int, d: string) {
    d in db.devices && WrittenOff(db, a, now, d) && !db.devices[d].state.Unhealthy?
  }

  predicate Expires(db: Db, a: SweepArgs, now: int, j: string) {
    Active(db, j) && !Reaped(db, a, now, j) && LapsedFor(db, a, now, j)
  }

  predicate Loose(db: Db, a: SweepArgs, now: int, l: nat) {
    l in db.leases && Stale(db, a, now, l) && db.leases[l].job == ""
  }

  function ExpiredSet(db: Db, a: SweepArgs, now: int): set<Expired> {
    (set j | j in db.jobs && Expires(db, a, now, j) :: OfJob(j)) + (set l | l in db.leases && Loose(db, a, now, l) :: OfLease(l))
  }

  /** res lists what the sweep did, each thing once. */
  ghost predicate Reports(db: Db, a: SweepArgs, now: int, res: SweepResult) {
    && multiset(res.devicesUnknown) == multiset(set d | d in db.devices && NewlyUnknown(db, a, now, d))
    && multiset(res.devicesUnhealthy) == multiset(set d | d in db.devices && NewlyWrittenOff(db, a, now, d))
    && multiset(res.jobsLost) == multiset(set j | j in db.jobs && Reaped(db, a, now, j))
    && multiset(res.leasesExpired) == multiset(ExpiredSet(db, a, now))
  }

  // ----- Announcements (internal/cli/serve.go)

  datatype Notice =
    | WorkerGone(device: string)
    | DeviceOut(device: string, reason: Reason)
    | JobLost(job: string)
    | LeaseLapsed(who: Expired, device: string)

  predicate TakesOut(n: Notice, d: string) {
    (n.WorkerGone? || n.DeviceOut?) && n.device == d
  }

  /** How many notices of out say device d left the pool. */
  function OutCount(out: seq<Notice>, d: string): nat {
    if out == [] then 0
    else OutCount(out[..|out| - 1], d) + (if TakesOut(out[|out| - 1], d) then 1 else 0)
  }

  function LostCount(out: seq<Notice>, j: string): nat {
    if out == [] then 0
    else LostCount(out[..|out| - 1], j) + (if out[|out| - 1] == JobLost(j) then 1 else 0)
  }

  function LapseCount(out: seq<Notice>, x: Expired): nat {
    if out == [] then 0
    else LapseCount(out[..|out| - 1], x) + (if out[|out| - 1].LeaseLapsed? && out[|out| - 1].who == x then 1 else 0)
  }

  lemma CountsAppend(out: seq<Notice>, n: Notice)
    ensures forall d :: OutCount(out + [n], d) == OutCount(out, d) + (if TakesOut(n, d) then 1 else 0)
    ensures forall j :: LostCount(out + [n], j) == LostCount(out, j) + (if n == JobLost(j) then 1 else 0)
    ensures forall x :: LapseCount(out + [n], x) == LapseCount(out, x) + (if n.LeaseLapsed? && n.who == x then 1 else 0)
  {
    assert (out + [n])[..|out|] == out;
  }

  function ReasonOf(reasons: map<string, Reason>, d: string): Reason {
    if d in reasons then reasons[d] else NoReason
  }

  function DeviceOf(leaseDevices: map<Expired, string>, x: Expired): string {
    if x in leaseDevices then leaseDevices[x] else ""
  }

  /** One of the expired leases quarantined d. */
  predicate LapseTakesOut(expired: seq<Expired>, reasons: map<string, Reason>, leaseDevices: map<Expired, string>, d: string) {
    && d != "" && ReasonOf(reasons, d) == LeaseExpired
    && exists x :: x in expired && DeviceOf(leaseDevices, x) == d
  }

  ghost predicate Announces(res: SweepResult, reasons: map<string, Reason>, leaseDevices: map<Expired, string>, out: seq<Notice>) {
    && (forall d :: OutCount(out, d) == multiset(res.devicesUnhealthy)[d]
          + (if d !in res.devicesUnhealthy && LapseTakesOut(res.leasesExpired, reasons, leaseDevices, d) then 1 else 0))
    && (forall j :: LostCount(out, j) == multiset(res.jobsLost)[j])
    && (forall x :: LapseCount(out, x) == multiset(res.leasesExpired)[x])
  }

  lemma MultisetPrefix<T>(s: seq<T>, i: nat)
    requires i < |s|
    ensures multiset(s[..i + 1]) == multiset(s[..i]) + multiset{s[i]}
  {
    assert s[..i + 1] == s[..i] + [s[i]];
  }

  /** sweepEvents: devices written off, jobs reaped, then leases expired and the devices they took with them. */
  method SweepEvents(res: SweepResult, reasons: map<string, Reason>, leaseDevices: map<Expired, string>)
    returns (out: seq<Notice>)
    ensures Announces(res, reasons, leaseDevices, out)
    ensures forall n :: n in out && n.WorkerGone? ==> ReasonOf(reasons, n.device) == WorkerLost
    ensures forall n :: n in out && n.DeviceOut? ==> n.reason == ReasonOf(reasons, n.device) && n.reason != WorkerLost
    ensures forall n :: n in out && n.LeaseLapsed? ==> n.device == DeviceOf(leaseDevices, n.who)
  {
    hide OutCount, LostCount, LapseCount, LapseTakesOut;
    var announced;
    out, announced := AddUnhealthy(res, reasons);
    out := AddJobsLost(res, reasons, out);
    out := AddLapses(res, reasons, leaseDevices, announced, out);
  }

  /** The devices of ds have been announced, each for its reason, and nothing else has. */
  ghost predicate SaidOut(ds: seq<string>, reasons: map<string, Reason>, out: seq<Notice>, announced: set<string>) {
    && (forall d :: d in announced <==> d in ds)
    && (forall d :: OutCount(out, d) == multiset(ds)[d])
    && (forall j :: LostCount(out, j) == 0)
    && (forall x :: LapseCount(out, x) == 0)
    && forall n :: n in out ==>
         && (n.WorkerGone? || n.DeviceOut?)
         && (n.WorkerGone? ==> ReasonOf(reasons, n.device) == WorkerLost)
         && (n.DeviceOut? ==> n.reason == ReasonOf(reasons, n.device) && n.reason != WorkerLost)
  }

  function OutNotice(reasons: map<string, Reason>, d: string): Notice {
    if ReasonOf(reasons, d) == WorkerLost then WorkerGone(d) else DeviceOut(d, ReasonOf(reasons, d))
  }

  lemma SaidOutNone(reasons: map<string, Reason>)
    ensures SaidOut([], reasons, [], {})
  {
  }

  lemma SaidOutNext(ds: seq<string>, reasons: map<string, Reason>, out: seq<Notice>, announced: set<string>, d: string)
    requires SaidOut(ds, reasons, out, announced)
    ensures SaidOut(ds + [d], reasons, out + [OutNotice(reasons, d)], announced + {d})
  {
    CountsAppend(out, OutNotice(reasons, d));
    hide OutCount, LostCount, LapseCount;
  }

  /** The first loop: every device written off, with the reason it is out for. */
  method AddUnhealthy(res: SweepResult, reasons: map<string, Reason>) returns (out: seq<Notice>, announced: set<string>)
    ensures SaidOut(res.devicesUnhealthy, reasons, out, announced)
  {
    hide SaidOut;
    out, announced := [], {};
    SaidOutNone(reasons);
    for i := 0 to |res.devicesUnhealthy|
      invariant SaidOut(res.devicesUnhealthy[..i], reasons, out, announced)
    {
      var d := res.devicesUnhealthy[i];
      var reason := ReasonOf(reasons, d);
      var notice := if reason == WorkerLost then WorkerGone(d) else DeviceOut(d, reason);
      SaidOutNext(res.devicesUnhealthy[..i], reasons, out, announced, d);
      assert res.devicesUnhealthy[..i + 1] == res.devicesUnhealthy[..i] + [d];
      announced := announced + {d};
      out := out + [notice];
    }
    assert res.devicesUnhealthy[..|res.devicesUnhealthy|] == res.devicesUnhealthy;
  }

  method AddJobsLost(res: SweepResult, reasons: map<string, Reason>, notices: seq<Notice>) returns (out: seq<Notice>)
    requires forall j :: LostCount(notices, j) == 0
    ensures forall d :: OutCount(out, d) == OutCount(notices, d)
    ensures forall j :: LostCount(out, j) == multiset(res.jobsLost)[j]
    ensures forall x :: LapseCount(out, x) == LapseCount(notices, x)
    ensures forall n :: n in out ==> n in notices || n.JobLost?
  {
    out := notices;
    for i := 0 to |res.jobsLost|
      invariant forall d :: OutCount(out, d) == OutCount(notices, d)
      invariant forall j :: LostCount(out, j) == multiset(res.jobsLost[..i])[j]
      invariant forall x :: LapseCount(out, x) == LapseCount(notices, x)
      invariant forall n :: n in out ==> n in notices || n.JobLost?
    {
      CountsAppend(out, JobLost(res.jobsLost[i]));
      MultisetPrefix(res.jobsLost, i);
      out := out + [JobLost(res.jobsLost[i])];
    }
    assert res.jobsLost[..|res.jobsLost|] == res.jobsLost;
  }

  predicate Mentions(expired: seq<Expired>, leaseDevices: map<Expired, string>, d: string) {
    d != "" && exists x :: x in expired && DeviceOf(leaseDevices, x) == d
  }

  lemma LapsePrefix(expired: seq<Expired>, i: nat, reasons: map<string, Reason>, leaseDevices: map<Expired, string>)
    requires i < |expired|
    ensures var device := DeviceOf(leaseDevices, expired[i]);
            forall d ::
              && (Mentions(expired[..i + 1], leaseDevices, d) <==> Mentions(expired[..i], leaseDevices, d) || (d == device && d != ""))
              && (LapseTakesOut(expired[..i], reasons, leaseDevices, d) <==>
                  Mentions(expired[..i], leaseDevices, d) && ReasonOf(reasons, d) == LeaseExpired)
              && (LapseTakesOut(expired[..i + 1], reasons, leaseDevices, d) <==>
                  Mentions(expired[..i + 1], leaseDevices, d) && ReasonOf(reasons, d) == LeaseExpired)
  {
    assert expired[..i + 1] == expired[..i] + [expired[i]];
    assert expired[i] in expired[..i + 1];
  }

  /** The leases of xs have been announced, and their devices where nothing had said so before. */
  ghost predicate SaidLapsed(xs: seq<Expired>, reasons: map<string, Reason>, leaseDevices: map<Expired, string>,
                             before: set<string>, notices: seq<Notice>, out: seq<Notice>, announced: set<string>) {
    && (forall d :: d in announced <==> d in before || Mentions(xs, leaseDevices, d))
    && (forall d :: OutCount(out, d) == OutCount(notices, d)
                      + (if d !in before && LapseTakesOut(xs, reasons, leaseDevices, d) then 1 else 0))
    && (forall j :: LostCount(out, j) == LostCount(notices, j))
    && (forall x :: LapseCount(out, x) == LapseCount(notices, x) + multiset(xs)[x])
    && forall n :: n in out ==>
         || n in notices
         || (n.LeaseLapsed? && n.device == DeviceOf(leaseDevices, n.who))
         || (n.DeviceOut? && n.reason == LeaseExpired && ReasonOf(reasons, n.device) == LeaseExpired)
  }

  lemma SaidLapsedNone(reasons: map<string, Reason>, leaseDevices: map<Expired, string>, before: set<string>, notices: seq<Notice>)
    ensures SaidLapsed([], reasons, leaseDevices, before, notices, notices, before)
  {
  }

  /** After one more lease, as AddLapse leaves the notices. */
  lemma SaidLapsedNext(xs: seq<Expired>, i: nat, reasons: map<string, Reason>, leaseDevices: map<Expired, string>, before: set<string>,
                       notices: seq<Notice>, mid: seq<Notice>, said: set<string>, out: seq<Notice>, announced: set<string>)
    requires i < |xs| && SaidLapsed(xs[..i], reasons, leaseDevices, before, notices, mid, said)
    requires SaidLapsed([xs[i]], reasons, leaseDevices, said, mid, out, announced)
    ensures SaidLapsed(xs[..i + 1], reasons, leaseDevices, before, notices, out, announced)
  {
    MultisetPrefix(xs, i);
    LapsePrefix(xs, i, reasons, leaseDevices);
    LapsePrefix([xs[i]], 0, reasons, leaseDevices);
    assert [xs[i]][..1] == [xs[i]] && [xs[i]][..0] == [];
    hide LapseTakesOut, OutCount, LostCount, LapseCount;
  }

  /** One expired lease: said once, and its device once if nothing said so before. */
  method AddLapse(x: Expired, reasons: map<string, Reason>, leaseDevices: map<Expired, string>,
                  before: set<string>, notices: seq<Notice>)
    returns (out: seq<Notice>, announced: set<string>)
    ensures SaidLapsed([x], reasons, leaseDevices, before, notices, out, announced)
  {
    var device := DeviceOf(leaseDevices, x);
    CountsAppend(notices, LeaseLapsed(x, device));
    CountsAppend(notices + [LeaseLapsed(x, device)], DeviceOut(device, LeaseExpired));
    LapsePrefix([x], 0, reasons, leaseDevices);
    assert [x][..1] == [x] && [x][..0] == [];
    hide OutCount, LostCount, LapseCount, LapseTakesOut;
    out, announced := notices + [LeaseLapsed(x, device)], before;
    if device != "" && device !in announced {
      announced := announced + {device};
      if ReasonOf(reasons, device) == LeaseExpired {
        out := out + [DeviceOut(device, LeaseExpired)];
      }
    }
  }

  method AddLapses(res: SweepResult, reasons: map<string, Reason>, leaseDevices: map<Expired, string>,
                   before: set<string>, notices: seq<Notice>)
    returns (out: seq<Notice>)
    ensures exists announced :: SaidLapsed(res.leasesExpired, reasons, leaseDevices, before, notices, out, announced)
  {
    hide SaidLapsed;
    out := notices;
    var announced := before;
    SaidLapsedNone(reasons, leaseDevices, before, notices);
    for i := 0 to |res.leasesExpired|
      invariant SaidLapsed(res.leasesExpired[..i], reasons, leaseDevices, before, notices, out, announced)
    {
      ghost var mid, said := out, announced;
      out, announced := AddLapse(res.leasesExpired[i], reasons, leaseDevices, announced, out);
      SaidLapsedNext(res.leasesExpired, i, reasons, leaseDevices, before, notices, mid, said, out, announced);
    }
    assert res.leasesExpired[..|res.leasesExpired|] == res.leasesExpired;
  }

  // ----- Exactness

  /** QuarantineReasons, read after the sweep. */
  ghost predicate ReasonsRead(e: Db, ids: set<string>, reasons: map<string, Reason>) {
    && (forall d :: d in reasons <==> d in ids && d in e.devices)
    && (forall d :: d in reasons ==> reasons[d] == e.devices[d].reason)
  }

  /** l is the most recently acquired lease job j ever had. */
  ghost predicate Newest(leases: map<nat, Lease>, j: string, l: nat) {
    && l in leases && leases[l].job == j
    && forall k :: k in leases && leases[k].job == j ==> leases[k].acquired <= leases[l].acquired
  }

  /** LeaseDevices, read after the sweep: an expired job's device is that of its newest lease, an expired lease's its own. */
  ghost predicate LeaseDevicesRead(e: Db, expired: seq<Expired>, leaseDevices: map<Expired, string>) {
    && (forall j :: j != "" && OfJob(j) in expired ==>
          && (OfJob(j) in leaseDevices <==> exists l :: l in e.leases && e.leases[l].job == j)
          && (OfJob(j) in leaseDevices ==> exists l :: Newest(e.leases, j, l) && e.leases[l].device == leaseDevices[OfJob(j)]))
    && (forall l :: l in e.leases && OfLease(l) in expired ==>
          OfLease(l) in leaseDevices && leaseDevices[OfLease(l)] == e.leases[l].device)
  }

  lemma NoLooseLease(db: Db, a: SweepArgs, now: int)
    requires Valid(db)
    ensures ExpiredSet(db, a, now) == set j | j in db.jobs && Expires(db, a, now, j) :: OfJob(j)
  {
    forall l | l in db.leases && Stale(db, a, now, l) ensures db.leases[l].job != "" {
      assert LeaseOk(db, l) && JobOk(db, db.leases[l].job);
    }
  }

  /** The device named for an expired job is the device its stale lease was on. */
  lemma LapseDevice(db: Db, a: SweepArgs, now: int, expired: seq<Expired>, leaseDevices: map<Expired, string>, l: nat)
    requires Valid(db) && l in db.leases && Stale(db, a, now, l) && OfJob(db.leases[l].job) in expired
    requires LeaseDevicesRead(Sweep(db, a, now), expired, leaseDevices)
    ensures DeviceOf(leaseDevices, OfJob(db.leases[l].job)) == db.leases[l].device
  {
    var e, j := Sweep(db, a, now), db.leases[l].job;
    assert LeaseOk(db, l) && JobOk(db, j);
    assert l in e.leases && e.leases[l].job == j;
    var k :| Newest(e.leases, j, k) && e.leases[k].device == leaseDevices[OfJob(j)];
    assert Distinct(db, k, l);
  }

  predicate BecameUnhealthy(db: Db, a: SweepArgs, now: int, d: string) {
    d in db.devices && !db.devices[d].state.Unhealthy? && SweptDevice(db, a, now, d).state.Unhealthy?
  }

  /** An expired lease's device is newly out for that reason exactly when it was in the pool and its worker was not written off. */
  lemma LapsedReason(db: Db, a: SweepArgs, now: int, d: string)
    requires Valid(db) && d in db.devices && LapsedOn(db, a, now, d)
    ensures SweptDevice(db, a, now, d).reason == LeaseExpired <==> BecameUnhealthy(db, a, now, d) && !NewlyWrittenOff(db, a, now, d)
  {
    var l :| l in db.leases && Stale(db, a, now, l) && db.leases[l].device == d;
    assert DeviceOk(db, d) && Leased(db, d);
  }

  lemma ExpiredMembers(db: Db, a: SweepArgs, now: int, res: SweepResult, x: Expired)
    requires Valid(db) && Reports(db, a, now, res)
    ensures x in res.leasesExpired <==> x.OfJob? && x.job in db.jobs && Expires(db, a, now, x.job)
  {
    NoLooseLease(db, a, now);
    assert x in res.leasesExpired <==> x in multiset(res.leasesExpired);
  }

  lemma UnhealthyMembers(db: Db, a: SweepArgs, now: int, res: SweepResult, d: string)
    requires Reports(db, a, now, res)
    ensures multiset(res.devicesUnhealthy)[d] == (if NewlyWrittenOff(db, a, now, d) then 1 else 0)
    ensures d in res.devicesUnhealthy <==> NewlyWrittenOff(db, a, now, d)
  {
    assert d in res.devicesUnhealthy <==> d in multiset(res.devicesUnhealthy);
  }

  ghost predicate ReadAfter(db: Db, a: SweepArgs, now: int, res: SweepResult,
                            reasons: map<string, Reason>, leaseDevices: map<Expired, string>) {
    var e := Sweep(db, a, now);
    && LeaseDevicesRead(e, res.leasesExpired, leaseDevices)
    && ReasonsRead(e, (set d | d in res.devicesUnhealthy) + (set x | x in res.leasesExpired :: DeviceOf(leaseDevices, x)), reasons)
  }

  lemma LapseAnnounced(db: Db, a: SweepArgs, now: int, res: SweepResult,
                       reasons: map<string, Reason>, leaseDevices: map<Expired, string>, d: string)
    requires Valid(db) && Reports(db, a, now, res) && ReadAfter(db, a, now, res, reasons, leaseDevices)
    requires d != "" && BecameUnhealthy(db, a, now, d) && !NewlyWrittenOff(db, a, now, d)
    ensures LapseTakesOut(res.leasesExpired, reasons, leaseDevices, d)
  {
    assert LapsedOn(db, a, now, d);
    var l :| l in db.leases && Stale(db, a, now, l) && db.leases[l].device == d;
    var j := db.leases[l].job;
    assert LeaseOk(db, l) && JobOk(db, j);
    assert LapsedFor(db, a, now, j) && Expires(db, a, now, j);
    ExpiredMembers(db, a, now, res, OfJob(j));
    LapseDevice(db, a, now, res.leasesExpired, leaseDevices, l);
    LapsedReason(db, a, now, d);
    assert OfJob(j) in res.leasesExpired && DeviceOf(leaseDevices, OfJob(j)) == d;
  }

  lemma AnnouncedLapse(db: Db, a: SweepArgs, now: int, res: SweepResult,
                       reasons: map<string, Reason>, leaseDevices: map<Expired, string>, d: string)
    requires Valid(db) && Reports(db, a, now, res) && ReadAfter(db, a, now, res, reasons, leaseDevices)
    requires LapseTakesOut(res.leasesExpired, reasons, leaseDevices, d)
    ensures BecameUnhealthy(db, a, now, d) && !NewlyWrittenOff(db, a, now, d)
  {
    var x :| x in res.leasesExpired && DeviceOf(leaseDevices, x) == d;
    ExpiredMembers(db, a, now, res, x);
    var l :| l in db.leases && Stale(db, a, now, l) && db.leases[l].job == x.job;
    LapseDevice(db, a, now, res.leasesExpired, leaseDevices, l);
    assert LapsedOn(db, a, now, d);
    LapsedReason(db, a, now, d);
  }

  lemma DeviceAnnouncedOnce(db: Db, a: SweepArgs, now: int, res: SweepResult,
                            reasons: map<string, Reason>, leaseDevices: map<Expired, string>, out: seq<Notice>, d: string)
    requires Valid(db) && Reports(db, a, now, res) && ReadAfter(db, a, now, res, reasons, leaseDevices)
    requires Announces(res, reasons, leaseDevices, out) && d != ""
    ensures OutCount(out, d) == if BecameUnhealthy(db, a, now, d) then 1 else 0
  {
    UnhealthyMembers(db, a, now, res, d);
    if LapseTakesOut(res.leasesExpired, reasons, leaseDevices, d) {
      AnnouncedLapse(db, a, now, res, reasons, leaseDevices, d);
    }
    if BecameUnhealthy(db, a, now, d) && !NewlyWrittenOff(db, a, now, d) {
      LapseAnnounced(db, a, now, res, reasons, leaseDevices, d);
    }
  }

  /** A count in a multiset made from a set. */
  lemma JobCounts(db: Db, a: SweepArgs, now: int, res: SweepResult, j: string)
    requires Valid(db) && Reports(db, a, now, res) && j in db.jobs
    ensures multiset(res.jobsLost)[j] == if Reaped(db, a, now, j) then 1 else 0
    ensures multiset(res.leasesExpired)[OfJob(j)] == if Expires(db, a, now, j) then 1 else 0
  {
  }

  /** A job that became lost is in one of the two lists, once; any other is in neither. */
  lemma JobAnnouncedOnce(db: Db, a: SweepArgs, now: int, res: SweepResult,
                         reasons: map<string, Reason>, leaseDevices: map<Expired, string>, out: seq<Notice>, j: string)
    requires Valid(db) && Reports(db, a, now, res) && Announces(res, reasons, leaseDevices, out) && j in db.jobs
    ensures LostCount(out, j) + LapseCount(out, OfJob(j))
         == if db.jobs[j].state != Lost && Sweep(db, a, now).jobs[j].state == Lost then 1 else 0
  {
    hide Valid, Reports, LostCount, LapseCount, OutCount, LapseTakesOut, LapsedFor;
    JobCounts(db, a, now, res, j);
  }

  /**
   Sweep, then sweepEvents on what is read back: every device that left the
   pool in this sweep is announced once and no other is; every job that became
   lost is announced once, as reaped or as expired, and no other is.
   */
  lemma AnnouncementsAreExact(db: Db, a: SweepArgs, now: int, res: SweepResult,
                              reasons: map<string, Reason>, leaseDevices: map<Expired, string>, out: seq<Notice>)
    requires Valid(db) && Reports(db, a, now, res) && ReadAfter(db, a, now, res, reasons, leaseDevices)
    requires Announces(res, reasons, leaseDevices, out)
    ensures forall d :: d != "" ==> OutCount(out, d) == if BecameUnhealthy(db, a, now, d) then 1 else 0
    ensures forall j :: j in db.jobs ==>
              LostCount(out, j) + LapseCount(out, OfJob(j))
              == if db.jobs[j].state != Lost && Sweep(db, a, now).jobs[j].state == Lost then 1 else 0
  {
    assert Sweep(db, a, now).jobs.Keys == db.jobs.Keys;
    hide Valid, Reports, ReadAfter, Announces, BecameUnhealthy, LostCount, LapseCount, OutCount, Sweep;
    forall d | d != "" ensures OutCount(out, d) == if BecameUnhealthy(db, a, now, d) then 1 else 0 {
      DeviceAnnouncedOnce(db, a, now, res, reasons, leaseDevices, out, d);
    }
    forall j | j in db.jobs
      ensures LostCount(out, j) + LapseCount(out, OfJob(j))
              == if db.jobs[j].state != Lost && Sweep(db, a, now).jobs[j].state == Lost then 1 else 0
    {
      JobAnnouncedOnce(db, a, now, res, reasons, leaseDevices, out, j);
    }
  }
}
