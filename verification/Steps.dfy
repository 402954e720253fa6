/**
 How the store's loops and statement sequences add up: for each of them, what
 has been done after so many rows, and why the end of it is the transaction.
 */
module Steps {
  import opened Wrappers
  import opened Model
  import opened Transactions
  import opened Ordering
  import Invariant
  import Recoveries
  import Queue
  import Scheduling
  import Selector
  import Sweeping

  // ----- Row-by-row loops

  /** The rows of done have reached target, the others are as before. */
  ghost predicate Patched<K(!new), V>(before: map<K, V>, target: map<K, V>, done: set<K>, after: map<K, V>) {
    && before.Keys == target.Keys == after.Keys
    && forall k :: k in after ==> after[k] == if k in done then target[k] else before[k]
  }

  lemma PatchedNone<K(!new), V>(before: map<K, V>, target: map<K, V>)
    requires before.Keys == target.Keys
    ensures Patched(before, target, {}, before)
  {
  }

  lemma PatchedNext<K(!new), V>(before: map<K, V>, target: map<K, V>, done: set<K>, after: map<K, V>, k: K)
    requires Patched(before, target, done, after) && k in target
    ensures Patched(before, target, done + {k}, after[k := target[k]])
  {
  }

  lemma PatchedSame<K(!new), V>(before: map<K, V>, target: map<K, V>, done: set<K>, after: map<K, V>, k: K)
    requires Patched(before, target, done, after) && k !in after
    ensures Patched(before, target, done + {k}, after)
  {
  }

  lemma PatchedAll<K(!new), V>(before: map<K, V>, target: map<K, V>, done: set<K>, after: map<K, V>)
    requires Patched(before, target, done, after) && forall k :: k in before && k !in done ==> target[k] == before[k]
    ensures after == target
  {
  }

  lemma PatchedRest<K(!new), V>(before: map<K, V>, target: map<K, V>, done: set<K>, after: map<K, V>, k: K)
    requires Patched(before, target, done, after) && k in before && k !in done
    ensures k in after && after[k] == before[k]
  {
  }

  lemma RestShrinks<T>(all: set<T>, rest: set<T>, x: T)
    requires rest <= all && x in rest
    ensures all - (rest - {x}) == all - rest + {x}
  {
  }

  lemma MultisetOfUnion<T>(a: set<T>, b: set<T>)
    requires a !! b
    ensures multiset(a + b) == multiset(a) + multiset(b)
  {
  }

  lemma ReleasedForMore(leases: map<nat, Lease>, js: set<string>, j: string)
    ensures ReleasedFor(ReleasedFor(leases, js), {j}) == ReleasedFor(leases, js + {j})
  {
  }

  // ----- What a worker leaves in flight, job by job

  predicate LeftOn(db: Db, done: set<string>, d: string) {
    exists j :: j in done && j in db.jobs && db.jobs[j].device == d
  }

  ghost predicate Reaping(db: Db, done: set<string>, rebooted: bool, now: int,
                          jobs: map<string, Job>, leases: map<nat, Lease>, devices: map<string, Device>) {
    && jobs.Keys == db.jobs.Keys && devices.Keys == db.devices.Keys
    && (forall j :: j in jobs ==>
          jobs[j] == if j in done then Ended(db.jobs[j], Lost, if rebooted then "host rebooted" else "worker re-registered", now)
                     else db.jobs[j])
    && leases == ReleasedFor(db.leases, done)
    && (forall d :: d in devices ==>
          devices[d] == if LeftOn(db, done, d) then Transactions.Reap(db.devices[d], rebooted) else db.devices[d])
  }

  lemma ReapingNone(db: Db, rebooted: bool, now: int)
    ensures Reaping(db, {}, rebooted, now, db.jobs, db.leases, db.devices)
  {
    assert ReleasedFor(db.leases, {}) == db.leases;
  }

  lemma ReapingNext(db: Db, done: set<string>, rebooted: bool, now: int,
                    jobs: map<string, Job>, leases: map<nat, Lease>, devices: map<string, Device>, j: string)
    requires Reaping(db, done, rebooted, now, jobs, leases, devices) && j in db.jobs && j !in done
    ensures var d := jobs[j].device;
            Reaping(db, done + {j}, rebooted, now,
                    jobs[j := Ended(jobs[j], Lost, if rebooted then "host rebooted" else "worker re-registered", now)],
                    ReleasedFor(leases, {j}),
                    if d in devices then devices[d := Transactions.Reap(devices[d], rebooted)] else devices)
  {
    ReleasedForMore(db.leases, done, j);
    var d := db.jobs[j].device;
    ReapTwice(db.devices, d, rebooted);
    LeftOnMore(db, done, j);
    hide ReleasedFor, LeftOn, Ended, Transactions.Reap;
  }

  lemma LeftOnMore(db: Db, done: set<string>, j: string)
    requires j in db.jobs
    ensures forall x :: LeftOn(db, done + {j}, x) <==> LeftOn(db, done, x) || x == db.jobs[j].device
  {
    assert j in done + {j};
  }

  lemma ReapTwice(devices: map<string, Device>, d: string, rebooted: bool)
    ensures d in devices ==>
              Transactions.Reap(Transactions.Reap(devices[d], rebooted), rebooted) == Transactions.Reap(devices[d], rebooted)
  {
  }

  lemma ReapingAll(db: Db, w: string, rebooted: bool, now: int,
                   jobs: map<string, Job>, leases: map<nat, Lease>, devices: map<string, Device>)
    requires Reaping(db, InFlight(db, w), rebooted, now, jobs, leases, devices)
    ensures ReapInFlight(db, w, rebooted, now) == db.(jobs := jobs, leases := leases, devices := devices)
  {
    var e := ReapInFlight(db, w, rebooted, now);
    assert forall d :: Orphaned(db, w, d) <==> LeftOn(db, InFlight(db, w), d);
    hide LeftOn, Orphaned, InFlight, Transactions.Reap;
    assert e.jobs == jobs;
    assert e.devices == devices;
  }

  lemma UpsertIs(db: Db, w: string, boot: string, ds: set<string>, now: int)
    ensures var r := Invariant.Reconciled(db, w, boot, now, true);
            Upsert(db, w, boot, ds, now) == r.(devices := Declare(r.devices, w, ds))
  {
    hide ReapInFlight, RestoreRebooted, Declare;
  }

  lemma DeclareNone(devices: map<string, Device>, w: string)
    ensures Declare(devices, w, Elements([])) == devices
  {
  }

  lemma DeclareNext(devices: map<string, Device>, w: string, ds: set<string>, d: string)
    ensures var e := Declare(devices, w, ds);
            Declare(devices, w, ds + {d}) == e[d := if d in e then Declared(e[d], w) else Device(w, Ready, NoReason, "", 0)]
  {
  }

  lemma CeilingRow(db: Db, ceilings: map<string, int>, done: set<string>, devices: map<string, Device>, d: string)
    requires Patched(db.devices, Recoveries.SetCeilings(db, ceilings).devices, done, devices) && d in devices && d in ceilings
    ensures Recoveries.SetCeilings(db, ceilings).devices[d] == devices[d].(ceiling := if ceilings[d] < 0 then 0 else ceilings[d])
  {
  }

  // ----- Heartbeats, statement by statement

  function RenewedLeases(leases: map<nat, Lease>, jobs: map<string, Job>, w: string, running: set<string>, now: int): map<nat, Lease> {
    map l | l in leases ::
      if && leases[l].live && leases[l].job in jobs && jobs[leases[l].job].worker == w
         && jobs[leases[l].job].state.Active() && leases[l].job in running
      then leases[l].(expires := now + RENEW_WINDOW) else leases[l]
  }

  function RestoredDevices(devices: map<string, Device>, jobs: map<string, Job>, w: string, running: set<string>): map<string, Device> {
    map d | d in devices ::
      if && devices[d].worker == w && devices[d].state.Unhealthy? && devices[d].reason == WorkerLost
         && exists j :: j in jobs && jobs[j].worker == w && jobs[j].state.Active() && j in running && jobs[j].device == d
      then devices[d].(state := Busy, reason := NoReason, detail := "") else devices[d]
  }

  function AnsweredJobs(jobs: map<string, Job>, w: string, running: set<string>): map<string, Job> {
    map j | j in jobs :: BeatJob(w, running, jobs[j], j)
  }

  predicate KillFlagged(db: Db, w: string, d: string) {
    exists j :: j in db.jobs && db.jobs[j].worker == w && db.jobs[j].state.Killed? && db.jobs[j].killRequested && db.jobs[j].device == d
  }

  function Settled(db: Db, w: string, running: set<string>, retain: bool, d: string): Device
    requires d in db.devices
  {
    var v := db.devices[d];
    if v.worker != w || !v.state.Unknown? then v
    else if if retain then NamedHolding(db, w, running, d) else Leased(db, d) then v.(state := Busy)
    else if !Leased(db, d) && !KillFlagged(db, w, d) then v.(state := Ready)
    else v
  }

  function Moved(devices: map<string, Device>, w: string, ids: set<string>, state: DeviceState): map<string, Device> {
    map d | d in devices ::
      if devices[d].worker == w && devices[d].state.Unknown? && d in ids then devices[d].(state := state) else devices[d]
  }

  function SettledDevices(db: Db, w: string, running: set<string>, retain: bool): map<string, Device> {
    map d | d in db.devices :: Settled(db, w, running, retain, d)
  }

  lemma SettledInSteps(db: Db, w: string, running: set<string>, retain: bool,
                       busy: set<string>, leased: set<string>, flagged: set<string>, d: string)
    requires d in db.devices
    requires d in leased <==> Leased(db, d)
    requires d in busy <==> if retain then NamedHolding(db, w, running, d) else Leased(db, d)
    requires d in flagged <==> KillFlagged(db, w, d)
    ensures var once := Moved(db.devices, w, busy, Busy);
            Moved(once, w, (set x | x in once && x !in leased && x !in flagged), Ready)[d] == Settled(db, w, running, retain, d)
  {
    hide Leased, NamedHolding, KillFlagged;
  }

  /** The tables once the named devices are back and the answered kill flags are cleared. */
  function BeforeSettling(db: Db, w: string, running: set<string>, retain: bool, now: int): Db {
    Transactions.Heartbeat(db, w, running, retain, now).(devices := RestoredDevices(db.devices, db.jobs, w, running))
  }

  lemma PartsOfHeartbeat(db: Db, w: string, running: set<string>, retain: bool, now: int)
    ensures BeforeSettling(db, w, running, retain, now) ==
            db.(workers := if w in db.workers then db.workers[w := db.workers[w].(heartbeat := now)] else db.workers,
                leases := RenewedLeases(db.leases, db.jobs, w, running, now),
                jobs := AnsweredJobs(db.jobs, w, running),
                devices := RestoredDevices(db.devices, db.jobs, w, running))
  {
    hide Named, BeatJob, BeatDevice, RestoredDevices;
    NamedMeans(db, w, running);
  }

  lemma NamedMeans(db: Db, w: string, running: set<string>)
    ensures forall j :: Named(db, w, running, j) <==>
                          j in db.jobs && db.jobs[j].worker == w && db.jobs[j].state.Active() && j in running
  {
  }

  lemma BeatInSteps(db: Db, w: string, running: set<string>, retain: bool, now: int)
    ensures var mid := BeforeSettling(db, w, running, retain, now);
            mid.(devices := SettledDevices(mid, w, running, retain)) == Transactions.Heartbeat(db, w, running, retain, now)
  {
    hide Settled, BeatDevice;
    var mid := BeforeSettling(db, w, running, retain, now);
    forall d | d in db.devices ensures d in mid.devices && Settled(mid, w, running, retain, d) == BeatDevice(db, w, running, retain, d) {
      SettledAsBeaten(db, w, running, retain, now, d);
    }
  }

  lemma SettledAsBeaten(db: Db, w: string, running: set<string>, retain: bool, now: int, d: string)
    requires d in db.devices
    ensures var mid := BeforeSettling(db, w, running, retain, now);
            d in mid.devices && Settled(mid, w, running, retain, d) == BeatDevice(db, w, running, retain, d)
  {
    SameGroundsToSettle(db, w, running, retain, now, d);
    hide Leased, NamedHolding, KillFlagged, KillPending;
  }

  lemma SameGroundsToSettle(db: Db, w: string, running: set<string>, retain: bool, now: int, d: string)
    ensures var mid := BeforeSettling(db, w, running, retain, now);
            && (Leased(mid, d) <==> Leased(db, d))
            && (NamedHolding(mid, w, running, d) <==> NamedHolding(db, w, running, d))
            && (KillFlagged(mid, w, d) <==> KillPending(db, w, running, d))
  {
    hide BeatDevice;
    var mid := BeforeSettling(db, w, running, retain, now);
    assert mid.leases.Keys == db.leases.Keys && mid.jobs.Keys == db.jobs.Keys;
    assert forall j :: Named(mid, w, running, j) <==> Named(db, w, running, j);
    assert forall l, j :: HeldBy(mid, l, j) <==> HeldBy(db, l, j);
  }

  // ----- Recovery, candidate by candidate

  lemma ElementsNext<T>(r: seq<T>, i: nat)
    requires i < |r|
    ensures Elements(r[..i + 1]) == Elements(r[..i]) + {r[i]}
  {
    assert r[..i + 1] == r[..i] + [r[i]];
  }

  lemma RecoverableNone(db: Db, now: int)
    ensures Recoverable(db, now, []) == []
  {
  }

  lemma RecoverableNext(db: Db, now: int, r: seq<string>, i: nat)
    requires i < |r|
    ensures Recoverable(db, now, r[..i + 1]) == if Budget(db, r[i], now) then Recoverable(db, now, r[..i]) + [r[i]] else Recoverable(db, now, r[..i])
  {
    assert r[..i + 1][..i] == r[..i];
    hide Budget;
  }

  lemma CandidateAt(db: Db, w: string, r: seq<string>, i: nat)
    requires r == Scheduling.Sorted(Candidates(db, w)) && i < |r|
    ensures r[i] in db.devices && db.devices[r[i]].state.Unhealthy? && r[i] !in Elements(r[..i])
  {
    Scheduling.TextIsTotal(Candidates(db, w));
    Scheduling.TextOrderMeans();
    ListedInOrder(Candidates(db, w), Scheduling.TextOrder());
    assert r[i] in r;
  }

  function Candidates(db: Db, w: string): set<string> {
    set d | d in db.devices && Revivable(db, w, true, d)
  }

  /** The candidates with returns left, in order. */
  function Recoverable(db: Db, now: int, ds: seq<string>): seq<string> {
    if ds == [] then []
    else Recoverable(db, now, ds[..|ds| - 1]) + if Budget(db, ds[|ds| - 1], now) then [ds[|ds| - 1]] else []
  }

  ghost predicate Recovering(db: Db, now: int, done: set<string>, devices: map<string, Device>, recoveries: map<string, seq<Recovery>>) {
    && done <= db.devices.Keys == devices.Keys && recoveries.Keys == db.recoveries.Keys + done
    && (forall d :: d in devices ==> devices[d] == if d in done && Budget(db, d, now) then Cleared(db.devices[d]) else db.devices[d])
    && (forall d :: d in recoveries ==>
          recoveries[d] == if d in done
                           then Recent(History(db, d), now - RECOVERY_WINDOW)
                                + (if Budget(db, d, now) then [Recovery(now, db.devices[d].reason)] else [])
                           else History(db, d))
  }

  lemma RecoveringNone(db: Db, now: int)
    ensures Recovering(db, now, Elements([]), db.devices, db.recoveries)
  {
    hide Recent, Budget;
  }

  lemma RecoveringNext(db: Db, now: int, done: set<string>, devices: map<string, Device>, recoveries: map<string, seq<Recovery>>, d: string)
    requires Recovering(db, now, done, devices, recoveries) && d in db.devices && d !in done
    ensures var h := Recent(if d in recoveries then recoveries[d] else [], now - RECOVERY_WINDOW);
            && (|h| < RECOVERY_LIMIT <==> Budget(db, d, now)) && d in devices && devices[d] == db.devices[d]
            && Recovering(db, now, done + {d},
                          if Budget(db, d, now) then devices[d := Cleared(devices[d])] else devices,
                          recoveries[d := h + if Budget(db, d, now) then [Recovery(now, devices[d].reason)] else []])
  {
    hide Recent;
  }

  lemma RecoveringAll(db: Db, w: string, p: Proof, now: int, devices: map<string, Device>, recoveries: map<string, seq<Recovery>>)
    requires p.Proves() && Recovering(db, now, Candidates(db, w), devices, recoveries)
    ensures AutoRecover(db, w, p, now) == db.(devices := devices, recoveries := recoveries)
  {
    hide Recent, Revivable, Budget, Candidates;
    var e := AutoRecover(db, w, p, now);
    CandidatesAreRevivable(db, w);
    assert e.devices == devices;
    assert e.recoveries == recoveries;
  }

  lemma CandidatesAreRevivable(db: Db, w: string)
    ensures forall d :: d in Candidates(db, w) <==> Revivable(db, w, true, d)
  {
  }

  // ----- The sweep, pass by pass

  datatype Demotion = Demotion(device: string, state: DeviceState)

  /** What the sweep concludes about the devices in seen: who is silent, and for how long. */
  ghost predicate Judged(db: Db, a: SweepArgs, now: int, seen: set<string>,
                         pending: seq<Demotion>, reap: seq<string>, unknown: seq<string>, unhealthy: seq<string>) {
    && multiset(unknown) == multiset(set d | d in seen && Sweeping.NewlyUnknown(db, a, now, d))
    && multiset(unhealthy) == multiset(set d | d in seen && Sweeping.NewlyWrittenOff(db, a, now, d))
    && multiset(reap) == multiset(set d | d in seen && WrittenOff(db, a, now, d))
    && forall x :: x in pending <==>
         && x.device in seen
         && (|| (x.state.Unhealthy? && Sweeping.NewlyWrittenOff(db, a, now, x.device))
             || (x.state.Unknown? && Sweeping.NewlyUnknown(db, a, now, x.device)))
  }

  lemma JudgedNone(db: Db, a: SweepArgs, now: int)
    ensures Judged(db, a, now, {}, [], [], [], [])
  {
  }

  lemma UnknownNext(db: Db, a: SweepArgs, now: int, seen: set<string>, s: seq<string>, d: string)
    requires d !in seen && multiset(s) == multiset(set x | x in seen && Sweeping.NewlyUnknown(db, a, now, x))
    ensures multiset(if Sweeping.NewlyUnknown(db, a, now, d) then s + [d] else s)
         == multiset(set x | x in seen + {d} && Sweeping.NewlyUnknown(db, a, now, x))
  {
    hide Sweeping.NewlyUnknown;
    var x := set x | x in seen && Sweeping.NewlyUnknown(db, a, now, x);
    assert (set x | x in seen + {d} && Sweeping.NewlyUnknown(db, a, now, x)) == if Sweeping.NewlyUnknown(db, a, now, d) then x + {d} else x;
  }

  lemma WrittenOffNext(db: Db, a: SweepArgs, now: int, seen: set<string>, s: seq<string>, d: string)
    requires d !in seen && multiset(s) == multiset(set x | x in seen && Sweeping.NewlyWrittenOff(db, a, now, x))
    ensures multiset(if Sweeping.NewlyWrittenOff(db, a, now, d) then s + [d] else s)
         == multiset(set x | x in seen + {d} && Sweeping.NewlyWrittenOff(db, a, now, x))
  {
    hide Sweeping.NewlyWrittenOff;
    var x := set x | x in seen && Sweeping.NewlyWrittenOff(db, a, now, x);
    assert (set x | x in seen + {d} && Sweeping.NewlyWrittenOff(db, a, now, x)) == if Sweeping.NewlyWrittenOff(db, a, now, d) then x + {d} else x;
  }

  lemma GoneNext(db: Db, a: SweepArgs, now: int, seen: set<string>, s: seq<string>, d: string)
    requires d !in seen && multiset(s) == multiset(set x | x in seen && WrittenOff(db, a, now, x))
    ensures multiset(if WrittenOff(db, a, now, d) then s + [d] else s) == multiset(set x | x in seen + {d} && WrittenOff(db, a, now, x))
  {
    hide WrittenOff;
    var x := set x | x in seen && WrittenOff(db, a, now, x);
    assert (set x | x in seen + {d} && WrittenOff(db, a, now, x)) == if WrittenOff(db, a, now, d) then x + {d} else x;
  }

  lemma JudgedNext(db: Db, a: SweepArgs, now: int, seen: set<string>,
                   pending: seq<Demotion>, reap: seq<string>, unknown: seq<string>, unhealthy: seq<string>, d: string)
    requires Judged(db, a, now, seen, pending, reap, unknown, unhealthy) && d in db.devices && d !in seen
    ensures Judged(db, a, now, seen + {d},
                   if Sweeping.NewlyWrittenOff(db, a, now, d) then pending + [Demotion(d, Unhealthy)]
                   else if Sweeping.NewlyUnknown(db, a, now, d) then pending + [Demotion(d, Unknown)] else pending,
                   if WrittenOff(db, a, now, d) then reap + [d] else reap,
                   if Sweeping.NewlyUnknown(db, a, now, d) then unknown + [d] else unknown,
                   if Sweeping.NewlyWrittenOff(db, a, now, d) then unhealthy + [d] else unhealthy)
  {
    hide Sweeping.NewlyUnknown, Sweeping.NewlyWrittenOff, WrittenOff;
    UnknownNext(db, a, now, seen, unknown, d);
    WrittenOffNext(db, a, now, seen, unhealthy, d);
    GoneNext(db, a, now, seen, reap, d);
    OneVerdict(db, a, now, d);
  }

  lemma OneVerdict(db: Db, a: SweepArgs, now: int, d: string)
    ensures !(Sweeping.NewlyWrittenOff(db, a, now, d) && Sweeping.NewlyUnknown(db, a, now, d))
  {
  }

  function DemotedDevices(db: Db, a: SweepArgs, now: int): map<string, Device> {
    map d | d in db.devices :: Demoted(db, a, now, d)
  }

  /** Active jobs on the devices in ds. */
  function LostOn(jobs: map<string, Job>, ds: set<string>): set<string> {
    set j | j in jobs && jobs[j].state.Active() && jobs[j].device in ds
  }

  function ReapedOn(jobs: map<string, Job>, ds: set<string>, now: int): map<string, Job> {
    map j | j in jobs :: if j in LostOn(jobs, ds) then Ended(jobs[j], Lost, "worker lost", now) else jobs[j]
  }

  lemma ReapedOnMore(jobs: map<string, Job>, leases: map<nat, Lease>, ds: set<string>, d: string, now: int)
    ensures var more := LostOn(ReapedOn(jobs, ds, now), {d});
            && LostOn(jobs, ds) !! more && LostOn(jobs, ds + {d}) == LostOn(jobs, ds) + more
            && ReapedOn(ReapedOn(jobs, ds, now), {d}, now) == ReapedOn(jobs, ds + {d}, now)
            && ReleasedFor(ReleasedFor(leases, LostOn(jobs, ds)), more) == ReleasedFor(leases, LostOn(jobs, ds + {d}))
  {
    var more := LostOn(ReapedOn(jobs, ds, now), {d});
    assert LostOn(jobs, ds + {d}) == LostOn(jobs, ds) + more;
    assert LostOn(jobs, ds) !! more;
    hide LostOn;
    ReleasedForUnion(leases, LostOn(jobs, ds), more);
  }

  lemma ReleasedForUnion(leases: map<nat, Lease>, x: set<string>, y: set<string>)
    ensures ReleasedFor(ReleasedFor(leases, x), y) == ReleasedFor(leases, x + y)
  {
  }

  /** The leases whose deadline has passed, as the third query selects them. */
  function Due(leases: map<nat, Lease>, a: SweepArgs, now: int): set<nat> {
    set l | l in leases && Judging(a, now) && leases[l].live && leases[l].expires <= now && (a.retain ==> !leases[l].kind.JobKind?)
  }

  predicate HasLapsed(db: Db, done: set<nat>, j: string) {
    Active(db, j) && j != "" && exists l :: l in done && l in db.leases && db.leases[l].job == j
  }

  predicate HoldsLapsed(db: Db, done: set<nat>, d: string) {
    exists l :: l in done && l in db.leases && db.leases[l].device == d
  }

  function LapsedSet(db: Db, done: set<nat>): set<Sweeping.Expired> {
    (set j | j in db.jobs && HasLapsed(db, done, j) :: Sweeping.OfJob(j))
    + (set l | l in done && l in db.leases && db.leases[l].job == "" :: Sweeping.OfLease(l))
  }

  /** The stale leases in done have been dealt with. */
  ghost predicate Lapsing(db: Db, done: set<nat>, now: int, devices: map<string, Device>, jobs: map<string, Job>, leases: map<nat, Lease>) {
    && devices.Keys == db.devices.Keys && jobs.Keys == db.jobs.Keys && leases.Keys == db.leases.Keys
    && (forall d :: d in devices ==> devices[d] == if HoldsLapsed(db, done, d) then Expire(db.devices[d]) else db.devices[d])
    && (forall j :: j in jobs ==> jobs[j] == if HasLapsed(db, done, j) then Ended(db.jobs[j], Lost, "lease expired", now) else db.jobs[j])
    && (forall l :: l in leases ==> leases[l] == if l in done then db.leases[l].(live := false) else db.leases[l])
  }

  lemma LapsingNone(db: Db, now: int)
    ensures Lapsing(db, {}, now, db.devices, db.jobs, db.leases) && LapsedSet(db, {}) == {}
  {
  }

  /** One more lease: its device goes out, its job, if still active, is lost. */
  lemma LapsingNext(db: Db, done: set<nat>, now: int, devices: map<string, Device>, jobs: map<string, Job>, leases: map<nat, Lease>, l: nat)
    requires Lapsing(db, done, now, devices, jobs, leases) && l in db.leases && l !in done
    ensures var d, j := db.leases[l].device, db.leases[l].job;
            && leases[l].device == d && leases[l].job == j
            && Lapsing(db, done + {l}, now,
                       if d in devices then devices[d := Expire(devices[d])] else devices,
                       if j != "" && j in jobs && jobs[j].state.Active() then jobs[j := Ended(jobs[j], Lost, "lease expired", now)] else jobs,
                       leases[l := leases[l].(live := false)])
  {
    hide HoldsLapsed, HasLapsed;
    LapsedGrows(db, done, l);
  }

  lemma LapsedGrows(db: Db, done: set<nat>, l: nat)
    requires l in db.leases
    ensures forall d :: HoldsLapsed(db, done + {l}, d) <==> HoldsLapsed(db, done, d) || d == db.leases[l].device
    ensures forall j :: HasLapsed(db, done + {l}, j) <==> HasLapsed(db, done, j) || (j == db.leases[l].job && Active(db, j) && j != "")
  {
  }

  /** What a further lease adds to the list of the expired: itself if it has no job, its job if that was still active. */
  lemma LapsedSetGrows(db: Db, done: set<nat>, l: nat)
    requires l in db.leases && l !in done
    ensures var j, x := db.leases[l].job, LapsedSet(db, done);
            LapsedSet(db, done + {l}) ==
            if j == "" then x + {Sweeping.OfLease(l)} else if Active(db, j) then x + {Sweeping.OfJob(j)} else x
    ensures Sweeping.OfLease(l) !in LapsedSet(db, done)
    ensures forall j :: Sweeping.OfJob(j) in LapsedSet(db, done) <==> HasLapsed(db, done, j)
  {
    var j := db.leases[l].job;
    LapsedGrows(db, done, l);
    assert forall i :: HasLapsed(db, done, i) ==> i in db.jobs;
    assert Active(db, j) ==> j in db.jobs;
    hide HasLapsed, Active;
    var x, y := LapsedSet(db, done), LapsedSet(db, done + {l});
    var z := if j == "" then x + {Sweeping.OfLease(l)} else if Active(db, j) then x + {Sweeping.OfJob(j)} else x;
    forall e ensures e in y <==> e in z {
      match e
      case OfJob(i) => assert e in y <==> i in db.jobs && HasLapsed(db, done + {l}, i);
      case OfLease(k) => assert e in y <==> k in done + {l} && k in db.leases && db.leases[k].job == "";
    }
  }

  lemma AddOne<T>(x: set<T>, s: seq<T>, e: T)
    requires multiset(s) == multiset(x) && e !in x
    ensures multiset(s + [e]) == multiset(x + {e})
  {
  }

  lemma LapsedSetNext(db: Db, done: set<nat>, now: int, devices: map<string, Device>, jobs: map<string, Job>, leases: map<nat, Lease>, l: nat,
                      expired: seq<Sweeping.Expired>)
    requires Lapsing(db, done, now, devices, jobs, leases) && l in db.leases && l !in done
    requires multiset(expired) == multiset(LapsedSet(db, done))
    ensures var j, more := db.leases[l].job, LapsedSet(db, done + {l});
            if j == "" then multiset(more) == multiset(expired + [Sweeping.OfLease(l)])
            else if j in jobs && jobs[j].state.Active() then multiset(more) == multiset(expired + [Sweeping.OfJob(j)])
            else multiset(more) == multiset(expired)
  {
    hide Lapsing, LapsedSet, HasLapsed, Active;
    LapsedSetGrows(db, done, l);
    var j, x := db.leases[l].job, LapsedSet(db, done);
    if j == "" {
      AddOne(x, expired, Sweeping.OfLease(l));
    } else {
      LapsingJob(db, done, now, devices, jobs, leases, j);
      if j in jobs && jobs[j].state.Active() {
        AddOne(x, expired, Sweeping.OfJob(j));
      } else if HasLapsed(db, done, j) {
        assert x + {Sweeping.OfJob(j)} == x;
      }
    }
  }

  lemma LapsingJob(db: Db, done: set<nat>, now: int, devices: map<string, Device>, jobs: map<string, Job>, leases: map<nat, Lease>, j: string)
    requires Lapsing(db, done, now, devices, jobs, leases) && j != ""
    ensures j in jobs && jobs[j].state.Active() <==> Active(db, j) && !HasLapsed(db, done, j)
  {
  }

  /** The tables after the demotions and the reap, before the deadlines. */
  function BeforeDeadlines(db: Db, a: SweepArgs, now: int): Db {
    var gone := if a.retain then {} else set d | d in db.devices && WrittenOff(db, a, now, d);
    db.(devices := DemotedDevices(db, a, now),
        jobs := ReapedOn(db.jobs, gone, now),
        leases := ReleasedFor(db.leases, LostOn(db.jobs, gone)))
  }

  lemma StaleAreDue(db: Db, a: SweepArgs, now: int)
    ensures forall l :: l in Due(BeforeDeadlines(db, a, now).leases, a, now) <==> Stale(db, a, now, l)
    ensures forall j :: j in LostOn(db.jobs, if a.retain then {} else set d | d in db.devices && WrittenOff(db, a, now, d)) <==> Reaped(db, a, now, j)
  {
    hide DemotedDevices, ReapedOn, Judging;
  }

  lemma SweepInSteps(db: Db, a: SweepArgs, now: int, devices: map<string, Device>, jobs: map<string, Job>, leases: map<nat, Lease>)
    requires var mid := BeforeDeadlines(db, a, now); Lapsing(mid, Due(mid.leases, a, now), now, devices, jobs, leases)
    ensures Transactions.Sweep(db, a, now) == db.(devices := devices, jobs := jobs, leases := leases)
  {
    var mid := BeforeDeadlines(db, a, now);
    var done := Due(mid.leases, a, now);
    StaleAreDue(db, a, now);
    LapsedBoth(db, a, now);
    var e := Transactions.Sweep(db, a, now);
    hide Due, Stale, Reaped, LapsedOn, LapsedFor, HoldsLapsed, HasLapsed, LostOn, WrittenOff, Expire, Ended;
    assert e.devices == devices;
    assert e.jobs == jobs;
    assert e.leases == leases;
  }

  lemma LapsedBoth(db: Db, a: SweepArgs, now: int)
    ensures var mid := BeforeDeadlines(db, a, now); var done := Due(mid.leases, a, now);
            && (forall d :: HoldsLapsed(mid, done, d) <==> LapsedOn(db, a, now, d))
            && (forall j :: HasLapsed(mid, done, j) <==> Sweeping.Expires(db, a, now, j))
            && (forall l :: l in done && l in mid.leases && mid.leases[l].job == "" <==> Sweeping.Loose(db, a, now, l))
  {
    var mid := BeforeDeadlines(db, a, now);
    var done := Due(mid.leases, a, now);
    StaleAreDue(db, a, now);
    hide Due, Stale, WrittenOff;
    assert mid.leases.Keys == db.leases.Keys
        && forall l :: l in db.leases ==> mid.leases[l].job == db.leases[l].job && mid.leases[l].device == db.leases[l].device;
    assert forall j :: Active(mid, j) <==> Active(db, j) && !Reaped(db, a, now, j);
  }

  lemma ReportsInSteps(db: Db, a: SweepArgs, now: int, pending: seq<Demotion>, reap: seq<string>, res: Sweeping.SweepResult)
    requires Judged(db, a, now, db.devices.Keys, pending, reap, res.devicesUnknown, res.devicesUnhealthy)
    requires multiset(res.jobsLost) ==
             multiset(LostOn(db.jobs, if a.retain then {} else set d | d in db.devices && WrittenOff(db, a, now, d)))
    requires var mid := BeforeDeadlines(db, a, now); multiset(res.leasesExpired) == multiset(LapsedSet(mid, Due(mid.leases, a, now)))
    ensures Sweeping.Reports(db, a, now, res)
  {
    StaleAreDue(db, a, now);
    LapsedBoth(db, a, now);
    var mid := BeforeDeadlines(db, a, now);
    assert mid.jobs.Keys == db.jobs.Keys && mid.leases.Keys == db.leases.Keys;
    hide Due, Stale, Reaped, HasLapsed, LostOn, WrittenOff, Sweeping.Expires, Sweeping.NewlyUnknown, Sweeping.NewlyWrittenOff;
    var gone := if a.retain then {} else set d | d in db.devices && WrittenOff(db, a, now, d);
    assert LostOn(db.jobs, gone) == set j | j in db.jobs && Reaped(db, a, now, j) by { LostAreJobs(db.jobs, gone); }
    SameExpired(db, mid, a, now);
  }

  lemma SameExpired(db: Db, mid: Db, a: SweepArgs, now: int)
    requires mid.jobs.Keys == db.jobs.Keys && mid.leases.Keys == db.leases.Keys
    requires forall j :: HasLapsed(mid, Due(mid.leases, a, now), j) <==> Sweeping.Expires(db, a, now, j)
    requires forall l :: l in Due(mid.leases, a, now) && l in mid.leases && mid.leases[l].job == "" <==> Sweeping.Loose(db, a, now, l)
    ensures LapsedSet(mid, Due(mid.leases, a, now)) == Sweeping.ExpiredSet(db, a, now)
  {
    hide Due, HasLapsed, Sweeping.Expires;
  }

  lemma LostAreJobs(jobs: map<string, Job>, ds: set<string>)
    ensures LostOn(jobs, ds) <= jobs.Keys
  {
  }

  // ----- The sweep's loops

  lemma ReleasedForNone(leases: map<nat, Lease>)
    ensures ReleasedFor(leases, {}) == leases
  {
  }

  lemma ReapedOnNone(jobs: map<string, Job>, leases: map<nat, Lease>, now: int)
    ensures LostOn(jobs, Elements([])) == {} && ReapedOn(jobs, Elements([]), now) == jobs
    ensures ReleasedFor(leases, LostOn(jobs, Elements([]))) == leases
  {
    ReleasedForNone(leases);
  }

  lemma JudgedReap(db: Db, a: SweepArgs, now: int, pending: seq<Demotion>, reap: seq<string>, unknown: seq<string>, unhealthy: seq<string>)
    requires Judged(db, a, now, db.devices.Keys, pending, reap, unknown, unhealthy)
    ensures Elements(reap) == set d | d in db.devices && WrittenOff(db, a, now, d)
    ensures Elements<string>([]) == {}
  {
    hide WrittenOff;
    assert forall d :: d in reap <==> d in multiset(reap);
  }

  lemma DemotedKeys(db: Db, a: SweepArgs, now: int)
    ensures DemotedDevices(db, a, now).Keys == db.devices.Keys
  {
  }

  function DemotedBy(pending: seq<Demotion>): set<string> {
    set x | x in pending :: x.device
  }

  lemma DemotedByNext(pending: seq<Demotion>, i: nat)
    requires i < |pending|
    ensures DemotedBy(pending[..i + 1]) == DemotedBy(pending[..i]) + {pending[i].device}
  {
    assert pending[..i + 1] == pending[..i] + [pending[i]];
  }

  /** The row a demotion writes is the row the transaction leaves, whether or not it was written before. */
  lemma DemotedRow(db: Db, a: SweepArgs, now: int, pending: seq<Demotion>, reap: seq<string>, unknown: seq<string>, unhealthy: seq<string>,
                   done: set<string>, devices: map<string, Device>, i: nat)
    requires Judged(db, a, now, db.devices.Keys, pending, reap, unknown, unhealthy) && i < |pending|
    requires Patched(db.devices, DemotedDevices(db, a, now), done, devices)
    ensures var x := pending[i];
            && x.device in db.devices && x.device in devices && x.device in DemotedDevices(db, a, now)
            && DemotedDevices(db, a, now)[x.device]
               == devices[x.device].(state := x.state, reason := if x.state.Unhealthy? then WorkerLost else NoReason)
  {
    assert pending[i] in pending;
  }

  lemma NotDemoted(db: Db, a: SweepArgs, now: int, pending: seq<Demotion>, reap: seq<string>, unknown: seq<string>, unhealthy: seq<string>)
    requires Judged(db, a, now, db.devices.Keys, pending, reap, unknown, unhealthy)
    ensures forall d :: d in db.devices && d !in DemotedBy(pending) ==> DemotedDevices(db, a, now)[d] == db.devices[d]
  {
    forall d | d in db.devices && d !in DemotedBy(pending) ensures DemotedDevices(db, a, now)[d] == db.devices[d] {
      assert Demotion(d, Unhealthy) !in pending && Demotion(d, Unknown) !in pending;
    }
  }

  /** ORDER BY acquired_at; ties as they come. */
  function Acquired(leases: map<nat, Lease>): (nat, nat) -> bool {
    (k, l) => k in leases && l in leases && (leases[k].acquired < leases[l].acquired || (leases[k].acquired == leases[l].acquired && k < l))
  }

  lemma ByAcquisition(leases: map<nat, Lease>, s: set<nat>)
    requires s <= leases.Keys
    ensures StrictTotal(s, Acquired(leases))
  {
    var before := Acquired(leases);
    assert forall k, l :: before(k, l) <==>
                            k in leases && l in leases && (leases[k].acquired < leases[l].acquired || (leases[k].acquired == leases[l].acquired && k < l));
  }

  /** The jobs in done, all on one device, are lost and their leases released. */
  ghost predicate Reaped1(jobs0: map<string, Job>, leases0: map<nat, Lease>, done: set<string>, now: int,
                          jobs: map<string, Job>, leases: map<nat, Lease>, lost: seq<string>) {
    && jobs.Keys == jobs0.Keys
    && (forall j :: j in jobs ==> jobs[j] == if j in done then Ended(jobs0[j], Lost, "worker lost", now) else jobs0[j])
    && leases == ReleasedFor(leases0, done) && multiset(lost) == multiset(done)
  }

  lemma ReapedNone(jobs: map<string, Job>, leases: map<nat, Lease>, now: int)
    ensures Reaped1(jobs, leases, {}, now, jobs, leases, [])
  {
    ReleasedForNone(leases);
  }

  lemma ReapedNext(jobs0: map<string, Job>, leases0: map<nat, Lease>, done: set<string>, now: int,
                   jobs: map<string, Job>, leases: map<nat, Lease>, lost: seq<string>, j: string)
    requires Reaped1(jobs0, leases0, done, now, jobs, leases, lost) && j in jobs && j !in done
    ensures Reaped1(jobs0, leases0, done + {j}, now,
                    jobs[j := Ended(jobs[j], Lost, "worker lost", now)], ReleasedFor(leases, {j}), lost + [j])
  {
    hide ReleasedFor, Ended;
    ReleasedForMore(leases0, done, j);
    AddOne(done, lost, j);
  }

  lemma ReapedDone(jobs0: map<string, Job>, leases0: map<nat, Lease>, d: string, now: int,
                   jobs: map<string, Job>, leases: map<nat, Lease>, lost: seq<string>)
    requires Reaped1(jobs0, leases0, LostOn(jobs0, {d}), now, jobs, leases, lost)
    ensures jobs == ReapedOn(jobs0, {d}, now) && leases == ReleasedFor(leases0, LostOn(jobs0, {d}))
    ensures multiset(lost) == multiset(LostOn(jobs0, {d}))
  {
    hide LostOn, Ended;
  }

  ghost predicate NoLater(leases: map<nat, Lease>, k: nat, l: nat) {
    k in leases && l in leases && leases[k].acquired <= leases[l].acquired
  }

  ghost predicate ByAcquired(leases: map<nat, Lease>, rows: seq<nat>) {
    forall i, k :: 0 <= i < k < |rows| ==> NoLater(leases, rows[i], rows[k])
  }

  lemma InAcquisitionOrder(leases: map<nat, Lease>, rows: seq<nat>)
    requires InOrder(rows, Acquired(leases))
    ensures ByAcquired(leases, rows)
  {
    var before := Acquired(leases);
    forall i, k | 0 <= i < k < |rows| ensures NoLater(leases, rows[i], rows[k]) { assert before(rows[i], rows[k]); }
  }

  lemma EarlierAcquired(leases: map<nat, Lease>, rows: seq<nat>, i: nat)
    requires ByAcquired(leases, rows) && i < |rows| && rows[i] in leases
    ensures forall k :: k in Elements(rows[..i]) && k in leases ==> leases[k].acquired <= leases[rows[i]].acquired
  {
  }

  /** Of the leases of job j in done, l is the last acquired. */
  ghost predicate LastOf(leases: map<nat, Lease>, done: set<nat>, j: string, l: nat) {
    && l in done && l in leases && leases[l].job == j
    && forall k :: k in done && k in leases && leases[k].job == j ==> leases[k].acquired <= leases[l].acquired
  }

  ghost predicate OnDevice(leases: map<nat, Lease>, done: set<nat>, j: string, d: string) {
    exists l :: LastOf(leases, done, j, l) && leases[l].device == d
  }

  /** The leases in done have been read: each job they name has the device of the last of them. */
  ghost predicate DevicesRead(leases: map<nat, Lease>, done: set<nat>, out: map<Sweeping.Expired, string>) {
    && (forall j :: Sweeping.OfJob(j) in out ==> j != "" && OnDevice(leases, done, j, out[Sweeping.OfJob(j)]))
    && (forall l :: l in done && l in leases ==>
          && (leases[l].job != "" ==> Sweeping.OfJob(leases[l].job) in out)
          && Sweeping.OfLease(l) in out && out[Sweeping.OfLease(l)] == leases[l].device)
  }

  lemma DevicesReadNone(leases: map<nat, Lease>)
    ensures DevicesRead(leases, Elements([]), map[])
  {
  }

  lemma DevicesReadNext(leases: map<nat, Lease>, done: set<nat>, out: map<Sweeping.Expired, string>, l: nat)
    requires DevicesRead(leases, done, out) && l in leases
    requires forall k :: k in done && k in leases ==> leases[k].acquired <= leases[l].acquired
    ensures var more := out[Sweeping.OfLease(l) := leases[l].device];
            DevicesRead(leases, done + {l}, if leases[l].job != "" then more[Sweeping.OfJob(leases[l].job) := leases[l].device] else more)
  {
    assert LastOf(leases, done + {l}, leases[l].job, l);
    forall j, d | OnDevice(leases, done, j, d) && j != leases[l].job ensures OnDevice(leases, done + {l}, j, d) {
      var k :| LastOf(leases, done, j, k) && leases[k].device == d;
      assert LastOf(leases, done + {l}, j, k);
    }
    hide LastOf;
  }

  lemma DevicesReadAll(db: Db, expired: seq<Sweeping.Expired>, found: set<nat>, out: map<Sweeping.Expired, string>)
    requires DevicesRead(db.leases, found, out)
    requires forall l :: l in db.leases && (Sweeping.OfLease(l) in expired || Sweeping.OfJob(db.leases[l].job) in expired) ==> l in found
    ensures Sweeping.LeaseDevicesRead(db, expired, out)
  {
    forall j | j != "" && Sweeping.OfJob(j) in expired
      ensures (Sweeping.OfJob(j) in out <==> exists l :: l in db.leases && db.leases[l].job == j)
      ensures Sweeping.OfJob(j) in out ==> exists l :: Sweeping.Newest(db.leases, j, l) && db.leases[l].device == out[Sweeping.OfJob(j)]
    {
      if Sweeping.OfJob(j) in out {
        var l :| LastOf(db.leases, found, j, l) && db.leases[l].device == out[Sweeping.OfJob(j)];
        assert Sweeping.Newest(db.leases, j, l);
      }
    }
  }

  // ----- Labels and candidates

  function LabelsIn(snap: map<string, Labels>, d: string): Labels {
    if d in snap then snap[d] else map[]
  }

  /** The labels of the devices in done are in out, and no others. */
  ghost predicate Snapped(db: Db, done: set<string>, out: map<string, Labels>) {
    out.Keys == done && forall d :: d in out ==> out[d] == Queue.Effective(db, d)
  }

  lemma SnappedNone(db: Db)
    ensures Snapped(db, {}, map[])
  {
  }

  lemma SnappedNext(db: Db, done: set<string>, out: map<string, Labels>, d: string)
    requires Snapped(db, done, out)
    ensures Snapped(db, done + {d}, out[d := Queue.Effective(db, d)])
  {
    hide Queue.Effective;
  }

  lemma SnappedAll(db: Db, out: map<string, Labels>)
    requires Snapped(db, db.declared.Keys + db.detected.Keys, out)
    ensures forall d :: LabelsIn(out, d) == Queue.Effective(db, d)
  {
  }

  lemma NotQueuedNotCancelled(db: Db, j: string, reason: string, now: int)
    requires !(j in db.jobs && db.jobs[j].state.Queued?)
    ensures CancelQueued(db, j, reason, now) == db
  {
  }
}
