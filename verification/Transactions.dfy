/**
 What each transaction of internal/store leaves behind, row by row. These are
 the specifications the methods of Tables.dfy meet statement by statement, and
 the steps every theorem about runs is about.
 */
module Transactions {
  import opened Model

  const DEFAULT_LEASE_TTL := 300
  const LEASE_GRACE := 600
  const RENEW_WINDOW := 900
  const KILL_REDELIVER := 30
  const RECOVERY_WINDOW := 3600
  const RECOVERY_LIMIT := 3

  // ----- Assignment and release (allocate.go)

  datatype AssignOutcome = Placed | NoDevice | NoLongerQueued

  function AssignOutcomeOf(db: Db, j: string, d: string): AssignOutcome {
    if !(d in db.devices && db.devices[d].state.Ready?) then NoDevice
    else if !(j in db.jobs && db.jobs[j].state.Queued?) then NoLongerQueued
    else Placed
  }

  function Runtime(db: Db, j: string, d: string): int
    requires j in db.jobs && d in db.devices
  {
    if db.jobs[j].runtime == 0 && db.devices[d].ceiling > 0 then db.devices[d].ceiling else db.jobs[j].runtime
  }

  function Assign(db: Db, j: string, d: string, now: int): Db {
    if AssignOutcomeOf(db, j, d) != Placed then db
    else
      var ttl := Runtime(db, j, d);
      var expires := now + if ttl > 0 then ttl + LEASE_GRACE else DEFAULT_LEASE_TTL;
      db.(devices := db.devices[d := db.devices[d].(state := Busy)],
          jobs := db.jobs[j := db.jobs[j].(state := Assigned, device := d, worker := db.devices[d].worker, runtime := ttl)],
          leases := db.leases[db.nextLease := Lease(d, j, now, expires, db.jobs[j].kind, true)],
          reservations := db.reservations - {d},
          nextLease := db.nextLease + 1)
  }

  function MarkRunning(db: Db, j: string): Db {
    if j in db.jobs && db.jobs[j].state.Assigned? then
      db.(jobs := db.jobs[j := db.jobs[j].(state := Running)])
    else db
  }

  /** The leases after every live lease of a job in js is released. */
  function ReleasedFor(leases: map<nat, Lease>, js: set<string>): map<nat, Lease> {
    map l | l in leases :: if leases[l].job in js then leases[l].(live := false) else leases[l]
  }

  function Ended(job: Job, state: JobState, reason: string, now: int): Job {
    job.(state := state, killReason := reason, finishedAt := now)
  }

  /** Store.Release, which trusts its caller about who owns the job. */
  function Release(db: Db, j: string, state: JobState, reason: string, now: int): Db {
    if !state.Terminal() || j !in db.jobs || db.jobs[j].state.Terminal() then db
    else
      var d := db.jobs[j].device;
      db.(jobs := db.jobs[j := Ended(db.jobs[j], state, reason, now)],
          leases := ReleasedFor(db.leases, {j}),
          devices := if d in db.devices && db.devices[d].state.Busy?
                     then db.devices[d := db.devices[d].(state := Ready)] else db.devices)
  }

  /** The ownership guard of handleJobStatus. */
  predicate Owns(db: Db, w: string, j: string) {
    w != "" && j in db.jobs && db.jobs[j].worker == w
  }

  function Report(db: Db, w: string, j: string, state: JobState, reason: string, now: int): Db {
    if !Owns(db, w, j) then db
    else if state.Running? then MarkRunning(db, j)
    else Release(db, j, state, reason, now)
  }

  // ----- Cancelling and killing (queue.go)

  /** The first statement of CancelQueued; the second is Unreserve. */
  function CancelQueued(db: Db, j: string, reason: string, now: int): Db {
    if j in db.jobs && db.jobs[j].state.Queued? then
      db.(jobs := db.jobs[j := Ended(db.jobs[j], Killed, reason, now)])
    else db
  }

  function Unreserve(db: Db, j: string): Db {
    db.(reservations := map d | d in db.reservations && db.reservations[d] != j :: db.reservations[d])
  }

  datatype KillOutcome = NotCancellable | Requested | Finalized

  /** The job's device is out of the controller's reach. */
  predicate Disconnected(db: Db, d: string) {
    && d in db.devices
    && (db.devices[d].state.Unknown? || (db.devices[d].state.Unhealthy? && db.devices[d].reason == WorkerLost))
  }

  function KillOutcomeOf(db: Db, j: string, finalize: bool): KillOutcome {
    if !Active(db, j) then NotCancellable
    else if finalize && Disconnected(db, db.jobs[j].device) then Finalized
    else Requested
  }

  function RequestKill(db: Db, j: string, reason: string, finalize: bool, now: int): Db {
    match KillOutcomeOf(db, j, finalize)
    case NotCancellable => db
    case Requested => db.(jobs := db.jobs[j := db.jobs[j].(killRequested := true, killDeliveredAt := 0)])
    case Finalized =>
      db.(jobs := db.jobs[j := Ended(db.jobs[j], Killed, reason, now).(killRequested := true, killDeliveredAt := 0)],
          leases := ReleasedFor(db.leases, {j}))
  }

  predicate KillDue(db: Db, w: string, now: int, j: string) {
    && j in db.jobs && db.jobs[j].worker == w && db.jobs[j].killRequested
    && (db.jobs[j].state.Active() || db.jobs[j].state.Killed?)
    && db.jobs[j].killDeliveredAt <= now - KILL_REDELIVER
  }

  function TakeKills(db: Db, w: string, now: int): Db {
    db.(jobs := map j | j in db.jobs ::
      if KillDue(db, w, now, j) then db.jobs[j].(killDeliveredAt := now) else db.jobs[j])
  }

  // ----- The sweep (reaper.go)

  datatype SweepArgs = SweepArgs(grace: int, unhealthyAfter: int, holdOffUntil: int, retain: bool)

  predicate Judging(a: SweepArgs, now: int) {
    now >= a.holdOffUntil
  }

  predicate Silent(db: Db, d: string, limit: int, now: int) {
    && d in db.devices && db.devices[d].worker in db.workers
    && now - db.workers[db.devices[d].worker].heartbeat >= limit
  }

  /** The sweep concludes that d's worker is gone. */
  predicate WrittenOff(db: Db, a: SweepArgs, now: int, d: string) {
    Judging(a, now) && Silent(db, d, a.unhealthyAfter, now)
  }

  predicate Reaped(db: Db, a: SweepArgs, now: int, j: string) {
    !a.retain && Active(db, j) && WrittenOff(db, a, now, db.jobs[j].device)
  }

  /** The sweep releases lease l because its deadline passed. */
  predicate Stale(db: Db, a: SweepArgs, now: int, l: nat) {
    && Judging(a, now) && l in db.leases && db.leases[l].live && db.leases[l].expires <= now
    && (a.retain ==> !db.leases[l].kind.JobKind?)
    && !Reaped(db, a, now, db.leases[l].job)
  }

  predicate LapsedOn(db: Db, a: SweepArgs, now: int, d: string) {
    exists l :: l in db.leases && Stale(db, a, now, l) && db.leases[l].device == d
  }

  predicate LapsedFor(db: Db, a: SweepArgs, now: int, j: string) {
    j != "" && exists l :: l in db.leases && Stale(db, a, now, l) && db.leases[l].job == j
  }

  function Demoted(db: Db, a: SweepArgs, now: int, d: string): Device
    requires d in db.devices
  {
    var v := db.devices[d];
    if WrittenOff(db, a, now, d) then
      if v.state.Unhealthy? then v else v.(state := Unhealthy, reason := WorkerLost)
    else if Silent(db, d, a.grace, now) && (v.state.Ready? || v.state.Busy?) then
      v.(state := Unknown, reason := NoReason)
    else v
  }

  function Expire(v: Device): Device {
    v.(state := Unhealthy, reason := if v.state.Unhealthy? then v.reason else LeaseExpired)
  }

  function SweptDevice(db: Db, a: SweepArgs, now: int, d: string): Device
    requires d in db.devices
  {
    var v := Demoted(db, a, now, d);
    if LapsedOn(db, a, now, d) then Expire(v) else v
  }

  function SweptJob(db: Db, a: SweepArgs, now: int, j: string): Job
    requires j in db.jobs
  {
    if Reaped(db, a, now, j) then Ended(db.jobs[j], Lost, "worker lost", now)
    else if Active(db, j) && LapsedFor(db, a, now, j) then Ended(db.jobs[j], Lost, "lease expired", now)
    else db.jobs[j]
  }

  function SweptLease(db: Db, a: SweepArgs, now: int, l: nat): Lease
    requires l in db.leases
  {
    if Reaped(db, a, now, db.leases[l].job) || Stale(db, a, now, l) then db.leases[l].(live := false) else db.leases[l]
  }

  function Sweep(db: Db, a: SweepArgs, now: int): Db {
    db.(devices := map d | d in db.devices :: SweptDevice(db, a, now, d),
        jobs := map j | j in db.jobs :: SweptJob(db, a, now, j),
        leases := map l | l in db.leases :: SweptLease(db, a, now, l))
  }

  // ----- Heartbeats (reaper.go)

  predicate Named(db: Db, w: string, running: set<string>, j: string) {
    Active(db, j) && db.jobs[j].worker == w && j in running
  }

  predicate NamedOn(db: Db, w: string, running: set<string>, d: string) {
    exists j :: j in db.jobs && Named(db, w, running, j) && db.jobs[j].device == d
  }

  /** A job the worker names holds d by a live lease of its own. */
  predicate NamedHolding(db: Db, w: string, running: set<string>, d: string) {
    exists j, l :: j in db.jobs && l in db.leases
                   && Named(db, w, running, j) && db.jobs[j].device == d && HeldBy(db, l, j)
  }

  /** A killed job on d whose worker still claims to supervise it. */
  predicate KillPending(db: Db, w: string, running: set<string>, d: string) {
    exists j :: j in db.jobs && j in running && db.jobs[j].worker == w && db.jobs[j].state.Killed?
                && db.jobs[j].killRequested && db.jobs[j].device == d
  }

  function BeatDevice(db: Db, w: string, running: set<string>, retain: bool, d: string): Device
    requires d in db.devices
  {
    var v := db.devices[d];
    if v.worker != w then v
    else if v.state.Unhealthy? && v.reason == WorkerLost && NamedOn(db, w, running, d) then
      v.(state := Busy, reason := NoReason, detail := "")
    else if v.state.Unknown? then
      if if retain then NamedHolding(db, w, running, d) else Leased(db, d) then v.(state := Busy)
      else if !Leased(db, d) && !KillPending(db, w, running, d) then v.(state := Ready)
      else v
    else v
  }

  function BeatJob(w: string, running: set<string>, job: Job, j: string): Job {
    if job.worker == w && job.state.Killed? && job.killRequested && j !in running
    then job.(killRequested := false) else job
  }

  function Heartbeat(db: Db, w: string, running: set<string>, retain: bool, now: int): Db {
    db.(workers := if w in db.workers then db.workers[w := db.workers[w].(heartbeat := now)] else db.workers,
        leases := map l | l in db.leases ::
          if db.leases[l].live && Named(db, w, running, db.leases[l].job)
          then db.leases[l].(expires := now + RENEW_WINDOW) else db.leases[l],
        jobs := map j | j in db.jobs :: BeatJob(w, running, db.jobs[j], j),
        devices := map d | d in db.devices :: BeatDevice(db, w, running, retain, d))
  }

  // ----- Registration (store.go, recover.go)

  predicate Rebooted(db: Db, w: string, boot: string) {
    w in db.workers && db.workers[w].boot != "" && boot != "" && db.workers[w].boot != boot
  }

  function InFlight(db: Db, w: string): set<string> {
    set j | j in db.jobs && Active(db, j) && db.jobs[j].worker == w
  }

  predicate Orphaned(db: Db, w: string, d: string) {
    exists j :: j in InFlight(db, w) && db.jobs[j].device == d
  }

  function Reap(v: Device, rebooted: bool): Device {
    if !rebooted then v.(state := Unhealthy, reason := if v.state.Unhealthy? then v.reason else Registration)
    else if v.state.Busy? || v.state.Unknown? then v.(state := Ready, reason := NoReason, detail := "")
    else v
  }

  function ReapedDevice(db: Db, w: string, rebooted: bool, d: string): Device
    requires d in db.devices
  {
    if Orphaned(db, w, d) then Reap(db.devices[d], rebooted) else db.devices[d]
  }

  /** Everything the worker's previous process left in flight is written off. */
  function ReapInFlight(db: Db, w: string, rebooted: bool, now: int): Db {
    var js := InFlight(db, w);
    db.(jobs := map j | j in db.jobs ::
          if j in js then Ended(db.jobs[j], Lost, if rebooted then "host rebooted" else "worker re-registered", now)
          else db.jobs[j],
        leases := ReleasedFor(db.leases, js),
        devices := map d | d in db.devices :: ReapedDevice(db, w, rebooted, d))
  }

  function Cleared(v: Device): Device {
    v.(state := Ready, reason := NoReason, detail := "")
  }

  /** A quarantine of worker w that a proof about its processes answers. guard: the lease table is consulted. */
  predicate Revivable(db: Db, w: string, guard: bool, d: string) {
    && d in db.devices && db.devices[d].worker == w && db.devices[d].state.Unhealthy?
    && Clearable(db.devices[d].reason) && (guard ==> !Leased(db, d))
  }

  function RestoreRebooted(db: Db, w: string, guard: bool): Db {
    db.(devices := map d | d in db.devices ::
      if Revivable(db, w, guard, d) then Cleared(db.devices[d]) else db.devices[d])
  }

  function Declared(v: Device, w: string): Device {
    v.(worker := w,
       state := if v.state.Unhealthy? then Unhealthy else Ready,
       reason := if v.state.Unhealthy? then v.reason else NoReason)
  }

  function Declare(devices: map<string, Device>, w: string, ds: set<string>): map<string, Device> {
    map d | d in devices.Keys + ds ::
      if d !in devices then Device(w, Ready, NoReason, "", 0)
      else if d in ds then Declared(devices[d], w)
      else devices[d]
  }

  function UpsertWith(db: Db, w: string, boot: string, ds: set<string>, now: int, guard: bool): Db {
    var rebooted := Rebooted(db, w, boot);
    var reaped := ReapInFlight(db.(workers := db.workers[w := Worker(boot, now)]), w, rebooted, now);
    var restored := if rebooted then RestoreRebooted(reaped, w, guard) else reaped;
    restored.(devices := Declare(restored.devices, w, ds))
  }

  function Upsert(db: Db, w: string, boot: string, ds: set<string>, now: int): Db {
    UpsertWith(db, w, boot, ds, now, true)
  }

  function SetCeiling(db: Db, d: string, ceiling: int): Db {
    if d in db.devices then db.(devices := db.devices[d := db.devices[d].(ceiling := ceiling)]) else db
  }

  function Recent(h: seq<Recovery>, cutoff: int): seq<Recovery> {
    if h == [] then []
    else
      var rest := Recent(h[..|h| - 1], cutoff);
      if h[|h| - 1].at < cutoff then rest else rest + [h[|h| - 1]]
  }

  /** d has automatic returns left inside the sliding window. */
  predicate Budget(db: Db, d: string, now: int) {
    |Recent(History(db, d), now - RECOVERY_WINDOW)| < RECOVERY_LIMIT
  }

  function RecoverWith(db: Db, w: string, p: Proof, now: int, guard: bool): Db {
    if !p.Proves() then db
    else
      db.(devices := map d | d in db.devices ::
            if Revivable(db, w, guard, d) && Budget(db, d, now) then Cleared(db.devices[d]) else db.devices[d],
          recoveries := map d | d in db.recoveries.Keys + (set e | e in db.devices && Revivable(db, w, guard, e)) ::
            if Revivable(db, w, guard, d) then
              Recent(History(db, d), now - RECOVERY_WINDOW)
              + (if Budget(db, d, now) then [Recovery(now, db.devices[d].reason)] else [])
            else History(db, d))
  }

  function AutoRecover(db: Db, w: string, p: Proof, now: int): Db {
    RecoverWith(db, w, p, now, true)
  }

  // ----- Devices taken out and put back (store.go, reaper.go, retire.go)

  function SetDeviceState(db: Db, d: string, state: DeviceState, detail: string): Db {
    if d !in db.devices then db
    else
      var bad := state.Unhealthy?;
      db.(devices := db.devices[d := db.devices[d].(
        state := state, reason := if bad then Fault else NoReason, detail := if bad then detail else "")])
  }

  predicate CanClear(db: Db, d: string) {
    d in db.devices && db.devices[d].state.Unhealthy? && !Leased(db, d)
  }

  function ClearDevice(db: Db, d: string): Db {
    if CanClear(db, d) then db.(devices := db.devices[d := Cleared(db.devices[d])]) else db
  }

  predicate CanRetire(db: Db, d: string) {
    d in db.devices && !Leased(db, d)
  }

  function RetireDevice(db: Db, d: string): Db {
    if !CanRetire(db, d) then db
    else
      db.(devices := db.devices - {d},
          detected := db.detected - {d},
          declared := db.declared - {d},
          reservations := db.reservations - {d},
          leases := map l | l in db.leases && db.leases[l].device != d :: db.leases[l])
  }
}
