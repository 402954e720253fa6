/**
 The controller's tables (internal/store, internal/model). A table is a map
 from its primary key to a row; times are whole seconds, as the columns are.
 */
module Model {

  datatype DeviceState = Ready | Busy | Unknown | Unhealthy

  /** Why a device was quarantined; NoReason is the empty column. */
  datatype Reason = NoReason | Fault | WorkerLost | LeaseExpired | Registration

  datatype JobState = Queued | Assigned | Running | Succeeded | Failed | Killed | Lost {
    predicate Terminal() {
      Succeeded? || Failed? || Killed? || Lost?
    }

    predicate Active() {
      Assigned? || Running?
    }
  }

  datatype Kind = JobKind | HoldKind

  datatype Worker = Worker(boot: string, heartbeat: int)

  datatype Device = Device(worker: string, state: DeviceState, reason: Reason, detail: string, ceiling: int)

  /** row is SQLite's implicit rowid: the order of insertion. */
  datatype Job = Job(
    state: JobState, selector: string, device: string, worker: string, submitter: string, key: string,
    priority: int, queuedAt: int, row: nat, runtime: int, kind: Kind,
    killRequested: bool, killDeliveredAt: int, killReason: string, finishedAt: int)

  datatype Lease = Lease(device: string, job: string, acquired: int, expires: int, kind: Kind, live: bool)

  datatype Recovery = Recovery(at: int, reason: Reason)

  type Labels = map<string, string>

  datatype Db = Db(
    workers: map<string, Worker>,
    devices: map<string, Device>,
    jobs: map<string, Job>,
    leases: map<nat, Lease>,
    reservations: map<string, string>,
    recoveries: map<string, seq<Recovery>>,
    detected: map<string, Labels>,
    declared: map<string, Labels>,
    nextRow: nat,
    nextLease: nat)

  const EMPTY_DB := Db(map[], map[], map[], map[], map[], map[], map[], map[], 0, 0)

  /** What a worker can prove at registration about processes left behind. */
  datatype Proof = Proof(isolated: bool, survivorsChecked: bool, survivorsFound: bool) {
    predicate Proves() {
      isolated || (survivorsChecked && !survivorsFound)
    }
  }

  predicate Clearable(r: Reason) {
    r == WorkerLost || r == LeaseExpired || r == Registration
  }

  predicate Active(db: Db, j: string) {
    j in db.jobs && db.jobs[j].state.Active()
  }

  /** Some unreleased lease is on device d. */
  predicate Leased(db: Db, d: string) {
    exists l :: l in db.leases && db.leases[l].live && db.leases[l].device == d
  }

  predicate HeldBy(db: Db, l: nat, j: string) {
    l in db.leases && db.leases[l].live && db.leases[l].job == j
  }

  function History(db: Db, d: string): seq<Recovery> {
    if d in db.recoveries then db.recoveries[d] else []
  }
}
