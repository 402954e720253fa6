/**
 The queue (internal/store/queue.go): what a submission records, the order
 jobs are scheduled in, the devices a job may land on, and the position a
 client is told.
 */
module Queue {
  import opened Wrappers
  import opened Model
  import opened Transactions
  import opened Ordering
  import Selector

  // ----- Submission

  datatype Request = Request(
    device: string, selector: string, command: seq<string>, submitter: string, key: string,
    priority: int, runtime: int, kind: Kind)

  datatype SubmitError =
    | CommandRequired | SubmitterRequired | BothTargets | NoTarget
    | BadSelector(cause: Selector.Error) | NoMatchingDevice | UnknownDevice | AboveCeiling | DuplicateId

  /** Labels the scheduler matches against: a detected value wins over a declared one. */
  function Effective(db: Db, d: string): Labels {
    (if d in db.declared then db.declared[d] else map[]) + (if d in db.detected then db.detected[d] else map[])
  }

  /** MatchingDevices: labels and devices are read one after the other. */
  function MatchingIds(labels: Db, devices: Db, q: Selector.Quantities, ts: Selector.Terms): set<string> {
    set d | d in devices.devices && Selector.Matches(q, ts, Effective(labels, d))
  }

  /** A device gone since it was listed declares no ceiling. */
  function CeilingOf(db: Db, d: string): int {
    if d in db.devices then db.devices[d].ceiling else 0
  }

  /** ceilingFilter: a device with no ceiling, or one high enough, or a job that asked for nothing. */
  predicate Tolerates(ceilings: Db, d: string, runtime: int) {
    runtime <= 0 || CeilingOf(ceilings, d) == 0 || CeilingOf(ceilings, d) >= runtime
  }

  predicate HasKey(db: Db, key: string) {
    key != "" && exists j :: j in db.jobs && db.jobs[j].key == key
  }

  /** What a submission reads before its transaction opens, each at a time of its own. */
  datatype Seen = Seen(labels: Db, devices: Db, ceilings: Db)

  /** Everything checked before the idempotency key is looked up. */
  function Screen(seen: Seen, q: Selector.Quantities, r: Request): Result<string, SubmitError> {
    if r.command == [] then Err(CommandRequired)
    else if r.submitter == "" then Err(SubmitterRequired)
    else if r.device != "" && r.selector != "" then Err(BothTargets)
    else if r.device == "" && r.selector == "" then Err(NoTarget)
    else if r.selector == "" then Ok("")
    else
      match Selector.Parse(r.selector)
      case Err(e) => Err(BadSelector(e))
      case Ok(ts) =>
        var ids := MatchingIds(seen.labels, seen.devices, q, ts);
        if ids == {} then Err(NoMatchingDevice)
        else if !(exists d :: d in ids && Tolerates(seen.ceilings, d, r.runtime)) then Err(AboveCeiling)
        else Ok(Selector.Print(ts))
  }

  /** The runtime a pinned job is queued with: its own, or its device's ceiling. */
  function PinnedRuntime(db: Db, r: Request): Result<int, SubmitError> {
    if r.device == "" then Ok(r.runtime)
    else if r.device !in db.devices then Err(UnknownDevice)
    else
      var c := db.devices[r.device].ceiling;
      if c <= 0 then Ok(r.runtime)
      else if r.runtime > c then Err(AboveCeiling)
      else Ok(if r.runtime == 0 then c else r.runtime)
  }

  datatype Submission = Rejected(error: SubmitError) | Existing | Recorded(job: Job)

  /** The transaction of a submission whose target text passed the screening. */
  function Accepted(db: Db, selector: string, r: Request, now: int): Submission {
    if HasKey(db, r.key) then Existing
    else
      match PinnedRuntime(db, r)
      case Err(e) => Rejected(e)
      case Ok(runtime) =>
        Recorded(Job(Queued, selector, r.device, "", r.submitter, r.key, r.priority, now, db.nextRow,
                     runtime, r.kind, false, 0, "", 0))
  }

  /** It inserts the row under the random identifier id, and fails if there is one already. */
  function Entered(db: Db, selector: string, id: string, r: Request, now: int): (Db, Submission) {
    var s := Accepted(db, selector, r, now);
    if !s.Recorded? then (db, s)
    else if id == "" || id in db.jobs then (db, Rejected(DuplicateId))
    else (db.(jobs := db.jobs[id := s.job], nextRow := db.nextRow + 1), s)
  }

  /** seen is what the screening read; the transaction itself runs on db. */
  function Submitted(db: Db, seen: Seen, q: Selector.Quantities, r: Request, now: int): Submission {
    match Screen(seen, q, r)
    case Err(e) => Rejected(e)
    case Ok(selector) => Accepted(db, selector, r, now)
  }

  /** Enqueue, with id the new job's random identifier. */
  function Submit(db: Db, seen: Seen, q: Selector.Quantities, id: string, r: Request, now: int): Db {
    match Screen(seen, q, r)
    case Err(_) => db
    case Ok(selector) => Entered(db, selector, id, r, now).0
  }

  // ----- Scheduling order

  /** priority DESC, queued_at, rowid */
  predicate Ahead(a: Job, b: Job) {
    || a.priority > b.priority
    || (a.priority == b.priority && (a.queuedAt < b.queuedAt || (a.queuedAt == b.queuedAt && a.row < b.row)))
  }

  ghost predicate RowsDistinct(db: Db) {
    forall i, j :: i in db.jobs && j in db.jobs && db.jobs[i].row == db.jobs[j].row ==> i == j
  }

  function Order(db: Db): (string, string) -> bool {
    (i, j) => i in db.jobs && j in db.jobs && Ahead(db.jobs[i], db.jobs[j])
  }

  function QueuedSet(db: Db): set<string> {
    set j | j in db.jobs && db.jobs[j].state.Queued?
  }

  lemma OrderMeans(db: Db)
    ensures forall i, j :: Order(db)(i, j) <==> i in db.jobs && j in db.jobs && Ahead(db.jobs[i], db.jobs[j])
  {
  }

  lemma OrderIsTotal(db: Db, s: set<string>)
    requires RowsDistinct(db) && s <= db.jobs.Keys
    ensures StrictTotal(s, Order(db))
  {
    OrderMeans(db);
    var before := Order(db);
    forall x | x in s ensures !before(x, x) { assert x in db.jobs; }
    forall x, y, z | x in s && y in s && z in s && before(x, y) && before(y, z) ensures before(x, z) {
      assert x in db.jobs && y in db.jobs && z in db.jobs;
    }
    forall x, y | x in s && y in s && x != y ensures before(x, y) || before(y, x) {
      assert x in db.jobs && y in db.jobs;
    }
  }

  /** QueuedJobs */
  ghost function QueueOrder(db: Db): (r: seq<string>)
    requires RowsDistinct(db)
    ensures forall j :: j in r <==> j in QueuedSet(db)
    ensures forall i :: 0 <= i < |r| ==> r[i] in db.jobs && db.jobs[r[i]].state.Queued?
    ensures |r| == |QueuedSet(db)|
  {
    OrderIsTotal(db, QueuedSet(db));
    var r := Listed(QueuedSet(db), Order(db));
    assert forall i :: 0 <= i < |r| ==> r[i] in r;
    r
  }

  // ----- Positions

  /** The jobs QueuePosition counts as ahead of j. A job's queued_at reads back as 0 unless positive. */
  function AheadOf(db: Db, j: string): set<string>
    requires j in db.jobs
  {
    var x := db.jobs[j];
    var at := if x.queuedAt > 0 then x.queuedAt else 0;
    set i | i in db.jobs && db.jobs[i].state.Queued? && (x.selector != "" || db.jobs[i].device == x.device)
            && (|| db.jobs[i].priority > x.priority
                || (db.jobs[i].priority == x.priority
                    && (db.jobs[i].queuedAt < at || (db.jobs[i].queuedAt == at && db.jobs[i].row < x.row))))
  }

  function QueuePosition(db: Db, j: string): nat
    requires j in db.jobs
  {
    if db.jobs[j].state.Queued? then |AheadOf(db, j)| + 1 else 0
  }

  /** How many of the first n queue entries carry device d (the per-device counter of rc ps). */
  function CountOn(db: Db, r: seq<string>, d: string, n: nat): nat
    requires n <= |r| && forall j :: j in r ==> j in db.jobs
  {
    if n == 0 then 0 else CountOn(db, r, d, n - 1) + (if db.jobs[r[n - 1]].device == d then 1 else 0)
  }

  lemma {:induction false} CountIsCard(db: Db, r: seq<string>, d: string, n: nat)
    requires n <= |r| && (forall j :: j in r ==> j in db.jobs) && InOrder(r, Order(db))
    ensures CountOn(db, r, d, n) == |set j | j in Elements(r[..n]) && db.jobs[j].device == d|
  {
    if n > 0 {
      CountIsCard(db, r, d, n - 1);
      NotBefore(db, r, n - 1);
      CardNext(db, r, d, n - 1);
    }
  }

  lemma CardNext(db: Db, r: seq<string>, d: string, n: nat)
    requires n < |r| && (forall j :: j in r ==> j in db.jobs) && r[n] !in r[..n]
    ensures |set j | j in Elements(r[..n + 1]) && db.jobs[j].device == d|
         == |set j | j in Elements(r[..n]) && db.jobs[j].device == d| + if db.jobs[r[n]].device == d then 1 else 0
  {
    assert r[..n + 1] == r[..n] + [r[n]];
    var a := set j | j in Elements(r[..n]) && db.jobs[j].device == d;
    var b := set j | j in Elements(r[..n + 1]) && db.jobs[j].device == d;
    assert b == if db.jobs[r[n]].device == d then a + {r[n]} else a;
  }

  /** An entry does not stand before itself. */
  lemma NotBefore(db: Db, r: seq<string>, i: nat)
    requires i < |r| && InOrder(r, Order(db))
    ensures r[i] !in r[..i]
  {
    OrderMeans(db);
    assert forall k :: 0 <= k < i ==> Order(db)(r[k], r[i]);
  }

  /** What stands before entry i of the queue. */
  lemma EarlierEntries(db: Db, i: nat)
    requires RowsDistinct(db) && i < |QueueOrder(db)|
    ensures var r := QueueOrder(db);
            Elements(r[..i]) == set y | y in QueuedSet(db) && Ahead(db.jobs[y], db.jobs[r[i]])
  {
    var s, r := QueuedSet(db), QueueOrder(db);
    OrderMeans(db);
    OrderIsTotal(db, s);
    ListedInOrder(s, Order(db));
    forall y ensures y in Elements(r[..i]) <==> y in s && Ahead(db.jobs[y], db.jobs[r[i]]) {
      if y in s {
        var k :| 0 <= k < |r| && r[k] == y;
        EarlierIfBefore(s, Order(db), r, k, i);
        assert k < i ==> r[..i][k] == y;
      }
      if y in r[..i] {
        var k :| 0 <= k < i && r[..i][k] == y;
        EarlierIfBefore(s, Order(db), r, k, i);
        assert r[k] in s;
      }
    }
  }

  /**
   The position a client is told is the true rank: of a selector job in the
   whole queue, of a pinned job among the entries that name its device.
   */
  lemma PositionIsRank(db: Db, i: nat)
    requires RowsDistinct(db) && i < |QueueOrder(db)| && db.jobs[QueueOrder(db)[i]].queuedAt >= 0
    ensures var r := QueueOrder(db);
            QueuePosition(db, r[i]) == 1 + (if db.jobs[r[i]].selector != "" then i else CountOn(db, r, db.jobs[r[i]].device, i))
  {
    var r := QueueOrder(db);
    var j := r[i];
    QueueInOrder(db);
    EarlierEntries(db, i);
    AheadIsEarlier(db, j, Elements(r[..i]));
    if db.jobs[j].selector != "" {
      OrderedCount(r[..i], Order(db));
    } else {
      CountIsCard(db, r, db.jobs[j].device, i);
    }
  }

  lemma AheadIsEarlier(db: Db, j: string, earlier: set<string>)
    requires j in db.jobs && db.jobs[j].queuedAt >= 0
    requires earlier == set y | y in QueuedSet(db) && Ahead(db.jobs[y], db.jobs[j])
    ensures AheadOf(db, j) == if db.jobs[j].selector != "" then earlier
                              else set y | y in earlier && db.jobs[y].device == db.jobs[j].device
  {
  }

  lemma QueueInOrder(db: Db)
    requires RowsDistinct(db)
    ensures InOrder(QueueOrder(db), Order(db))
    ensures forall x :: x in QueueOrder(db) ==> !Order(db)(x, x)
  {
    OrderMeans(db);
    OrderIsTotal(db, QueuedSet(db));
    ListedInOrder(QueuedSet(db), Order(db));
  }

  /** rc ps numbers entry i by counting entries of its device, itself included. */
  function PsPosition(db: Db, r: seq<string>, i: nat): nat
    requires i < |r| && forall j :: j in r ==> j in db.jobs
  {
    CountOn(db, r, db.jobs[r[i]].device, i + 1)
  }

  /** RenderJobs: one pass, one counter per device. */
  method PsPositions(db: Db, r: seq<string>) returns (out: seq<nat>)
    requires forall j :: j in r ==> j in db.jobs
    ensures |out| == |r| && forall i :: 0 <= i < |r| ==> out[i] == PsPosition(db, r, i)
  {
    var position: map<string, nat> := map[];
    out := [];
    for n := 0 to |r|
      invariant |out| == n && forall i :: 0 <= i < n ==> out[i] == PsPosition(db, r, i)
      invariant forall d :: (if d in position then position[d] else 0) == CountOn(db, r, d, n)
    {
      var d := db.jobs[r[n]].device;
      position := position[d := (if d in position then position[d] else 0) + 1];
      out := out + [position[d]];
    }
  }

  lemma {:induction false} CountAtMost(db: Db, r: seq<string>, d: string, n: nat)
    requires n <= |r| && forall j :: j in r ==> j in db.jobs
    ensures CountOn(db, r, d, n) <= n
    ensures CountOn(db, r, d, n) == n <==> forall k :: 0 <= k < n ==> db.jobs[r[k]].device == d
  {
    if n > 0 { CountAtMost(db, r, d, n - 1); }
  }

  /**
   rc ps agrees with the controller on every pinned job. On a selector job it
   shows a position no larger, and the same one exactly when no pinned job is
   ahead.
   */
  lemma PsAgreement(db: Db, i: nat)
    requires RowsDistinct(db) && i < |QueueOrder(db)| && db.jobs[QueueOrder(db)[i]].queuedAt >= 0
    requires forall j :: j in QueuedSet(db) ==> (db.jobs[j].selector != "" <==> db.jobs[j].device == "")
    ensures var r := QueueOrder(db);
            && (db.jobs[r[i]].selector == "" ==> PsPosition(db, r, i) == QueuePosition(db, r[i]))
            && (db.jobs[r[i]].selector != "" ==>
                  && PsPosition(db, r, i) <= QueuePosition(db, r[i])
                  && (PsPosition(db, r, i) == QueuePosition(db, r[i]) <==>
                      forall k :: 0 <= k < i ==> db.jobs[r[k]].selector != ""))
  {
    var r := QueueOrder(db);
    PositionIsRank(db, i);
    CountAtMost(db, r, db.jobs[r[i]].device, i);
    assert r[i] in QueuedSet(db);
    forall k | 0 <= k < i ensures db.jobs[r[k]].selector != "" <==> db.jobs[r[k]].device == "" {
      assert r[k] in QueuedSet(db);
    }
  }

  // ----- What the functions above come to

  /** A device has a label when a probe detected it or an operator declared it, and the probe's value counts. */
  lemma EffectiveMeans(db: Db, d: string, k: string)
    ensures var found := d in db.detected && k in db.detected[d];
            var told := d in db.declared && k in db.declared[d];
            && (k in Effective(db, d) <==> found || told)
            && (found ==> Effective(db, d)[k] == db.detected[d][k])
            && (!found && told ==> Effective(db, d)[k] == db.declared[d][k])
  {
  }

  /** The devices a selector's job may go to: in the table, with labels that match, and no ceiling below the runtime. */
  ghost predicate Suits(labels: Db, devices: Db, ceilings: Db, q: Selector.Quantities, ts: Selector.Terms, runtime: int, d: string) {
    && d in devices.devices && Selector.Matches(q, ts, Effective(labels, d))
    && (runtime > 0 && d in ceilings.devices && ceilings.devices[d].ceiling != 0 ==> ceilings.devices[d].ceiling >= runtime)
  }

  /** A request passes the screening exactly if it names a command, a submitter and one target, and its selector suits some device. */
  lemma ScreenPassesIff(seen: Seen, q: Selector.Quantities, r: Request)
    ensures Screen(seen, q, r).Ok? <==>
            && r.command != [] && r.submitter != "" && (r.device == "" <==> r.selector != "")
            && (r.selector != "" ==>
                  && Selector.Parse(r.selector).Ok?
                  && exists d :: Suits(seen.labels, seen.devices, seen.ceilings, q, Selector.Parse(r.selector).value, r.runtime, d))
    ensures Screen(seen, q, r).Ok? ==>
              Screen(seen, q, r).value == if r.selector == "" then "" else Selector.Print(Selector.Parse(r.selector).value)
  {
    hide Selector.Parse, Selector.Print, Selector.Matches, Effective;
    if r.selector != "" && Selector.Parse(r.selector).Ok? {
      var ts := Selector.Parse(r.selector).value;
      var ids := MatchingIds(seen.labels, seen.devices, q, ts);
      forall d ensures d in ids && Tolerates(seen.ceilings, d, r.runtime) <==> Suits(seen.labels, seen.devices, seen.ceilings, q, ts, r.runtime, d) {}
    }
  }

  /** A refusal names the first thing that is wrong with the request. */
  lemma RefusalsAreTrue(seen: Seen, q: Selector.Quantities, r: Request)
    requires Screen(seen, q, r).Err?
    ensures match Screen(seen, q, r).error
            case CommandRequired => r.command == []
            case SubmitterRequired => r.command != [] && r.submitter == ""
            case BothTargets => r.command != [] && r.submitter != "" && r.device != "" && r.selector != ""
            case NoTarget => r.command != [] && r.submitter != "" && r.device == "" && r.selector == ""
            case BadSelector(cause) =>
              r.command != [] && r.submitter != "" && r.device == "" && r.selector != "" && Selector.Parse(r.selector) == Err(cause)
            case NoMatchingDevice =>
              && r.command != [] && r.submitter != "" && r.device == "" && r.selector != "" && Selector.Parse(r.selector).Ok?
              && forall d :: d in seen.devices.devices ==> !Selector.Matches(q, Selector.Parse(r.selector).value, Effective(seen.labels, d))
            case AboveCeiling =>
              && r.command != [] && r.submitter != "" && r.device == "" && r.selector != "" && Selector.Parse(r.selector).Ok?
              && (exists d :: d in seen.devices.devices && Selector.Matches(q, Selector.Parse(r.selector).value, Effective(seen.labels, d)))
              && (forall d :: !Suits(seen.labels, seen.devices, seen.ceilings, q, Selector.Parse(r.selector).value, r.runtime, d))
            case _ => false
  {
    hide Selector.Parse, Selector.Print, Selector.Matches, Effective;
    if r.selector != "" && Selector.Parse(r.selector).Ok? {
      var ts := Selector.Parse(r.selector).value;
      var ids := MatchingIds(seen.labels, seen.devices, q, ts);
      forall d ensures d in ids && Tolerates(seen.ceilings, d, r.runtime) <==> Suits(seen.labels, seen.devices, seen.ceilings, q, ts, r.runtime, d) {}
      assert forall d :: d in ids <==> d in seen.devices.devices && Selector.Matches(q, ts, Effective(seen.labels, d));
    }
  }

  /**
   What the transaction of a submission leaves: nothing new if the key was
   used, the pinned device is unknown or its ceiling too low, or the id taken;
   otherwise the request as a queued job, last in order of insertion, with
   the ceiling of its device as runtime if it asked for none.
   */
  lemma SubmissionIsRecorded(db: Db, selector: string, id: string, r: Request, now: int)
    ensures var (x, res) := Entered(db, selector, id, r, now);
            var used := r.key != "" && exists j :: j in db.jobs && db.jobs[j].key == r.key;
            var unknown := r.device != "" && r.device !in db.devices;
            var above := r.device != "" && r.device in db.devices && 0 < db.devices[r.device].ceiling < r.runtime;
            && (res == Existing <==> used)
            && (!used ==> (res == Rejected(UnknownDevice) <==> unknown))
            && (!used ==> (res == Rejected(AboveCeiling) <==> above))
            && (!used && !unknown && !above ==> (res == Rejected(DuplicateId) <==> id == "" || id in db.jobs))
            && (!res.Recorded? ==> x == db)
            && (res.Recorded? <==> !used && !unknown && !above && id != "" && id !in db.jobs)
            && (res.Recorded? ==>
                  && x == db.(jobs := db.jobs[id := res.job], nextRow := db.nextRow + 1)
                  && res.job == Job(Queued, selector, r.device, "", r.submitter, r.key, r.priority, now, db.nextRow,
                                    res.job.runtime, r.kind, false, 0, "", 0)
                  && res.job.runtime == if r.device != "" && r.runtime == 0 && db.devices[r.device].ceiling > 0
                                        then db.devices[r.device].ceiling else r.runtime)
  {
  }

  /** Of two entries of the queue, the earlier has the higher priority, or the same and the earlier time, or both and the lower number. */
  lemma EarlierInQueue(db: Db, i: nat, k: nat)
    requires RowsDistinct(db) && i < k < |QueueOrder(db)|
    ensures var a, b := db.jobs[QueueOrder(db)[i]], db.jobs[QueueOrder(db)[k]];
            && a.priority >= b.priority
            && (a.priority == b.priority ==> a.queuedAt <= b.queuedAt)
            && (a.priority == b.priority && a.queuedAt == b.queuedAt ==> a.row < b.row)
  {
    QueueInOrder(db);
    OrderMeans(db);
    var r := QueueOrder(db);
    assert Order(db)(r[i], r[k]);
  }
}
