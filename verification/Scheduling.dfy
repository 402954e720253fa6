/**
 One scheduling pass (ScheduleOnce). A pass is not a transaction: before each
 of its accesses to the database other transactions may run, a second pass
 among them. What it promises in spite of them, and what it amounts to when
 nothing comes between.
 */
module Scheduling {
  import opened Wrappers
  import opened Model
  import opened Transactions
  import opened Effects
  import opened Runs
  import opened Ordering
  import Queue
  import Selector

  // ----- The pass

  /** What happens before an access, and what the clock shows at it. */
  datatype Slot = Slot(now: int, others: Run)

  type Env = nat -> Slot

  /** Queue entry `entry` was assigned to a device. */
  datatype Grant = Grant(entry: nat, job: string, device: string)

  /** A pass under way: the tables, accesses made so far, and its local variables. wanted: each visited job's candidates. */
  datatype Pass = Pass(db: Db, tick: nat, reserved: set<string>, granted: seq<Grant>, wanted: seq<seq<string>>)

  function Turn(s: Pass, env: Env): Pass {
    var es := env(s.tick).others;
    s.(db := After(s.db, es, |es|), tick := s.tick + 1)
  }

  function TextOrder(): (string, string) -> bool {
    (a, b) => Selector.TextLte(a, b) && a != b
  }

  lemma TextOrderMeans()
    ensures forall a, b :: TextOrder()(a, b) <==> Selector.TextLte(a, b) && a != b
  {
  }

  lemma {:induction false} TextLteOrders(a: string, b: string, c: string)
    ensures Selector.TextLte(a, b) && Selector.TextLte(b, c) ==> Selector.TextLte(a, c)
    ensures Selector.TextLte(a, b) && Selector.TextLte(b, a) ==> a == b
    ensures Selector.TextLte(a, b) || Selector.TextLte(b, a)
  {
    if a != [] && b != [] {
      TextLteOrders(a[1..], b[1..], if c == [] then [] else c[1..]);
      assert a == [a[0]] + a[1..] && b == [b[0]] + b[1..];
    }
  }

  lemma TextIsTotal(s: set<string>)
    ensures StrictTotal(s, TextOrder())
  {
    TextOrderMeans();
    forall a, b, c ensures Selector.TextLte(a, b) && Selector.TextLte(b, c) ==> Selector.TextLte(a, c) { TextLteOrders(a, b, c); }
    forall a, b ensures Selector.TextLte(a, b) && Selector.TextLte(b, a) ==> a == b { TextLteOrders(a, b, []); }
    forall a, b ensures Selector.TextLte(a, b) || Selector.TextLte(b, a) { TextLteOrders(a, b, []); }
  }

  ghost function Sorted(ids: set<string>): (r: seq<string>)
    ensures forall d :: d in r <==> d in ids
  {
    TextIsTotal(ids);
    Listed(ids, TextOrder())
  }

  /** ceilingFilter */
  function Within(db: Db, ids: seq<string>, runtime: int): seq<string> {
    if ids == [] then []
    else
      var n := |ids| - 1;
      Within(db, ids[..n], runtime)
      + (if Queue.Tolerates(db, ids[n], runtime) then [ids[n]] else [])
  }

  /** MatchingDevices: the labels are read, and then the devices. */
  ghost function Matched(s: Pass, env: Env, q: Selector.Quantities, ts: Selector.Terms): (Pass, seq<string>) {
    var a := Turn(s, env);
    var b := Turn(a, env);
    (b, Sorted(Queue.MatchingIds(a.db, b.db, q, ts)))
  }

  /** A job's candidates: its device, or those that match, and then those whose ceilings, read last, allow it. */
  ghost function Choose(s: Pass, env: Env, q: Selector.Quantities, row: Job): (Pass, seq<string>) {
    if row.selector == "" then (s, [row.device])
    else
      match Selector.Parse(row.selector)
      case Err(_) => (s, [])
      case Ok(ts) =>
        var (b, ids) := Matched(s, env, q, ts);
        if row.runtime <= 0 || ids == [] then (b, ids)
        else (Turn(b, env), Within(Turn(b, env).db, ids, row.runtime))
  }

  function Free(ds: seq<string>, reserved: set<string>): seq<string> {
    if ds == [] then []
    else
      var n := |ds| - 1;
      Free(ds[..n], reserved) + (if ds[n] in reserved then [] else [ds[n]])
  }

  /** Each candidate in turn until one is free or the job is gone; the flag says the search is over. */
  function TryEach(s: Pass, env: Env, k: nat, j: string, ds: seq<string>): (Pass, bool)
    decreases |ds|
  {
    if ds == [] then (s, false)
    else
      var t := Turn(s, env);
      match AssignOutcomeOf(t.db, j, ds[0])
      case NoDevice => TryEach(t, env, k, j, ds[1..])
      case NoLongerQueued => (t, true)
      case Placed =>
        (t.(db := Transactions.Assign(t.db, j, ds[0], env(s.tick).now), granted := t.granted + [Grant(k, j, ds[0])]), true)
  }

  function ReserveEach(s: Pass, env: Env, j: string, ds: seq<string>): Pass {
    if ds == [] then s
    else
      var n := |ds| - 1;
      var t := Turn(ReserveEach(s, env, j, ds[..n]), env);
      t.(db := t.db.(reservations := t.db.reservations[ds[n] := j]), reserved := t.reserved + {ds[n]})
  }

  ghost function Visit(s: Pass, env: Env, q: Selector.Quantities, j: string, row: Job): Pass {
    var (c, ds) := Choose(s, env, q, row);
    var v := c.(wanted := c.wanted + [ds]);
    var free := Free(ds, v.reserved);
    if free == [] then v
    else
      var (t, done) := TryEach(v, env, |s.wanted|, j, free);
      if done then t else ReserveEach(t, env, j, free)
  }

  ghost function VisitAll(s: Pass, env: Env, q: Selector.Quantities, ids: seq<string>, rows: seq<Job>, n: nat): Pass
    requires n <= |ids| == |rows|
  {
    if n == 0 then s else Visit(VisitAll(s, env, q, ids, rows, n - 1), env, q, ids[n - 1], rows[n - 1])
  }

  /** Jobs stay in the table, and none returns to the queue. */
  ghost predicate Follows(a: Db, b: Db) {
    forall j :: j in a.jobs ==> j in b.jobs && (b.jobs[j].state.Queued? ==> a.jobs[j].state.Queued?)
  }

  lemma TurnFollows(s: Pass, env: Env)
    ensures Follows(s.db, Turn(s, env).db)
  {
    var es := env(s.tick).others;
    forall j | j in s.db.jobs
      ensures j in Turn(s, env).db.jobs && (Turn(s, env).db.jobs[j].state.Queued? ==> s.db.jobs[j].state.Queued?)
    {
      NeverRequeued(s.db, es, 0, |es|, j);
    }
  }

  /** QueuedJobs reads the ids at once and the rows one by one. */
  function ReadRows(s: Pass, env: Env, ids: seq<string>): (r: (Pass, seq<Job>))
    requires forall j :: j in ids ==> j in s.db.jobs
    ensures |r.1| == |ids| && Follows(s.db, r.0.db)
  {
    if ids == [] then (s, [])
    else
      var n := |ids| - 1;
      var (p, rows) := ReadRows(s, env, ids[..n]);
      var t := Turn(p, env);
      TurnFollows(p, env);
      assert ids[n] in ids;
      (t, rows + [t.db.jobs[ids[n]]])
  }

  /** The entries a pass works through: the queue at its first access. */
  ghost function Entries(db: Db, env: Env): seq<string>
    requires Ticketed(db)
  {
    RunIsTicketed(db, env(0).others, |env(0).others|);
    Queue.QueueOrder(Turn(Pass(db, 0, {}, [], []), env).db)
  }

  /** The pass once it has read the queue and dropped the reservations of the one before. */
  ghost function Begun(db: Db, env: Env): Pass
    requires Ticketed(db)
  {
    var t := Turn(ReadRows(Turn(Pass(db, 0, {}, [], []), env), env, Entries(db, env)).0, env);
    t.(db := t.db.(reservations := map[]))
  }

  ghost function Rows(db: Db, env: Env): (r: seq<Job>)
    requires Ticketed(db)
    ensures |r| == |Entries(db, env)|
  {
    ReadRows(Turn(Pass(db, 0, {}, [], []), env), env, Entries(db, env)).1
  }

  ghost function ScheduleOnce(db: Db, env: Env, q: Selector.Quantities): Pass
    requires Ticketed(db)
  {
    var ids := Entries(db, env);
    VisitAll(Begun(db, env), env, q, ids, Rows(db, env), |ids|)
  }

  // ----- No overtaking

  predicate Settled(db: Db, j: string) {
    j in db.jobs && !db.jobs[j].state.Queued?
  }

  lemma FollowsChain(a: Db, b: Db, c: Db)
    requires Follows(a, b) && Follows(b, c)
    ensures Follows(a, c)
  {
  }

  ghost predicate SameLocals(s: Pass, t: Pass) {
    t.reserved == s.reserved && t.granted == s.granted && t.wanted == s.wanted
  }

  lemma ChooseFollows(s: Pass, env: Env, q: Selector.Quantities, row: Job)
    ensures var (c, ds) := Choose(s, env, q, row); Follows(s.db, c.db) && SameLocals(s, c)
  {
    var a := Turn(s, env);
    var b := Turn(a, env);
    TurnFollows(s, env);
    TurnFollows(a, env);
    TurnFollows(b, env);
    FollowsChain(s.db, a.db, b.db);
    FollowsChain(s.db, b.db, Turn(b, env).db);
    hide Follows, After;
    assert Follows(s.db, s.db) by { FollowsSelf(s.db); }
  }

  lemma FollowsSelf(db: Db)
    ensures Follows(db, db)
  {
  }

  lemma {:induction false} TryFollows(s: Pass, env: Env, k: nat, j: string, ds: seq<string>)
    requires j in s.db.jobs
    ensures var (t, done) := TryEach(s, env, k, j, ds);
            && Follows(s.db, t.db) && t.reserved == s.reserved && t.wanted == s.wanted
            && (done ==> Settled(t.db, j))
            && (t.granted == s.granted || exists d :: d in ds && t.granted == s.granted + [Grant(k, j, d)])
    decreases |ds|
  {
    if ds != [] {
      var t := Turn(s, env);
      TurnFollows(s, env);
      hide After, Turn;
      if AssignOutcomeOf(t.db, j, ds[0]) == NoDevice {
        TryFollows(t, env, k, j, ds[1..]);
        FollowsChain(s.db, t.db, TryEach(t, env, k, j, ds[1..]).0.db);
      }
      assert ds[0] in ds;
    }
  }

  lemma {:induction false} ReserveFollows(s: Pass, env: Env, j: string, ds: seq<string>)
    ensures var t := ReserveEach(s, env, j, ds);
            && Follows(s.db, t.db) && t.granted == s.granted && t.wanted == s.wanted
            && t.reserved == s.reserved + Elements(ds)
  {
    if ds != [] {
      var n := |ds| - 1;
      ReserveFollows(s, env, j, ds[..n]);
      TurnFollows(ReserveEach(s, env, j, ds[..n]), env);
      assert Elements(ds) == Elements(ds[..n]) + {ds[n]} by { assert ds == ds[..n] + [ds[n]]; }
      hide After;
    }
  }

  lemma {:induction false} FreeMembers(ds: seq<string>, reserved: set<string>)
    ensures forall d :: d in Free(ds, reserved) <==> d in ds && d !in reserved
  {
    if ds != [] {
      FreeMembers(ds[..|ds| - 1], reserved);
      assert ds == ds[..|ds| - 1] + [ds[|ds| - 1]];
    }
  }

  /** Entry i, if still queued, has every candidate it asked for held. */
  ghost predicate Held(s: Pass, ids: seq<string>, i: nat)
    requires i < |s.wanted| <= |ids|
  {
    ids[i] in s.db.jobs && (Settled(s.db, ids[i]) || forall d :: d in s.wanted[i] ==> d in s.reserved)
  }

  /** No earlier entry that is still queued had asked for the device granted. */
  ghost predicate InTurn(s: Pass, ids: seq<string>, g: Grant)
    requires |s.wanted| <= |ids|
  {
    && g.entry < |s.wanted| && g.job == ids[g.entry]
    && forall i :: 0 <= i < g.entry ==> Settled(s.db, ids[i]) || g.device !in s.wanted[i]
  }

  ghost predicate Fair(s: Pass, ids: seq<string>) {
    && |s.wanted| <= |ids|
    && (forall i :: 0 <= i < |s.wanted| ==> Held(s, ids, i))
    && (forall g :: g in s.granted ==> InTurn(s, ids, g))
  }

  /** One visit: j, the next entry, asks for ds; it is granted only what nobody ahead holds. */
  lemma FairVisit(s: Pass, t: Pass, ids: seq<string>, ds: seq<string>, j: string)
    requires Fair(s, ids) && |s.wanted| < |ids| && ids[|s.wanted|] == j && j in t.db.jobs
    requires Follows(s.db, t.db) && s.reserved <= t.reserved && t.wanted == s.wanted + [ds]
    requires Settled(t.db, j) || forall d :: d in ds ==> d in t.reserved
    requires t.granted == s.granted || exists d :: d in ds && d !in s.reserved && t.granted == s.granted + [Grant(|s.wanted|, j, d)]
    ensures Fair(t, ids)
  {
    forall i | 0 <= i < |t.wanted| ensures Held(t, ids, i) {
      if i < |s.wanted| { assert Held(s, ids, i); }
    }
    forall g | g in t.granted ensures InTurn(t, ids, g) {
      forall i | 0 <= i < g.entry && i < |s.wanted| ensures Settled(t.db, ids[i]) || g.device !in t.wanted[i] {
        assert Held(s, ids, i);
        if g in s.granted { assert InTurn(s, ids, g); }
      }
      if g in s.granted { assert InTurn(s, ids, g); }
    }
  }

  lemma VisitIsFair(s: Pass, env: Env, q: Selector.Quantities, ids: seq<string>, row: Job)
    requires Fair(s, ids) && |s.wanted| < |ids| && ids[|s.wanted|] in s.db.jobs
    ensures var t := Visit(s, env, q, ids[|s.wanted|], row);
            Fair(t, ids) && |t.wanted| == |s.wanted| + 1 && Follows(s.db, t.db)
  {
    var j := ids[|s.wanted|];
    var (c, ds) := Choose(s, env, q, row);
    ChooseFollows(s, env, q, row);
    var v := c.(wanted := c.wanted + [ds]);
    var free := Free(ds, v.reserved);
    FreeMembers(ds, v.reserved);
    hide Fair, Choose, Free;
    if free == [] {
      assert forall d :: d in ds ==> d in v.reserved by { forall d | d in ds ensures d in v.reserved { assert d in free || d in v.reserved; } }
      FairVisit(s, v, ids, ds, j);
    } else {
      var (t, done) := TryEach(v, env, |s.wanted|, j, free);
      TryFollows(v, env, |s.wanted|, j, free);
      FollowsChain(s.db, v.db, t.db);
      if done {
        FairVisit(s, t, ids, ds, j);
      } else {
        ReserveFollows(t, env, j, free);
        FollowsChain(s.db, t.db, ReserveEach(t, env, j, free).db);
        FairVisit(s, ReserveEach(t, env, j, free), ids, ds, j);
      }
    }
  }

  lemma {:induction false} VisitsAreFair(s: Pass, env: Env, q: Selector.Quantities, ids: seq<string>, rows: seq<Job>, n: nat)
    requires n <= |ids| == |rows| && s.wanted == [] && s.granted == [] && forall j :: j in ids ==> j in s.db.jobs
    ensures var t := VisitAll(s, env, q, ids, rows, n);
            Fair(t, ids) && |t.wanted| == n && Follows(s.db, t.db)
  {
    hide Visit;
    if n > 0 {
      VisitsAreFair(s, env, q, ids, rows, n - 1);
      var t := VisitAll(s, env, q, ids, rows, n - 1);
      assert ids[n - 1] in ids;
      VisitIsFair(t, env, q, ids, rows[n - 1]);
      FollowsChain(s.db, t.db, Visit(t, env, q, ids[n - 1], rows[n - 1]).db);
    }
  }

  /**
   Whatever comes between its steps, a pass never gives a device to a job
   while a job earlier in its snapshot, still queued when the pass ends, had
   that device among its candidates.
   */
  lemma NoOvertaking(db: Db, env: Env, q: Selector.Quantities, g: Grant, i: nat)
    requires Ticketed(db) && g in ScheduleOnce(db, env, q).granted && i < g.entry
    ensures var f, ids := ScheduleOnce(db, env, q), Entries(db, env);
            && g.entry < |ids| == |f.wanted| && g.job == ids[g.entry] && ids[i] in f.db.jobs
            && (f.db.jobs[ids[i]].state.Queued? ==> g.device !in f.wanted[i])
  {
    var ids := Entries(db, env);
    var first := Turn(Pass(db, 0, {}, [], []), env);
    var (s, rows) := ReadRows(first, env, ids);
    var t := Turn(s, env);
    var u := t.(db := t.db.(reservations := map[]));
    RowsKeepLocals(first, env, ids);
    TurnFollows(s, env);
    FollowsChain(first.db, s.db, t.db);
    assert Follows(first.db, u.db);
    VisitsAreFair(u, env, q, ids, rows, |ids|);
    assert InTurn(ScheduleOnce(db, env, q), ids, g) && Held(ScheduleOnce(db, env, q), ids, i);
  }

  lemma {:induction false} RowsKeepLocals(s: Pass, env: Env, ids: seq<string>)
    requires forall j :: j in ids ==> j in s.db.jobs
    ensures SameLocals(s, ReadRows(s, env, ids).0)
  {
    if ids != [] { RowsKeepLocals(s, env, ids[..|ids| - 1]); }
  }

  // ----- A pass nothing comes between

  ghost predicate Alone(env: Env) {
    forall t :: env(t).others == []
  }

  function ReadySet(db: Db): set<string> {
    set d | d in db.devices && db.devices[d].state.Ready?
  }

  /** A job's candidates when labels, devices and ceilings are read from the same tables. */
  ghost function CandidatesOf(db: Db, q: Selector.Quantities, row: Job): seq<string> {
    if row.selector == "" then [row.device]
    else
      match Selector.Parse(row.selector)
      case Err(_) => []
      case Ok(ts) => Within(db, Sorted(Queue.MatchingIds(db, db, q, ts)), row.runtime)
  }

  function FirstReady(ds: seq<string>, ready: set<string>): Option<string> {
    if ds == [] then None else if ds[0] in ready then Some(ds[0]) else FirstReady(ds[1..], ready)
  }

  datatype Scan = Scan(ready: set<string>, picks: seq<Option<string>>)

  /** The simple scheduler: each job in order takes its first ready candidate. */
  function Greedy(ready: set<string>, wanted: seq<seq<string>>): (r: Scan)
    ensures |r.picks| == |wanted| && r.ready <= ready
  {
    if wanted == [] then Scan(ready, [])
    else
      var n := |wanted| - 1;
      var before := Greedy(ready, wanted[..n]);
      var pick := FirstReady(wanted[n], before.ready);
      Scan(if pick.Some? then before.ready - {pick.value} else before.ready, before.picks + [pick])
  }

  /** The picks as grants, in order. */
  function GrantsOf(ids: seq<string>, picks: seq<Option<string>>): seq<Grant>
    requires |picks| <= |ids|
  {
    if picks == [] then []
    else
      var n := |picks| - 1;
      GrantsOf(ids, picks[..n]) + (if picks[n].Some? then [Grant(n, ids[n], picks[n].value)] else [])
  }

  /** The first job left without a device that wants d. */
  function FirstWaiting(wanted: seq<seq<string>>, picks: seq<Option<string>>, d: string): Option<nat>
    requires |picks| == |wanted|
  {
    if wanted == [] then None
    else
      var n := |wanted| - 1;
      match FirstWaiting(wanted[..n], picks[..n], d)
      case Some(i) => Some(i)
      case None => if picks[n].None? && d in wanted[n] then Some(n) else None
  }

  lemma {:induction false} FirstWaitingIs(wanted: seq<seq<string>>, picks: seq<Option<string>>, d: string)
    requires |picks| == |wanted|
    ensures var r := FirstWaiting(wanted, picks, d);
            && (r.Some? ==> r.value < |wanted| && picks[r.value].None? && d in wanted[r.value])
            && (forall i :: 0 <= i < (if r.Some? then r.value else |wanted|) ==> !(picks[i].None? && d in wanted[i]))
  {
    if wanted != [] { FirstWaitingIs(wanted[..|wanted| - 1], picks[..|wanted| - 1], d); }
  }

  lemma {:induction false} FirstReadyIs(ds: seq<string>, ready: set<string>)
    ensures FirstReady(ds, ready).Some? ==> FirstReady(ds, ready).value in ds && FirstReady(ds, ready).value in ready
    ensures FirstReady(ds, ready).None? ==> forall d :: d in ds ==> d !in ready
  {
    if ds != [] { FirstReadyIs(ds[1..], ready); }
  }

  /** A job the simple scheduler left waiting wants nothing that is still ready. */
  lemma {:induction false} GreedyLeavesNothing(ready: set<string>, wanted: seq<seq<string>>, i: nat, d: string)
    requires i < |wanted| && Greedy(ready, wanted).picks[i].None? && d in wanted[i]
    ensures d !in Greedy(ready, wanted).ready
  {
    var n := |wanted| - 1;
    FirstReadyIs(wanted[n], Greedy(ready, wanted[..n]).ready);
    if i < n { GreedyLeavesNothing(ready, wanted[..n], i, d); }
  }

  lemma AloneTurn(s: Pass, env: Env)
    requires Alone(env)
    ensures Turn(s, env) == s.(tick := s.tick + 1)
  {
    assert env(s.tick).others == [];
  }

  // ----- What the scheduler's own steps leave of its grounds

  /** Same devices, labels and ceilings: the same candidates. */
  ghost predicate SameGrounds(a: Db, b: Db) {
    && b.devices.Keys == a.devices.Keys && b.detected == a.detected && b.declared == a.declared
    && forall d :: d in a.devices ==> b.devices[d].ceiling == a.devices[d].ceiling
  }

  lemma {:induction false} SameWithin(a: Db, b: Db, ids: seq<string>, runtime: int)
    requires SameGrounds(a, b)
    ensures Within(b, ids, runtime) == Within(a, ids, runtime)
  {
    if ids != [] { SameWithin(a, b, ids[..|ids| - 1], runtime); }
  }

  lemma {:induction false} WithinAll(db: Db, ids: seq<string>, runtime: int)
    requires runtime <= 0
    ensures Within(db, ids, runtime) == ids
  {
    if ids != [] { WithinAll(db, ids[..|ids| - 1], runtime); }
  }

  lemma SameMatching(a: Db, b: Db, q: Selector.Quantities, ts: Selector.Terms)
    requires SameGrounds(a, b)
    ensures Queue.MatchingIds(b, b, q, ts) == Queue.MatchingIds(a, a, q, ts)
  {
    forall d ensures Queue.Effective(b, d) == Queue.Effective(a, d) {}
    hide Queue.Effective;
  }

  lemma AloneChooses(s: Pass, env: Env, q: Selector.Quantities, row: Job, start: Db)
    requires Alone(env) && SameGrounds(start, s.db)
    ensures var (c, ds) := Choose(s, env, q, row);
            c.db == s.db && SameLocals(s, c) && ds == CandidatesOf(start, q, row)
  {
    hide Turn, Queue.MatchingIds, Sorted, SameGrounds;
    if row.selector != "" && Selector.Parse(row.selector).Ok? {
      var ts := Selector.Parse(row.selector).value;
      AloneTurn(s, env);
      AloneTurn(Turn(s, env), env);
      AloneTurn(Turn(Turn(s, env), env), env);
      SameMatching(start, s.db, q, ts);
      var ids := Sorted(Queue.MatchingIds(start, start, q, ts));
      SameWithin(start, s.db, ids, row.runtime);
      if row.runtime <= 0 { WithinAll(start, ids, row.runtime); }
    }
  }

  /** Job j went from the queue to the ready device d, and that is all. */
  ghost predicate Took(a: Db, b: Db, j: string, d: string) {
    && SameGrounds(a, b) && d in ReadySet(a) && ReadySet(b) == ReadySet(a) - {d}
    && b.devices.Keys == a.devices.Keys && (forall x :: x in a.devices && x != d ==> b.devices[x] == a.devices[x])
    && b.devices[d].state.Busy?
    && b.jobs.Keys == a.jobs.Keys && (forall i :: i in a.jobs && i != j ==> b.jobs[i] == a.jobs[i])
    && j in b.jobs && b.jobs[j].state.Assigned? && b.jobs[j].device == d
    && b.reservations == a.reservations - {d}
  }

  lemma AssignTakes(db: Db, j: string, d: string, now: int)
    requires AssignOutcomeOf(db, j, d) == Placed
    ensures Took(db, Transactions.Assign(db, j, d, now), j, d)
  {
  }

  lemma {:induction false} AloneTries(s: Pass, env: Env, k: nat, j: string, ds: seq<string>)
    requires Alone(env) && j in s.db.jobs && s.db.jobs[j].state.Queued?
    ensures var (t, done) := TryEach(s, env, k, j, ds);
            var pick := FirstReady(ds, ReadySet(s.db));
            && done == pick.Some? && t.reserved == s.reserved && t.wanted == s.wanted
            && (if pick.Some? then Took(s.db, t.db, j, pick.value) && t.granted == s.granted + [Grant(k, j, pick.value)]
                else t.db == s.db && t.granted == s.granted)
    decreases |ds|
  {
    if ds != [] {
      var t := Turn(s, env);
      AloneTurn(s, env);
      if ds[0] in ReadySet(s.db) {
        AssignTakes(t.db, j, ds[0], env(s.tick).now);
        hide Took, Transactions.Assign;
      } else {
        hide Took;
        AloneTries(t, env, k, j, ds[1..]);
      }
    }
  }

  /** t is s with the devices of ds held for j. */
  ghost predicate Reserved(s: Pass, t: Pass, j: string, ds: seq<string>) {
    && t.db == s.db.(reservations := t.db.reservations) && t.granted == s.granted && t.wanted == s.wanted
    && t.reserved == s.reserved + Elements(ds)
    && t.db.reservations.Keys == s.db.reservations.Keys + Elements(ds)
    && forall d :: d in t.db.reservations ==>
         t.db.reservations[d] == if d in ds then j else s.db.reservations[d]
  }

  lemma ReservedNext(s: Pass, p: Pass, j: string, ds: seq<string>, d: string)
    requires Reserved(s, p, j, ds)
    ensures Reserved(s, p.(tick := p.tick + 1, db := p.db.(reservations := p.db.reservations[d := j]), reserved := p.reserved + {d}), j, ds + [d])
  {
    assert Elements(ds + [d]) == Elements(ds) + {d};
  }

  lemma {:induction false} AloneReserves(s: Pass, env: Env, j: string, ds: seq<string>)
    requires Alone(env)
    ensures Reserved(s, ReserveEach(s, env, j, ds), j, ds)
  {
    hide After;
    if ds == [] {
      NothingReserved(s, j);
    } else {
      hide Reserved;
      var n := |ds| - 1;
      AloneReserves(s, env, j, ds[..n]);
      ReserveOneMore(s, env, j, ds);
      ReservedNext(s, ReserveEach(s, env, j, ds[..n]), j, ds[..n], ds[n]);
      hide ReserveEach;
      assert ds == ds[..n] + [ds[n]];
    }
  }

  lemma ReserveOneMore(s: Pass, env: Env, j: string, ds: seq<string>)
    requires Alone(env) && ds != []
    ensures var p, d := ReserveEach(s, env, j, ds[..|ds| - 1]), ds[|ds| - 1];
            ReserveEach(s, env, j, ds) == p.(tick := p.tick + 1, db := p.db.(reservations := p.db.reservations[d := j]), reserved := p.reserved + {d})
  {
    AloneTurn(ReserveEach(s, env, j, ds[..|ds| - 1]), env);
    hide Turn;
  }

  lemma NothingReserved(s: Pass, j: string)
    ensures Reserved(s, s, j, [])
  {
  }

  // ----- What the simple scheduler does

  lemma {:induction false} WithinMembers(db: Db, ids: seq<string>, runtime: int)
    ensures forall d :: d in Within(db, ids, runtime) <==> d in ids && Queue.Tolerates(db, d, runtime)
  {
    hide Queue.Tolerates;
    if ids != [] {
      var n := |ids| - 1;
      assert ids == ids[..n] + [ids[n]];
      WithinMembers(db, ids[..n], runtime);
    }
  }

  /** A job's candidates: its device, or every device that suits it. */
  lemma CandidatesMean(db: Db, q: Selector.Quantities, row: Job, d: string)
    ensures d in CandidatesOf(db, q, row) <==>
            if row.selector == "" then d == row.device
            else Selector.Parse(row.selector).Ok? && Queue.Suits(db, db, db, q, Selector.Parse(row.selector).value, row.runtime, d)
  {
    if row.selector != "" && Selector.Parse(row.selector).Ok? {
      var ts := Selector.Parse(row.selector).value;
      WithinMembers(db, Sorted(Queue.MatchingIds(db, db, q, ts)), row.runtime);
      hide Sorted, Within, Selector.Parse, Selector.Matches, Queue.Effective;
    }
  }

  /** How often they are read: not for a pinned job, twice for a selector, and a third time only for a runtime and a match. */
  lemma ChoiceAccesses(s: Pass, env: Env, q: Selector.Quantities, row: Job)
    ensures var t := Choose(s, env, q, row).0;
            && (row.selector == "" || Selector.Parse(row.selector).Err? ==> t.tick == s.tick)
            && (row.selector != "" && Selector.Parse(row.selector).Ok? ==>
                  t.tick == s.tick + if row.runtime > 0 && Matched(s, env, q, Selector.Parse(row.selector).value).1 != [] then 3 else 2)
  {
    hide After, Within, Sorted, Selector.Parse, Queue.MatchingIds;
  }

  /** They are listed once each, in the order of their ids. */
  lemma CandidatesInOrder(db: Db, q: Selector.Quantities, row: Job, i: nat, k: nat)
    requires i < k < |CandidatesOf(db, q, row)|
    ensures var r := CandidatesOf(db, q, row); r[i] != r[k] && Selector.Precedes(r[i], r[k])
  {
    var ids := Queue.MatchingIds(db, db, q, Selector.Parse(row.selector).value);
    TextIsTotal(ids);
    ListedInOrder(ids, TextOrder());
    WithinInOrder(db, Sorted(ids), row.runtime);
    var r := CandidatesOf(db, q, row);
    TextOrderMeans();
    assert TextOrder()(r[i], r[k]);
    Selector.TextLteMeans(r[i], r[k]);
  }

  lemma {:induction false} WithinInOrder(db: Db, ids: seq<string>, runtime: int)
    requires InOrder(ids, TextOrder())
    ensures InOrder(Within(db, ids, runtime), TextOrder())
  {
    if ids != [] {
      var n := |ids| - 1;
      WithinInOrder(db, ids[..n], runtime);
      WithinMembers(db, ids[..n], runtime);
      hide Queue.Tolerates;
      forall x | x in Within(db, ids[..n], runtime) ensures TextOrder()(x, ids[n]) {
        var k :| 0 <= k < n && ids[..n][k] == x;
        assert TextOrder()(ids[k], ids[n]);
      }
    }
  }

  /** Device d was ready and no entry before the i-th picked it. */
  ghost predicate FreeAt(ready: set<string>, picks: seq<Option<string>>, i: nat, d: string)
    requires i <= |picks|
  {
    d in ready && forall h :: 0 <= h < i ==> picks[h] != Some(d)
  }

  /** Each entry in turn picks the first of its candidates that is free by then, and goes without only if none is. */
  lemma {:induction false} GreedyMeans(ready: set<string>, wanted: seq<seq<string>>, i: nat)
    requires i < |wanted|
    ensures var picks := Greedy(ready, wanted).picks;
            && |picks| == |wanted|
            && (picks[i].None? ==> forall c :: 0 <= c < |wanted[i]| ==> !FreeAt(ready, picks, i, wanted[i][c]))
            && (picks[i].Some? ==>
                  exists c :: 0 <= c < |wanted[i]| && wanted[i][c] == picks[i].value && FreeAt(ready, picks, i, wanted[i][c])
                              && forall b :: 0 <= b < c ==> !FreeAt(ready, picks, i, wanted[i][b]))
  {
    var n := |wanted| - 1;
    var before, all := Greedy(ready, wanted[..n]), Greedy(ready, wanted);
    if i < n {
      GreedyMeans(ready, wanted[..n], i);
      assert all.picks[..n] == before.picks;
      forall d ensures FreeAt(ready, all.picks, i, d) <==> FreeAt(ready, before.picks, i, d) {
        FreeAtPrefix(ready, before.picks, all.picks, i, d);
      }
    } else {
      forall d ensures d in before.ready <==> FreeAt(ready, all.picks, n, d) {
        StillReady(ready, wanted[..n], d);
        FreeAtPrefix(ready, before.picks, all.picks, n, d);
      }
      FirstReadyAt(wanted[n], before.ready);
    }
    hide Greedy, FirstReady;
  }

  lemma {:induction false} StillReady(ready: set<string>, wanted: seq<seq<string>>, d: string)
    ensures d in Greedy(ready, wanted).ready <==> FreeAt(ready, Greedy(ready, wanted).picks, |wanted|, d)
  {
    if wanted != [] {
      var n := |wanted| - 1;
      StillReady(ready, wanted[..n], d);
      FreeAtPrefix(ready, Greedy(ready, wanted[..n]).picks, Greedy(ready, wanted).picks, n, d);
    }
  }

  lemma FreeAtPrefix(ready: set<string>, some: seq<Option<string>>, all: seq<Option<string>>, i: nat, d: string)
    requires i <= |some| < |all| && all[..|some|] == some
    ensures FreeAt(ready, some, i, d) <==> FreeAt(ready, all, i, d)
    ensures FreeAt(ready, all, i + 1, d) <==> FreeAt(ready, all, i, d) && all[i] != Some(d)
  {
    forall h | 0 <= h < i ensures some[h] == all[h] { assert all[..|some|][h] == all[h]; }
  }

  lemma {:induction false} FirstReadyAt(ds: seq<string>, ready: set<string>)
    ensures FirstReady(ds, ready).None? ==> forall c :: 0 <= c < |ds| ==> ds[c] !in ready
    ensures FirstReady(ds, ready).Some? ==>
              exists c :: 0 <= c < |ds| && ds[c] == FirstReady(ds, ready).value && ds[c] in ready && forall b :: 0 <= b < c ==> ds[b] !in ready
  {
    if ds != [] && ds[0] !in ready {
      FirstReadyAt(ds[1..], ready);
      if FirstReady(ds[1..], ready).Some? {
        var c :| 0 <= c < |ds| - 1 && ds[1..][c] == FirstReady(ds[1..], ready).value && ds[1..][c] in ready
                 && forall b :: 0 <= b < c ==> ds[1..][b] !in ready;
        assert ds[c + 1] == ds[1..][c];
        forall b | 0 <= b < c + 1 ensures ds[b] !in ready { assert b > 0 ==> ds[b] == ds[1..][b - 1]; }
      }
    }
  }

  /** The grants are the picks, with the entry's job and the device picked, in the order of the entries. */
  lemma {:induction false} GrantsMean(ids: seq<string>, picks: seq<Option<string>>)
    requires |picks| <= |ids|
    ensures forall g :: g in GrantsOf(ids, picks) <==> g.entry < |picks| && g.job == ids[g.entry] && picks[g.entry] == Some(g.device)
    ensures forall a, b :: 0 <= a < b < |GrantsOf(ids, picks)| ==> GrantsOf(ids, picks)[a].entry < GrantsOf(ids, picks)[b].entry
  {
    if picks != [] {
      var n := |picks| - 1;
      GrantsMean(ids, picks[..n]);
      var before := GrantsOf(ids, picks[..n]);
      forall a | 0 <= a < |before| ensures before[a].entry < n { assert before[a] in before; }
      hide GrantsOf;
    }
  }

  // ----- The pass against the simple scheduler

  /** The entries visited so far stand as the simple scheduler has them. */
  ghost predicate Placements(s: Pass, ids: seq<string>, picks: seq<Option<string>>)
    requires |picks| <= |ids|
  {
    forall i :: 0 <= i < |picks| && picks[i].Some? ==>
      && ids[i] in s.db.jobs && s.db.jobs[ids[i]].state.Assigned? && s.db.jobs[ids[i]].device == picks[i].value
      && picks[i].value in s.db.devices && s.db.devices[picks[i].value].state.Busy?
  }

  /** A job without a device is as it was when the pass began. */
  ghost predicate Waiters(start: Db, s: Pass, ids: seq<string>, picks: seq<Option<string>>) {
    forall i :: 0 <= i < |ids| && (i < |picks| ==> picks[i].None?) ==>
      ids[i] in start.jobs && ids[i] in s.db.jobs && s.db.jobs[ids[i]] == start.jobs[ids[i]]
  }

  /** The reservation of d is that of the first waiting job that wants it. */
  ghost predicate Reservation(s: Pass, ids: seq<string>, picks: seq<Option<string>>, d: string)
    requires |picks| == |s.wanted| <= |ids|
  {
    match FirstWaiting(s.wanted, picks, d)
    case None => d !in s.reserved && d !in s.db.reservations
    case Some(i) => d in s.reserved && d in s.db.reservations && i < |ids| && s.db.reservations[d] == ids[i]
  }

  ghost predicate Follow(start: Db, s: Pass, q: Selector.Quantities, ids: seq<string>) {
    var g := Greedy(ReadySet(start), s.wanted);
    && |s.wanted| <= |ids| && SameGrounds(start, s.db) && s.db.jobs.Keys == start.jobs.Keys
    && ReadySet(s.db) == g.ready && s.granted == GrantsOf(ids, g.picks)
    && (forall i :: 0 <= i < |s.wanted| ==>
          ids[i] in start.jobs && s.wanted[i] == CandidatesOf(start, q, start.jobs[ids[i]]))
    && Placements(s, ids, g.picks) && Waiters(start, s, ids, g.picks)
    && (forall d :: Reservation(s, ids, g.picks, d))
  }

  lemma {:induction false} FirstReadyAppend(a: seq<string>, d: string, ready: set<string>)
    ensures FirstReady(a + [d], ready) ==
            if FirstReady(a, ready).Some? then FirstReady(a, ready) else if d in ready then Some(d) else None
  {
    if a == [] {
      assert a + [d] == [d];
    } else {
      FirstReadyAppend(a[1..], d, ready);
      assert (a + [d])[1..] == a[1..] + [d];
    }
  }

  /** Leaving out what is held and not ready does not change the first ready candidate. */
  lemma {:induction false} FreeFirst(ds: seq<string>, reserved: set<string>, ready: set<string>)
    requires reserved !! ready
    ensures FirstReady(Free(ds, reserved), ready) == FirstReady(ds, ready)
  {
    if ds != [] {
      var n := |ds| - 1;
      FreeFirst(ds[..n], reserved, ready);
      FirstReadyAppend(ds[..n], ds[n], ready);
      FirstReadyAppend(Free(ds[..n], reserved), ds[n], ready);
      assert ds == ds[..n] + [ds[n]];
      assert Free(ds[..n], reserved) + [] == Free(ds[..n], reserved);
    }
  }

  lemma GreedyNext(ready: set<string>, wanted: seq<seq<string>>, ds: seq<string>)
    ensures var g, pick := Greedy(ready, wanted), FirstReady(ds, Greedy(ready, wanted).ready);
            Greedy(ready, wanted + [ds]) == Scan(if pick.Some? then g.ready - {pick.value} else g.ready, g.picks + [pick])
  {
    assert (wanted + [ds])[..|wanted|] == wanted;
  }

  lemma GrantsNext(ids: seq<string>, picks: seq<Option<string>>, pick: Option<string>)
    requires |picks| < |ids|
    ensures GrantsOf(ids, picks + [pick]) ==
            GrantsOf(ids, picks) + (if pick.Some? then [Grant(|picks|, ids[|picks|], pick.value)] else [])
  {
    assert (picks + [pick])[..|picks|] == picks;
  }

  lemma WaitingNext(wanted: seq<seq<string>>, picks: seq<Option<string>>, ds: seq<string>, pick: Option<string>, d: string)
    requires |picks| == |wanted|
    ensures FirstWaiting(wanted + [ds], picks + [pick], d) ==
            if FirstWaiting(wanted, picks, d).Some? then FirstWaiting(wanted, picks, d)
            else if pick.None? && d in ds then Some(|wanted|) else None
  {
    assert (wanted + [ds])[..|wanted|] == wanted && (picks + [pick])[..|wanted|] == picks;
  }

  lemma ReservedAreTaken(start: Db, s: Pass, q: Selector.Quantities, ids: seq<string>)
    requires Follow(start, s, q, ids)
    ensures s.reserved !! ReadySet(s.db)
  {
    var g := Greedy(ReadySet(start), s.wanted);
    forall d | d in s.reserved ensures d !in ReadySet(s.db) {
      assert Reservation(s, ids, g.picks, d);
      FirstWaitingIs(s.wanted, g.picks, d);
      GreedyLeavesNothing(ReadySet(start), s.wanted, FirstWaiting(s.wanted, g.picks, d).value, d);
    }
  }

  ghost predicate NoRepeats(ids: seq<string>) {
    forall i, k :: 0 <= i < k < |ids| ==> ids[i] != ids[k]
  }

  /** What a device taken leaves of the reservations. */
  lemma TakeReserves(s: Pass, t: Pass, ids: seq<string>, picks: seq<Option<string>>, ds: seq<string>, d: string, x: string)
    requires |picks| == |s.wanted| < |ids| && Reservation(s, ids, picks, x) && d !in s.reserved
    requires t.wanted == s.wanted + [ds] && t.reserved == s.reserved && t.db.reservations == s.db.reservations - {d}
    ensures Reservation(t, ids, picks + [Some(d)], x)
  {
    WaitingNext(s.wanted, picks, ds, Some(d), x);
    hide FirstWaiting;
  }

  /** The entry takes device d. */
  lemma FollowTake(start: Db, s: Pass, t: Pass, q: Selector.Quantities, ids: seq<string>, ds: seq<string>, d: string)
    requires Follow(start, s, q, ids) && NoRepeats(ids) && |s.wanted| < |ids|
    requires var j := ids[|s.wanted|];
             && j in s.db.jobs && s.db.jobs[j].state.Queued? && ds == CandidatesOf(start, q, start.jobs[j])
             && FirstReady(ds, ReadySet(s.db)) == Some(d) && Took(s.db, t.db, j, d)
             && t.granted == s.granted + [Grant(|s.wanted|, j, d)]
    requires t.wanted == s.wanted + [ds] && t.reserved == s.reserved
    ensures Follow(start, t, q, ids)
  {
    hide CandidatesOf, FirstReady, Greedy, GrantsOf, FirstWaiting, Reservation, Placements, Waiters, NoRepeats;
    var ready := ReadySet(start);
    var g := Greedy(ready, s.wanted);
    GreedyNext(ready, s.wanted, ds);
    GrantsNext(ids, g.picks, Some(d));
    ReservedAreTaken(start, s, q, ids);
    forall x ensures Reservation(t, ids, g.picks + [Some(d)], x) {
      assert Reservation(s, ids, g.picks, x);
      TakeReserves(s, t, ids, g.picks, ds, d, x);
    }
    TakePlaces(start, s, t, ids, g.picks, d);
  }

  /** What a device taken leaves of the jobs. */
  lemma TakePlaces(start: Db, s: Pass, t: Pass, ids: seq<string>, picks: seq<Option<string>>, d: string)
    requires |picks| < |ids| && NoRepeats(ids) && Took(s.db, t.db, ids[|picks|], d)
    requires ids[|picks|] in s.db.jobs && s.db.jobs[ids[|picks|]].state.Queued?
    requires Placements(s, ids, picks) && Waiters(start, s, ids, picks)
    ensures Placements(t, ids, picks + [Some(d)]) && Waiters(start, t, ids, picks + [Some(d)])
  {
    var n := |picks|;
    forall i | 0 <= i < n && picks[i].Some? ensures ids[i] != ids[n] && picks[i].value != d {
      assert ids[i] in s.db.jobs;
    }
  }

  /** The entry is left waiting, and holds what nobody ahead of it holds. */
  lemma FollowWait(start: Db, s: Pass, t: Pass, q: Selector.Quantities, ids: seq<string>, ds: seq<string>)
    requires Follow(start, s, q, ids) && |s.wanted| < |ids|
    requires var j := ids[|s.wanted|];
             && j in start.jobs && ds == CandidatesOf(start, q, start.jobs[j])
             && FirstReady(ds, ReadySet(s.db)) == None
             && (forall d :: d in t.reserved <==> d in s.reserved || d in ds)
             && (forall d :: d in t.db.reservations <==> d in s.db.reservations || (d in ds && d !in s.reserved))
             && (forall d :: d in t.db.reservations ==>
                   t.db.reservations[d] == if d in ds && d !in s.reserved then j else if d in s.db.reservations then s.db.reservations[d] else "")
    requires t.db == s.db.(reservations := t.db.reservations) && t.wanted == s.wanted + [ds] && t.granted == s.granted
    ensures Follow(start, t, q, ids)
  {
    hide CandidatesOf, FirstReady, Greedy, GrantsOf, FirstWaiting;
    var ready := ReadySet(start);
    var g := Greedy(ready, s.wanted);
    GreedyNext(ready, s.wanted, ds);
    GrantsNext(ids, g.picks, None);
    var h := Greedy(ready, t.wanted);
    forall x ensures Reservation(t, ids, h.picks, x) {
      assert Reservation(s, ids, g.picks, x);
      WaitingNext(s.wanted, g.picks, ds, None, x);
    }
    hide Reservation;
    assert ReadySet(t.db) == ReadySet(s.db);
    assert Placements(t, ids, h.picks);
    assert Waiters(start, t, ids, h.picks);
  }

  lemma AloneVisit(start: Db, s: Pass, env: Env, q: Selector.Quantities, ids: seq<string>)
    requires Alone(env) && Follow(start, s, q, ids) && NoRepeats(ids) && |s.wanted| < |ids|
    requires ids[|s.wanted|] in start.jobs && start.jobs[ids[|s.wanted|]].state.Queued?
    ensures var t := Visit(s, env, q, ids[|s.wanted|], start.jobs[ids[|s.wanted|]]);
            Follow(start, t, q, ids) && |t.wanted| == |s.wanted| + 1
  {
    var n := |s.wanted|;
    var j := ids[n];
    var row := start.jobs[j];
    assert Waiters(start, s, ids, Greedy(ReadySet(start), s.wanted).picks);
    assert s.db.jobs[j] == row;
    AloneChooses(s, env, q, row, start);
    ReservedAreTaken(start, s, q, ids);
    var (c, ds) := Choose(s, env, q, row);
    var v := c.(wanted := c.wanted + [ds]);
    var free := Free(ds, v.reserved);
    FreeMembers(ds, v.reserved);
    FreeFirst(ds, v.reserved, ReadySet(s.db));
    AloneTries(v, env, n, j, free);
    hide Follow, Choose, CandidatesOf, Free, Took, Waiters;
    var (t, done) := TryEach(v, env, n, j, free);
    if done {
      FollowTake(start, s, t, q, ids, ds, FirstReady(ds, ReadySet(s.db)).value);
    } else {
      AloneReserves(t, env, j, free);
      FollowWait(start, s, ReserveEach(t, env, j, free), q, ids, ds);
    }
  }

  lemma {:induction false} AloneVisits(start: Db, s: Pass, env: Env, q: Selector.Quantities, ids: seq<string>, rows: seq<Job>, n: nat)
    requires Alone(env) && NoRepeats(ids) && n <= |ids| == |rows|
    requires Follow(start, s, q, ids) && s.wanted == []
    requires forall i :: 0 <= i < |ids| ==> ids[i] in start.jobs && start.jobs[ids[i]].state.Queued? && rows[i] == start.jobs[ids[i]]
    ensures var t := VisitAll(s, env, q, ids, rows, n); Follow(start, t, q, ids) && |t.wanted| == n
  {
    hide Visit, Follow;
    if n > 0 {
      AloneVisits(start, s, env, q, ids, rows, n - 1);
      AloneVisit(start, VisitAll(s, env, q, ids, rows, n - 1), env, q, ids);
    }
  }

  lemma {:induction false} AloneRows(s: Pass, env: Env, ids: seq<string>)
    requires Alone(env) && forall j :: j in ids ==> j in s.db.jobs
    ensures var (t, rows) := ReadRows(s, env, ids);
            t.db == s.db && SameLocals(s, t) && |rows| == |ids| && forall i :: 0 <= i < |ids| ==> rows[i] == s.db.jobs[ids[i]]
  {
    if ids != [] {
      var n := |ids| - 1;
      hide Follows, After;
      AloneRows(s, env, ids[..n]);
      AloneTurn(ReadRows(s, env, ids[..n]).0, env);
    }
  }

  lemma FollowStarts(db: Db, s: Pass, q: Selector.Quantities, ids: seq<string>)
    requires s.db == db.(reservations := map[]) && s.reserved == {} && s.granted == [] && s.wanted == []
    requires forall j :: j in ids ==> j in db.jobs
    ensures Follow(db, s, q, ids)
  {
    assert ReadySet(s.db) == ReadySet(db);
    forall d ensures Reservation(s, ids, Greedy(ReadySet(db), s.wanted).picks, d) {}
  }

  lemma QueueHasNoRepeats(db: Db)
    requires Queue.RowsDistinct(db)
    ensures NoRepeats(Queue.QueueOrder(db))
  {
    Queue.QueueInOrder(db);
    Queue.OrderMeans(db);
  }

  lemma AlonePass(db: Db, env: Env, q: Selector.Quantities)
    requires Ticketed(db) && Alone(env)
    ensures Entries(db, env) == Queue.QueueOrder(db)
    ensures Follow(db, ScheduleOnce(db, env, q), q, Queue.QueueOrder(db))
    ensures |ScheduleOnce(db, env, q).wanted| == |Queue.QueueOrder(db)|
  {
    var ids := Queue.QueueOrder(db);
    var first := Turn(Pass(db, 0, {}, [], []), env);
    AloneTurn(Pass(db, 0, {}, [], []), env);
    var (s, rows) := ReadRows(first, env, ids);
    AloneRows(first, env, ids);
    AloneTurn(s, env);
    var t := Turn(s, env);
    var u := t.(db := t.db.(reservations := map[]));
    QueueHasNoRepeats(db);
    FollowStarts(db, u, q, ids);
    hide Follow;
    AloneVisits(db, u, env, q, ids, rows, |ids|);
  }

  // ----- The grants are all that changes

  predicate To(gs: seq<Grant>, j: string) {
    exists k :: 0 <= k < |gs| && gs[k].job == j
  }

  predicate Of(gs: seq<Grant>, d: string) {
    exists k :: 0 <= k < |gs| && gs[k].device == d
  }

  /** What a grant makes of its job's row, and the lease that goes with it. */
  ghost predicate Granted(start: Db, db: Db, g: Grant, l: nat) {
    && g.job in start.jobs && start.jobs[g.job].state.Queued? && g.device in start.devices && start.devices[g.device].state.Ready?
    && var ttl := Runtime(start, g.job, g.device);
       && g.job in db.jobs
       && db.jobs[g.job] == start.jobs[g.job].(state := Assigned, device := g.device, worker := start.devices[g.device].worker, runtime := ttl)
       && l in db.leases
       && var x := db.leases[l];
          x == Lease(g.device, g.job, x.acquired, x.acquired + (if ttl > 0 then ttl + 600 else 300), start.jobs[g.job].kind, true)
  }

  ghost predicate JobFrame(start: Db, db: Db, gs: seq<Grant>, j: string) {
    j in start.jobs && !To(gs, j) ==> j in db.jobs && db.jobs[j] == start.jobs[j]
  }

  ghost predicate DeviceFrame(start: Db, db: Db, gs: seq<Grant>, d: string) {
    d in start.devices ==>
      d in db.devices && db.devices[d] == if Of(gs, d) then start.devices[d].(state := Busy) else start.devices[d]
  }

  /** The leases numbered so far as they were, and one more for every grant. */
  ghost predicate LeaseFrame(start: Db, db: Db, n: nat) {
    && (forall l :: l in db.leases <==> l in start.leases || start.nextLease <= l < start.nextLease + n)
    && forall l :: l in start.leases && l < start.nextLease ==> db.leases[l] == start.leases[l]
  }

  /** The tables are those of start but for the grants gs, one lease each, and the reservations. */
  ghost predicate OnlyGrants(start: Db, db: Db, gs: seq<Grant>) {
    && db == start.(devices := db.devices, jobs := db.jobs, leases := db.leases, reservations := db.reservations,
                    nextLease := start.nextLease + |gs|)
    && db.jobs.Keys == start.jobs.Keys && db.devices.Keys == start.devices.Keys
    && (forall j :: JobFrame(start, db, gs, j)) && (forall d :: DeviceFrame(start, db, gs, d))
    && LeaseFrame(start, db, |gs|)
    && forall k :: 0 <= k < |gs| ==> Granted(start, db, gs[k], start.nextLease + k)
  }

  lemma AssignGrants(start: Db, db: Db, gs: seq<Grant>, g: Grant, now: int)
    requires OnlyGrants(start, db, gs) && AssignOutcomeOf(db, g.job, g.device) == Placed
    ensures OnlyGrants(start, Transactions.Assign(db, g.job, g.device, now), gs + [g])
  {
    hide JobFrame, DeviceFrame, Granted, To, Of;
    var e, hs := Transactions.Assign(db, g.job, g.device, now), gs + [g];
    AssignFrames(start, db, gs, g, now);
    forall k | 0 <= k < |hs| ensures Granted(start, e, hs[k], start.nextLease + k) {
      assert k < |gs| ==> Granted(start, db, gs[k], start.nextLease + k);
      AssignKeepsGrant(start, db, gs, g, now, k);
    }
  }

  lemma AssignFrames(start: Db, db: Db, gs: seq<Grant>, g: Grant, now: int)
    requires OnlyGrants(start, db, gs) && AssignOutcomeOf(db, g.job, g.device) == Placed
    ensures forall j :: JobFrame(start, Transactions.Assign(db, g.job, g.device, now), gs + [g], j)
    ensures forall d :: DeviceFrame(start, Transactions.Assign(db, g.job, g.device, now), gs + [g], d)
  {
    hide To, Of;
    var e, hs := Transactions.Assign(db, g.job, g.device, now), gs + [g];
    AssignedIsNew(start, db, gs, g);
    forall j ensures JobFrame(start, e, hs, j) { assert JobFrame(start, db, gs, j); ToNext(gs, g, j); }
    forall d ensures DeviceFrame(start, e, hs, d) { assert DeviceFrame(start, db, gs, d); OfNext(gs, g, d); }
  }

  lemma AssignKeepsGrant(start: Db, db: Db, gs: seq<Grant>, g: Grant, now: int, k: nat)
    requires OnlyGrants(start, db, gs) && AssignOutcomeOf(db, g.job, g.device) == Placed && k <= |gs|
    ensures Granted(start, Transactions.Assign(db, g.job, g.device, now), (gs + [g])[k], start.nextLease + k)
  {
    AssignedIsNew(start, db, gs, g);
    assert k < |gs| ==> Granted(start, db, gs[k], start.nextLease + k);
    hide JobFrame, DeviceFrame;
  }

  lemma ToNext(gs: seq<Grant>, g: Grant, j: string)
    ensures To(gs + [g], j) <==> To(gs, j) || g.job == j
  {
    assert (gs + [g])[|gs|] == g;
    forall k | 0 <= k < |gs| ensures (gs + [g])[k] == gs[k] {}
  }

  lemma OfNext(gs: seq<Grant>, g: Grant, d: string)
    ensures Of(gs + [g], d) <==> Of(gs, d) || g.device == d
  {
    assert (gs + [g])[|gs|] == g;
    forall k | 0 <= k < |gs| ensures (gs + [g])[k] == gs[k] {}
  }

  /** A queued job and a ready device are in no grant yet. */
  lemma AssignedIsNew(start: Db, db: Db, gs: seq<Grant>, g: Grant)
    requires OnlyGrants(start, db, gs) && AssignOutcomeOf(db, g.job, g.device) == Placed
    ensures !To(gs, g.job) && !Of(gs, g.device)
    ensures g.job in start.jobs && db.jobs[g.job] == start.jobs[g.job]
    ensures g.device in start.devices && db.devices[g.device] == start.devices[g.device]
  {
    assert JobFrame(start, db, gs, g.job) && DeviceFrame(start, db, gs, g.device);
  }

  lemma ReservationsGrantNothing(start: Db, db: Db, gs: seq<Grant>, r: map<string, string>)
    requires OnlyGrants(start, db, gs)
    ensures OnlyGrants(start, db.(reservations := r), gs)
  {
    var e := db.(reservations := r);
    forall j ensures JobFrame(start, e, gs, j) { assert JobFrame(start, db, gs, j); }
    forall d ensures DeviceFrame(start, e, gs, d) { assert DeviceFrame(start, db, gs, d); }
    forall k | 0 <= k < |gs| ensures Granted(start, e, gs[k], start.nextLease + k) {
      assert Granted(start, db, gs[k], start.nextLease + k);
    }
  }

  lemma {:induction false} TryGrants(start: Db, s: Pass, env: Env, k: nat, j: string, ds: seq<string>)
    requires Alone(env) && OnlyGrants(start, s.db, s.granted)
    ensures var t := TryEach(s, env, k, j, ds).0; OnlyGrants(start, t.db, t.granted)
    decreases |ds|
  {
    hide OnlyGrants, Transactions.Assign, AssignOutcomeOf;
    if ds != [] {
      var t := Turn(s, env);
      AloneTurn(s, env);
      TryStep(s, env, k, j, ds);
      match AssignOutcomeOf(t.db, j, ds[0])
      case NoDevice => TryGrants(start, t, env, k, j, ds[1..]);
      case NoLongerQueued =>
      case Placed => AssignGrants(start, t.db, t.granted, Grant(k, j, ds[0]), env(s.tick).now);
    }
  }

  lemma VisitGrants(start: Db, s: Pass, env: Env, q: Selector.Quantities, j: string, row: Job)
    requires Alone(env) && OnlyGrants(start, s.db, s.granted)
    ensures var t := Visit(s, env, q, j, row); OnlyGrants(start, t.db, t.granted)
  {
    hide OnlyGrants, Choose;
    AloneChooses(s, env, q, row, s.db);
    var (c, ds) := Choose(s, env, q, row);
    var v := c.(wanted := c.wanted + [ds]);
    var free := Free(ds, v.reserved);
    TryGrants(start, v, env, |s.wanted|, j, free);
    var t := TryEach(v, env, |s.wanted|, j, free).0;
    AloneReserves(t, env, j, free);
    ReservationsGrantNothing(start, t.db, t.granted, ReserveEach(t, env, j, free).db.reservations);
  }

  lemma {:induction false} VisitsGrant(start: Db, s: Pass, env: Env, q: Selector.Quantities, ids: seq<string>, rows: seq<Job>, n: nat)
    requires Alone(env) && OnlyGrants(start, s.db, s.granted) && n <= |ids| == |rows|
    ensures var t := VisitAll(s, env, q, ids, rows, n); OnlyGrants(start, t.db, t.granted)
  {
    hide OnlyGrants, Visit;
    if n > 0 {
      VisitsGrant(start, s, env, q, ids, rows, n - 1);
      VisitGrants(start, VisitAll(s, env, q, ids, rows, n - 1), env, q, ids[n - 1], rows[n - 1]);
    }
  }

  /** Nothing granted, nothing changed. */
  lemma GrantsStart(db: Db, r: map<string, string>)
    ensures OnlyGrants(db, db.(reservations := r), [])
  {
  }

  /**
   With nothing in between, a pass changes what its grants change and the
   reservations, and nothing else: every other job, device and lease and every other
   table is as it was, and each grant is one new lease.
   */
  lemma AtomicPassTouchesOnlyGrants(db: Db, env: Env, q: Selector.Quantities)
    requires Ticketed(db) && Alone(env)
    ensures OnlyGrants(db, ScheduleOnce(db, env, q).db, ScheduleOnce(db, env, q).granted)
  {
    hide OnlyGrants, VisitAll;
    var first := Turn(Pass(db, 0, {}, [], []), env);
    AloneTurn(Pass(db, 0, {}, [], []), env);
    var ids := Queue.QueueOrder(db);
    EntriesAreQueued(db, env);
    var (s, rows) := ReadRows(first, env, ids);
    AloneRows(first, env, ids);
    AloneTurn(s, env);
    var u := Turn(s, env).(db := db.(reservations := map[]));
    GrantsStart(db, map[]);
    VisitsGrant(db, u, env, q, ids, rows, |ids|);
  }

  /**
   With nothing in between, a pass with its reservations is the simple
   scheduler: each queued job in order takes its first ready candidate, and
   those grants are all that is granted. Afterwards no job left waiting has a
   ready candidate.
   */
  lemma AtomicPassIsGreedy(db: Db, env: Env, q: Selector.Quantities)
    requires Ticketed(db) && Alone(env)
    ensures var f, ids := ScheduleOnce(db, env, q), Queue.QueueOrder(db);
            var g := Greedy(ReadySet(db), f.wanted);
            && |f.wanted| == |ids|
            && (forall i :: 0 <= i < |ids| ==> f.wanted[i] == CandidatesOf(db, q, db.jobs[ids[i]]))
            && f.granted == GrantsOf(ids, g.picks) && Placements(f, ids, g.picks)
            && (forall i :: 0 <= i < |ids| ==>
                  ids[i] in f.db.jobs && (f.db.jobs[ids[i]].state.Queued? <==> g.picks[i].None?))
            && (forall i, d :: 0 <= i < |ids| && g.picks[i].None? && d in f.wanted[i] ==> d !in ReadySet(f.db))
  {
    hide ScheduleOnce, VisitAll, CandidatesOf, Greedy, GrantsOf, ReadySet, Follow, Placements, TicketOk;
    AlonePass(db, env, q);
    FollowMeans(db, ScheduleOnce(db, env, q), q, Queue.QueueOrder(db));
  }

  /** The invariant at the end of the queue. */
  lemma FollowMeans(start: Db, f: Pass, q: Selector.Quantities, ids: seq<string>)
    requires Follow(start, f, q, ids) && |f.wanted| == |ids|
    requires forall j :: j in ids ==> j in start.jobs && start.jobs[j].state.Queued?
    ensures var g := Greedy(ReadySet(start), f.wanted);
            && (forall i :: 0 <= i < |ids| ==> f.wanted[i] == CandidatesOf(start, q, start.jobs[ids[i]]))
            && f.granted == GrantsOf(ids, g.picks) && Placements(f, ids, g.picks)
            && (forall i :: 0 <= i < |ids| ==>
                  ids[i] in f.db.jobs && (f.db.jobs[ids[i]].state.Queued? <==> g.picks[i].None?))
            && (forall i, d :: 0 <= i < |ids| && g.picks[i].None? && d in f.wanted[i] ==> d !in ReadySet(f.db))
  {
    hide CandidatesOf, Greedy, GrantsOf, Reservation, ReadySet;
    var g := Greedy(ReadySet(start), f.wanted);
    forall i | 0 <= i < |ids| ensures ids[i] in f.db.jobs && (f.db.jobs[ids[i]].state.Queued? <==> g.picks[i].None?) {
      assert ids[i] in ids && (g.picks[i].Some? || g.picks[i].None?);
    }
    forall i, d | 0 <= i < |ids| && g.picks[i].None? && d in f.wanted[i] ensures d !in ReadySet(f.db) {
      GreedyLeavesNothing(ReadySet(start), f.wanted, i, d);
    }
  }

  /** Entry i is still queued and wants d. */
  ghost predicate Waits(f: Pass, ids: seq<string>, i: int, d: string) {
    0 <= i < |ids| && i < |f.wanted| && ids[i] in f.db.jobs && f.db.jobs[ids[i]].state.Queued? && d in f.wanted[i]
  }

  /** Entry i holds the reservation of d, and nobody ahead of it wants d. */
  ghost predicate ReservedFor(f: Pass, ids: seq<string>, i: int, d: string) {
    && Waits(f, ids, i, d) && d in f.db.reservations && f.db.reservations[d] == ids[i]
    && forall k :: 0 <= k < i ==> !Waits(f, ids, k, d)
  }

  /** A device is then reserved exactly when some job left waiting wants it, and for the first that does. */
  lemma AtomicReservations(db: Db, env: Env, q: Selector.Quantities, d: string)
    requires Ticketed(db) && Alone(env)
    ensures d in ScheduleOnce(db, env, q).db.reservations <==>
            exists i :: Waits(ScheduleOnce(db, env, q), Queue.QueueOrder(db), i, d)
    ensures d in ScheduleOnce(db, env, q).db.reservations ==>
            exists i :: ReservedFor(ScheduleOnce(db, env, q), Queue.QueueOrder(db), i, d)
  {
    hide ScheduleOnce, Greedy, Placements, ReadySet, Follow, Reservation, CandidatesOf, GrantsOf, Waits, ReservedFor;
    var f, ids := ScheduleOnce(db, env, q), Queue.QueueOrder(db);
    AlonePass(db, env, q);
    AtomicPassIsGreedy(db, env, q);
    hide Ticketed, Queue.RowsDistinct, Queue.QueueOrder;
    FollowReserves(db, f, q, ids, d);
    ReservedForFirst(f, ids, Greedy(ReadySet(db), f.wanted).picks, d);
  }

  lemma FollowReserves(start: Db, s: Pass, q: Selector.Quantities, ids: seq<string>, d: string)
    requires Follow(start, s, q, ids)
    ensures |s.wanted| <= |ids| && Reservation(s, ids, Greedy(ReadySet(start), s.wanted).picks, d)
  {
  }

  lemma ReservedForFirst(f: Pass, ids: seq<string>, picks: seq<Option<string>>, d: string)
    requires |picks| == |f.wanted| == |ids| && Reservation(f, ids, picks, d)
    requires forall i :: 0 <= i < |ids| ==> ids[i] in f.db.jobs && (f.db.jobs[ids[i]].state.Queued? <==> picks[i].None?)
    ensures d in f.db.reservations <==> exists i :: Waits(f, ids, i, d)
    ensures d in f.db.reservations ==> exists i :: ReservedFor(f, ids, i, d)
  {
    FirstWaitingIs(f.wanted, picks, d);
    var r := FirstWaiting(f.wanted, picks, d);
    hide FirstWaiting;
    forall k | 0 <= k < (if r.Some? then r.value else |ids|) ensures !Waits(f, ids, k, d) {}
    if r.Some? {
      assert Waits(f, ids, r.value, d);
      hide Waits;
      assert ReservedFor(f, ids, r.value, d);
    }
  }

  // ----- What the loops of the pass carry along

  lemma TurnCounts(s: Pass, env: Env)
    ensures Turn(s, env).tick == s.tick + 1 && SameLocals(s, Turn(s, env))
  {
  }

  lemma EntriesAreQueued(db: Db, env: Env)
    requires Ticketed(db)
    ensures var t := Turn(Pass(db, 0, {}, [], []), env);
            && Queue.RowsDistinct(t.db) && Entries(db, env) == Queue.QueueOrder(t.db)
            && forall j :: j in Entries(db, env) ==> j in t.db.jobs
  {
    RunIsTicketed(db, env(0).others, |env(0).others|);
  }

  lemma BegunClean(db: Db, env: Env)
    requires Ticketed(db)
    ensures var s := Begun(db, env); s.reserved == {} && s.granted == [] && s.wanted == []
  {
    EntriesAreQueued(db, env);
    RowsKeepLocals(Turn(Pass(db, 0, {}, [], []), env), env, Entries(db, env));
    hide After;
  }

  lemma RowsNext(s: Pass, env: Env, ids: seq<string>, i: nat)
    requires i < |ids| && forall j :: j in ids ==> j in s.db.jobs
    ensures var (p, rows) := ReadRows(s, env, ids[..i]); var t := Turn(p, env);
            ids[i] in t.db.jobs && t.tick == p.tick + 1 && ReadRows(s, env, ids[..i + 1]) == (t, rows + [t.db.jobs[ids[i]]])
  {
    hide After, Apply;
    assert ids[..i + 1][..i] == ids[..i];
    var p := ReadRows(s, env, ids[..i]).0;
    TurnFollows(p, env);
    assert ids[i] in ids;
  }

  lemma ChooseKeepsLocals(s: Pass, env: Env, q: Selector.Quantities, row: Job)
    ensures SameLocals(s, Choose(s, env, q, row).0)
  {
    hide After;
  }

  lemma {:induction false} TryKeepsLocals(s: Pass, env: Env, k: nat, j: string, ds: seq<string>)
    ensures var t := TryEach(s, env, k, j, ds).0; t.reserved == s.reserved && t.wanted == s.wanted
    decreases |ds|
  {
    hide After, Transactions.Assign, AssignOutcomeOf;
    if ds != [] { TryKeepsLocals(Turn(s, env), env, k, j, ds[1..]); }
  }

  lemma {:induction false} ReserveKeepsLocals(s: Pass, env: Env, j: string, ds: seq<string>)
    ensures var t := ReserveEach(s, env, j, ds); t.granted == s.granted && t.wanted == s.wanted
  {
    hide After;
    if ds != [] { ReserveKeepsLocals(s, env, j, ds[..|ds| - 1]); }
  }

  /** One attempt: refused, the search goes on; otherwise it is over. */
  lemma TryStep(s: Pass, env: Env, k: nat, j: string, ds: seq<string>)
    requires ds != []
    ensures var t := Turn(s, env);
            && SameLocals(s, t) && t.tick == s.tick + 1
            && match AssignOutcomeOf(t.db, j, ds[0])
               case NoDevice => TryEach(s, env, k, j, ds) == TryEach(t, env, k, j, ds[1..])
               case NoLongerQueued => TryEach(s, env, k, j, ds) == (t, true)
               case Placed =>
                 TryEach(s, env, k, j, ds) ==
                 (t.(db := Transactions.Assign(t.db, j, ds[0], env(s.tick).now), granted := t.granted + [Grant(k, j, ds[0])]), true)
  {
    hide After, Transactions.Assign, AssignOutcomeOf;
  }
}
