/**
 Submitting and cancelling (Enqueue, CancelQueued) are not transactions
 either: a submission reads labels, devices and ceilings before its
 transaction opens, and a cancellation is two statements. Others may run
 before each access.
 */
module Submissions {
  import opened Wrappers
  import opened Model
  import opened Transactions
  import opened Runs
  import opened Scheduling
  import Queue
  import Selector

  function Begin(db: Db): Pass {
    Pass(db, 0, {}, [], [])
  }

  /** A selector's checks: devices that match, and, if a runtime is asked for, one among them that tolerates it. */
  ghost function Offered(s: Pass, env: Env, q: Selector.Quantities, ts: Selector.Terms, runtime: int)
    : (Pass, Result<string, Queue.SubmitError>)
  {
    var (b, ids) := Matched(s, env, q, ts);
    if ids == [] then (b, Err(Queue.NoMatchingDevice))
    else if runtime <= 0 then (b, Ok(Selector.Print(ts)))
    else
      var c := Turn(b, env);
      if Within(c.db, ids, runtime) == [] then (Turn(c, env), Err(Queue.AboveCeiling)) else (c, Ok(Selector.Print(ts)))
  }

  /** The checks before the transaction, with the access each of them makes; the refusal for want of runtime reads the ceilings once more. */
  ghost function Screened(s: Pass, env: Env, q: Selector.Quantities, r: Queue.Request): (Pass, Result<string, Queue.SubmitError>) {
    if r.command == [] then (s, Err(Queue.CommandRequired))
    else if r.submitter == "" then (s, Err(Queue.SubmitterRequired))
    else if r.device != "" && r.selector != "" then (s, Err(Queue.BothTargets))
    else if r.device == "" && r.selector == "" then (s, Err(Queue.NoTarget))
    else if r.selector == "" then (s, Ok(""))
    else
      match Selector.Parse(r.selector)
      case Err(e) => (s, Err(Queue.BadSelector(e)))
      case Ok(ts) => Offered(s, env, q, ts, r.runtime)
  }

  /** A submission: the checks, and then the transaction on whatever the tables are by then. */
  ghost function Enqueued(db: Db, env: Env, q: Selector.Quantities, id: string, r: Queue.Request): (Db, Queue.Submission) {
    var (s, v) := Screened(Begin(db), env, q, r);
    match v
    case Err(e) => (s.db, Queue.Rejected(e))
    case Ok(text) =>
      var t := Turn(s, env);
      Queue.Entered(t.db, text, id, r, env(s.tick).now)
  }

  /** What the checks of a submission that starts at s read. */
  ghost function SeenFrom(s: Pass, env: Env): Queue.Seen {
    var a := Turn(s, env);
    var b := Turn(a, env);
    Queue.Seen(a.db, b.db, Turn(b, env).db)
  }

  /** The scheduler's lists are empty exactly when a submission finds no device, or none that tolerates its runtime. */
  lemma ListsAreScreened(ceilings: Db, ids: set<string>, runtime: int)
    ensures Sorted(ids) == [] <==> ids == {}
    ensures Within(ceilings, Sorted(ids), runtime) == [] <==> !exists d :: d in ids && Queue.Tolerates(ceilings, d, runtime)
  {
    var all := Sorted(ids);
    var within := Within(ceilings, all, runtime);
    WithinMembers(ceilings, all, runtime);
    hide Within, Sorted, Queue.Tolerates;
    if |all| > 0 { assert all[0] in all; }
    if |within| > 0 { assert within[0] in within; }
    if d :| d in ids { assert d in all; }
  }

  lemma ScreenedIsScreen(s: Pass, env: Env, q: Selector.Quantities, r: Queue.Request)
    ensures Screened(s, env, q, r).1 == Queue.Screen(SeenFrom(s, env), q, r)
  {
    if r.selector != "" && Selector.Parse(r.selector).Ok? {
      var ts := Selector.Parse(r.selector).value;
      var seen := SeenFrom(s, env);
      var ids := Queue.MatchingIds(seen.labels, seen.devices, q, ts);
      ListsAreScreened(seen.ceilings, ids, r.runtime);
      if ids != {} && r.runtime <= 0 { var d :| d in ids; assert Queue.Tolerates(seen.ceilings, d, r.runtime); }
    }
    hide Turn, Within, Sorted, Queue.MatchingIds, Queue.Tolerates, Selector.Parse;
  }

  /** The accesses of the checks: none for a pinned device; labels and devices for a selector; the ceilings only if there is a match and a runtime, and again to refuse it. */
  lemma ScreenAccesses(s: Pass, env: Env, q: Selector.Quantities, r: Queue.Request)
    ensures var (t, v) := Screened(s, env, q, r);
            && (r.selector == "" ==> t.tick == s.tick)
            && (v.Ok? && r.selector != "" && r.runtime <= 0 ==> t.tick == s.tick + 2)
            && (v.Ok? && r.selector != "" && r.runtime > 0 ==> t.tick == s.tick + 3)
            && (v == Err(Queue.NoMatchingDevice) ==> t.tick == s.tick + 2)
            && (v == Err(Queue.AboveCeiling) ==> t.tick == s.tick + 4)
  {
    hide After, Within, Sorted, Selector.Parse, Selector.Print, Queue.MatchingIds;
  }

  /**
   A submission leaves what the Submit step leaves of the tables at its last
   access, given what it read on the way; so a run with submissions in it is
   a run of the steps every theorem is about.
   */
  lemma EnqueueIsASubmission(db: Db, env: Env, q: Selector.Quantities, id: string, r: Queue.Request)
    ensures var s := Screened(Begin(db), env, q, r).0;
            var seen := SeenFrom(Begin(db), env);
            Enqueued(db, env, q, id, r).0 ==
            if Queue.Screen(seen, q, r).Err? then s.db
            else Apply(Turn(s, env).db, At(env(s.tick).now, Submit(id, r, q, seen)))
  {
    ScreenedIsScreen(Begin(db), env, q, r);
    hide Screened, SeenFrom, Turn, Queue.Screen;
  }

  /** A cancellation: the job, and, if it was still queued, then its reservations. */
  function Cancelled(db: Db, env: Env, j: string, reason: string): (Db, bool) {
    var a := Turn(Begin(db), env);
    if j in a.db.jobs && a.db.jobs[j].state.Queued? then
      var b := Turn(a.(db := CancelQueued(a.db, j, reason, env(0).now)), env);
      (Transactions.Unreserve(b.db, j), true)
    else (a.db, false)
  }

  /** A cancellation succeeds exactly if the job is still queued at its first access; otherwise it leaves the tables as they are there. */
  lemma CancelSucceedsIff(db: Db, env: Env, j: string, reason: string)
    ensures var a := Turn(Begin(db), env).db;
            && (Cancelled(db, env, j, reason).1 <==> j in a.jobs && a.jobs[j].state == Queued)
            && (!Cancelled(db, env, j, reason).1 ==> Cancelled(db, env, j, reason).0 == a)
  {
    hide After;
  }

  /** However long the second statement takes, the job is killed at once and stays so, and no reservation in its name survives it. */
  lemma CancelIsFinal(db: Db, env: Env, j: string, reason: string)
    requires Cancelled(db, env, j, reason).1
    ensures var e := Cancelled(db, env, j, reason).0;
            && j in e.jobs && e.jobs[j].state.Killed?
            && forall d :: d in e.reservations ==> e.reservations[d] != j
  {
    var a := Turn(Begin(db), env);
    var x := CancelQueued(a.db, j, reason, env(0).now);
    var es := env(1).others;
    NeverRequeued(x, es, 0, |es|, j);
    hide Apply;
  }
}
