/**
 What is not one transaction is still a run: a scheduling pass, a submission
 and a cancellation, with anything before each of their accesses, take the
 tables where some run of events takes them. Whatever holds of every
 run therefore holds after them.
 */
module Interleaving {
  import opened Wrappers
  import opened Model
  import opened Transactions
  import opened Ownership
  import opened Runs
  import opened Scheduling
  import Queue
  import Selector
  import Submissions

  /** What comes between the accesses registers no host with a colon in its name. */
  ghost predicate PlainEnv(env: Env) {
    forall t, i :: 0 <= i < |env(t).others| ==> PlainHost(env(t).others[i])
  }

  lemma TurnReaches(s: Pass, env: Env)
    requires PlainEnv(env)
    ensures Reaches(s.db, Turn(s, env).db)
  {
    hide After, PlainHost;
    ReachesAlong(s.db, env(s.tick).others);
  }

  /** Others, and then an access that is the event e. */
  lemma AccessReaches(s: Pass, env: Env, e: Event)
    requires PlainEnv(env) && PlainHost(e)
    ensures Reaches(s.db, Apply(Turn(s, env).db, e))
  {
    hide Reaches, PlainHost, Apply, Turn;
    TurnReaches(s, env);
    ReachesNext(Turn(s, env).db, e);
    ReachesFurther(s.db, Turn(s, env).db, Apply(Turn(s, env).db, e));
  }

  // ----- The pass

  lemma {:induction false} RowsReach(s: Pass, env: Env, ids: seq<string>)
    requires PlainEnv(env) && forall j :: j in ids ==> j in s.db.jobs
    ensures Reaches(s.db, ReadRows(s, env, ids).0.db)
  {
    hide Reaches, PlainEnv, Turn, Follows;
    if ids == [] {
      ReachesItself(s.db);
    } else {
      var p := ReadRows(s, env, ids[..|ids| - 1]).0;
      RowsReach(s, env, ids[..|ids| - 1]);
      TurnReaches(p, env);
      ReachesFurther(s.db, p.db, Turn(p, env).db);
    }
  }

  lemma ChooseReaches(s: Pass, env: Env, q: Selector.Quantities, row: Job)
    requires PlainEnv(env)
    ensures Reaches(s.db, Choose(s, env, q, row).0.db)
  {
    hide Reaches, PlainEnv, Turn, Within, Sorted, Selector.Parse;
    var a := Turn(s, env);
    var b := Turn(a, env);
    ReachesItself(s.db);
    TurnReaches(s, env);
    TurnReaches(a, env);
    TurnReaches(b, env);
    ReachesFurther(s.db, a.db, b.db);
    ReachesFurther(s.db, b.db, Turn(b, env).db);
  }

  lemma {:induction false} TryReaches(s: Pass, env: Env, k: nat, j: string, ds: seq<string>)
    requires PlainEnv(env)
    ensures Reaches(s.db, TryEach(s, env, k, j, ds).0.db)
    decreases |ds|
  {
    hide Reaches, PlainEnv, Turn, Transactions.Assign, AssignOutcomeOf;
    if ds == [] {
      ReachesItself(s.db);
    } else {
      var t := Turn(s, env);
      TurnReaches(s, env);
      TryStep(s, env, k, j, ds);
      match AssignOutcomeOf(t.db, j, ds[0])
      case NoDevice =>
        TryReaches(t, env, k, j, ds[1..]);
        ReachesFurther(s.db, t.db, TryEach(t, env, k, j, ds[1..]).0.db);
      case NoLongerQueued =>
      case Placed => AccessReaches(s, env, At(env(s.tick).now, Op.Assign(j, ds[0])));
    }
  }

  lemma {:induction false} ReserveReaches(s: Pass, env: Env, j: string, ds: seq<string>)
    requires PlainEnv(env)
    ensures Reaches(s.db, ReserveEach(s, env, j, ds).db)
  {
    hide Reaches, PlainEnv, Turn;
    if ds == [] {
      ReachesItself(s.db);
    } else {
      var n := |ds| - 1;
      var p := ReserveEach(s, env, j, ds[..n]);
      ReserveReaches(s, env, j, ds[..n]);
      AccessReaches(p, env, At(0, Op.Reserve(j, ds[n])));
      ReachesFurther(s.db, p.db, ReserveEach(s, env, j, ds).db);
    }
  }

  lemma VisitReaches(s: Pass, env: Env, q: Selector.Quantities, j: string, row: Job)
    requires PlainEnv(env)
    ensures Reaches(s.db, Visit(s, env, q, j, row).db)
  {
    hide Reaches, PlainEnv, Choose, Free;
    var (c, ds) := Choose(s, env, q, row);
    var v := c.(wanted := c.wanted + [ds]);
    var free := Free(ds, v.reserved);
    var t := TryEach(v, env, |s.wanted|, j, free).0;
    ChooseReaches(s, env, q, row);
    TryReaches(v, env, |s.wanted|, j, free);
    ReserveReaches(t, env, j, free);
    ReachesFurther(s.db, v.db, t.db);
    ReachesFurther(s.db, t.db, ReserveEach(t, env, j, free).db);
  }

  lemma {:induction false} VisitsReach(s: Pass, env: Env, q: Selector.Quantities, ids: seq<string>, rows: seq<Job>, n: nat)
    requires PlainEnv(env) && n <= |ids| == |rows|
    ensures Reaches(s.db, VisitAll(s, env, q, ids, rows, n).db)
  {
    hide Reaches, PlainEnv, Visit;
    if n == 0 {
      ReachesItself(s.db);
    } else {
      var p := VisitAll(s, env, q, ids, rows, n - 1);
      VisitsReach(s, env, q, ids, rows, n - 1);
      VisitReaches(p, env, q, ids[n - 1], rows[n - 1]);
      ReachesFurther(s.db, p.db, VisitAll(s, env, q, ids, rows, n).db);
    }
  }

  lemma BegunReached(db: Db, env: Env)
    requires Ticketed(db) && PlainEnv(env)
    ensures Reaches(db, Begun(db, env).db)
  {
    hide Reaches, PlainEnv, Turn, ReadRows, Ticketed, Queue.RowsDistinct;
    var start := Pass(db, 0, {}, [], []);
    var first := Turn(start, env);
    EntriesAreQueued(db, env);
    var p := ReadRows(first, env, Entries(db, env)).0;
    TurnReaches(start, env);
    RowsReach(first, env, Entries(db, env));
    AccessReaches(p, env, At(0, Op.ClearReservations));
    ReachesFurther(db, first.db, p.db);
    ReachesFurther(db, p.db, Begun(db, env).db);
  }

  /** A pass of the scheduler, whatever comes between its accesses. */
  lemma PassIsARun(db: Db, env: Env, q: Selector.Quantities)
    requires Ticketed(db) && PlainEnv(env)
    ensures Reaches(db, ScheduleOnce(db, env, q).db)
  {
    hide Reaches, PlainEnv, VisitAll, Begun, Entries, Rows, Ticketed;
    BegunReached(db, env);
    VisitsReach(Begun(db, env), env, q, Entries(db, env), Rows(db, env), |Entries(db, env)|);
    ReachesFurther(db, Begun(db, env).db, ScheduleOnce(db, env, q).db);
  }

  // ----- Submissions and cancellations

  lemma ScreenedReaches(s: Pass, env: Env, q: Selector.Quantities, r: Queue.Request)
    requires PlainEnv(env)
    ensures Reaches(s.db, Submissions.Screened(s, env, q, r).0.db)
  {
    hide Reaches, PlainEnv, Turn, Within, Sorted, Selector.Parse, Selector.Print;
    var a := Turn(s, env);
    var b := Turn(a, env);
    var c := Turn(b, env);
    ReachesItself(s.db);
    TurnReaches(s, env);
    TurnReaches(a, env);
    TurnReaches(b, env);
    TurnReaches(c, env);
    ReachesFurther(s.db, a.db, b.db);
    ReachesFurther(s.db, b.db, c.db);
    ReachesFurther(s.db, c.db, Turn(c, env).db);
  }

  lemma SubmissionIsARun(db: Db, env: Env, q: Selector.Quantities, id: string, r: Queue.Request)
    requires PlainEnv(env)
    ensures Reaches(db, Submissions.Enqueued(db, env, q, id, r).0)
  {
    hide Reaches, PlainEnv, Turn, Submissions.Screened, Queue.Screen, Submissions.SeenFrom, Queue.Submit, Submissions.Enqueued;
    var s := Submissions.Screened(Submissions.Begin(db), env, q, r).0;
    var seen := Submissions.SeenFrom(Submissions.Begin(db), env);
    ScreenedReaches(Submissions.Begin(db), env, q, r);
    Submissions.EnqueueIsASubmission(db, env, q, id, r);
    var e := At(env(s.tick).now, Op.Submit(id, r, q, seen));
    AccessReaches(s, env, e);
    ReachesFurther(db, s.db, Apply(Turn(s, env).db, e));
  }

  lemma CancellationIsARun(db: Db, env: Env, j: string, reason: string)
    requires PlainEnv(env)
    ensures Reaches(db, Submissions.Cancelled(db, env, j, reason).0)
  {
    hide Reaches, PlainEnv, Turn, CancelQueued, Transactions.Unreserve;
    var s := Submissions.Begin(db);
    var a := Turn(s, env);
    TurnReaches(s, env);
    AccessReaches(s, env, At(env(0).now, Op.Cancel(j, reason)));
    var x := a.(db := CancelQueued(a.db, j, reason, env(0).now));
    AccessReaches(x, env, At(0, Op.Unreserve(j)));
    ReachesFurther(db, x.db, Transactions.Unreserve(Turn(x, env).db, j));
  }

  /** So exclusivity, and the rest of the invariant, survive them all. */
  lemma InterleavedStaysSound(a: Db, b: Db)
    requires Sound(a) && Reaches(a, b)
    ensures Sound(b)
  {
    hide After, PlainHost, Sound;
    var es: Run :| (forall i :: 0 <= i < |es| ==> PlainHost(es[i])) && After(a, es, |es|) == b;
    RunIsSound(a, es, |es|);
  }
}
