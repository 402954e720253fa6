/**
 Why exclusivity needs hosts without a colon: device ids are host:name, so the
 host "a:b" with device "c" and the host "a" with device "b:c" declare the same
 row, and the second registration puts it back in the pool under a running job.
 */
module Collision {
  import opened Wrappers
  import opened Model
  import opened Transactions
  import opened Ownership
  import opened Runs
  import Queue

  const ID := "a:b:c"

  function Pinned(): Queue.Request {
    Queue.Request(ID, "", ["true"], "me", "", 0, 0, JobKind)
  }

  function Registers(host: string, name: string): Event {
    At(0, Register(host, "", {name}))
  }

  function Submits(id: string): Event {
    At(0, Submit(id, Pinned(), _ => None, Queue.Seen(EMPTY_DB, EMPTY_DB, EMPTY_DB)))
  }

  const FIRST := Registers("a:b", "c")
  const SECOND := Registers("a", "b:c")

  const RUN: Run := [FIRST, Submits("x"), At(0, Assign("x", ID)), SECOND, Submits("y"), At(0, Assign("y", ID))]

  lemma SameId()
    ensures DeviceId("a:b", "c") == ID && DeviceId("a", "b:c") == ID
    ensures DeviceIds("a:b", {"c"}) == {ID} && DeviceIds("a", {"b:c"}) == {ID}
  {
    assert DeviceId("a:b", "c") == ID;
    assert DeviceId("a", "b:c") == ID;
  }

  /** The device is in the pool, with no ceiling. */
  predicate Free(db: Db) {
    ID in db.devices && db.devices[ID].state.Ready? && db.devices[ID].ceiling == 0
  }

  /** A worker with nothing in flight puts the device it declares in the pool, unless it was unhealthy. */
  lemma IdleRegistration(db: Db, host: string, name: string)
    requires DeviceIds(host, {name}) == {ID} && host != "" && host !in db.workers && InFlight(db, host) == {}
    requires ID in db.devices ==> !db.devices[ID].state.Unhealthy? && db.devices[ID].ceiling == 0
    ensures var e := Apply(db, Registers(host, name));
            && Free(e) && e.devices[ID].worker == host && e.jobs == db.jobs && e.leases == db.leases && e.nextLease == db.nextLease
            && e.workers.Keys == db.workers.Keys + {host}
  {
    IdleUpsert(db, host);
    hide Upsert, DeviceIds, Free;
  }

  lemma IdleUpsert(db: Db, w: string)
    requires w !in db.workers && InFlight(db, w) == {}
    requires ID in db.devices ==> !db.devices[ID].state.Unhealthy? && db.devices[ID].ceiling == 0
    ensures var e := Upsert(db, w, "", {ID}, 0);
            && Free(e) && e.devices[ID].worker == w && e.jobs == db.jobs && e.leases == db.leases && e.nextLease == db.nextLease
            && e.workers.Keys == db.workers.Keys + {w}
  {
    var start := db.(workers := db.workers[w := Worker("", 0)]);
    assert InFlight(start, w) == {};
    var reaped := ReapInFlight(start, w, false, 0);
    assert reaped.jobs == db.jobs && reaped.leases == db.leases;
  }

  lemma PinnedSubmission(db: Db, id: string)
    requires Free(db) && id != "" && id !in db.jobs
    ensures var e := Apply(db, Submits(id));
            && e == db.(jobs := e.jobs, nextRow := db.nextRow + 1)
            && e.jobs.Keys == db.jobs.Keys + {id} && e.jobs[id].state.Queued? && (forall j :: j in db.jobs ==> e.jobs[j] == db.jobs[j])
  {
    assert !Queue.HasKey(db, "");
  }

  /** A job pinned to the free device is submitted and gets a lease on it. */
  lemma Occupied(db: Db, id: string)
    requires Free(db) && id != "" && id !in db.jobs
    ensures var e := Apply(Apply(db, Submits(id)), At(0, Assign(id, ID)));
            && ID in e.devices && e.devices[ID].state.Busy? && e.devices[ID].ceiling == 0
            && e.jobs.Keys == db.jobs.Keys + {id} && e.jobs[id].worker == db.devices[ID].worker
            && (forall j :: j in db.jobs ==> e.jobs[j] == db.jobs[j])
            && e.workers == db.workers && e.nextLease == db.nextLease + 1
            && (forall l :: l in db.leases && l != db.nextLease ==> l in e.leases && e.leases[l] == db.leases[l])
            && db.nextLease in e.leases && e.leases[db.nextLease].live && e.leases[db.nextLease].device == ID
  {
    hide Apply;
    PinnedSubmission(db, id);
    PinnedAssignment(Apply(db, Submits(id)), id);
  }

  lemma PinnedAssignment(db: Db, id: string)
    requires Free(db) && id in db.jobs && db.jobs[id].state.Queued?
    ensures var e := Apply(db, At(0, Assign(id, ID)));
            && ID in e.devices && e.devices[ID].state.Busy? && e.devices[ID].ceiling == 0
            && e.jobs.Keys == db.jobs.Keys && e.jobs[id].worker == db.devices[ID].worker
            && (forall j :: j in db.jobs && j != id ==> e.jobs[j] == db.jobs[j])
            && e.workers == db.workers && e.nextLease == db.nextLease + 1
            && (forall l :: l in db.leases && l != db.nextLease ==> l in e.leases && e.leases[l] == db.leases[l])
            && db.nextLease in e.leases && e.leases[db.nextLease].live && e.leases[db.nextLease].device == ID
  {
  }

  ghost predicate Doubled(db: Db) {
    exists k, l :: k != l && k in db.leases && l in db.leases && db.leases[k].live && db.leases[l].live
                   && db.leases[k].device == ID && db.leases[l].device == ID
  }

  /** The colliding run ends with two live leases on one device. */
  lemma ColonsBreakExclusivity()
    ensures Doubled(After(EMPTY_DB, RUN, |RUN|))
    ensures PlainHost(RUN[3]) && !PlainHost(RUN[0])
  {
    hide Apply, DeviceIds;
    SameId();
    var d1 := Apply(EMPTY_DB, FIRST);
    IdleRegistration(EMPTY_DB, "a:b", "c");
    Occupied(d1, "x");
    var d3 := Apply(Apply(d1, Submits("x")), At(0, Assign("x", ID)));
    IdleRegistration(d3, "a", "b:c");
    var d4 := Apply(d3, SECOND);
    Occupied(d4, "y");
    var d6 := Apply(Apply(d4, Submits("y")), At(0, Assign("y", ID)));
    assert d6.leases[0].live && d6.leases[1].live;
    assert Doubled(d6);
    RunUnfolds();
  }

  lemma RunUnfolds()
    ensures var d3 := Apply(Apply(Apply(EMPTY_DB, FIRST), Submits("x")), At(0, Assign("x", ID)));
            After(EMPTY_DB, RUN, |RUN|) == Apply(Apply(Apply(d3, SECOND), Submits("y")), At(0, Assign("y", ID)))
  {
    hide Apply;
    var d3 := Apply(Apply(Apply(EMPTY_DB, FIRST), Submits("x")), At(0, Assign("x", ID)));
    assert After(EMPTY_DB, RUN, 0) == EMPTY_DB;
    assert After(EMPTY_DB, RUN, 1) == Apply(EMPTY_DB, FIRST);
    assert After(EMPTY_DB, RUN, 2) == Apply(Apply(EMPTY_DB, FIRST), Submits("x"));
    assert After(EMPTY_DB, RUN, 3) == d3;
    assert After(EMPTY_DB, RUN, 4) == Apply(d3, SECOND);
    assert After(EMPTY_DB, RUN, 5) == Apply(Apply(d3, SECOND), Submits("y"));
  }
}
