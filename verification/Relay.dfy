/**
 The interactive relay (internal/server/tty.go): terminal sessions, their two
 pipes, and the up to four streams attached to each. Handlers run at once;
 what a handler does under one lock is one step here. Sessions, pipes and
 halves are told apart by number, as the source tells them apart by address.
 */
module Relay {
  import opened Wrappers

  datatype Slot = ClientOut | WorkerOut | ClientIn | WorkerIn {
    predicate Output() {
      ClientOut? || WorkerOut?
    }
  }

  /** session: whose pipe it is. */
  datatype Pipe = Pipe(session: nat, closed: bool)

  /** How far ttySession.close has come; it reads the input pipe before it closes anything. */
  datatype Closing = Open | Marked(inp: nat) | OutShut(inp: nat) | Shut

  /** attached: the taken slots, and by which half. */
  datatype Session = Session(job: string, out: nat, inp: nat, dead: bool, closing: Closing, attached: map<Slot, nat>)

  /** Where a half is in its teardown. */
  datatype Phase = Streaming | MustCloseThenRelease | MustRelease | MustClose | Gone

  datatype Half = Half(session: nat, slot: Slot, pipe: nat, phase: Phase) {
    predicate Attached() {
      phase.Streaming? || phase.MustCloseThenRelease? || phase.MustRelease?
    }

    predicate Closes() {
      phase.MustCloseThenRelease? || phase.MustClose?
    }
  }

  datatype State = State(
    registry: map<string, nat>, sessions: map<nat, Session>, pipes: map<nat, Pipe>, halves: map<nat, Half>, next: nat)

  const EMPTY := State(map[], map[], map[], map[], 0)

  // ----- Steps

  predicate Registered(st: State, s: nat) {
    s in st.sessions && st.sessions[s].job in st.registry && st.registry[st.sessions[s].job] == s
  }

  function ShutPipe(st: State, p: nat): State {
    if p in st.pipes then st.(pipes := st.pipes[p := st.pipes[p].(closed := true)]) else st
  }

  /** forgetLocked: only if it is still the one registered for its job. */
  function Forget(st: State, s: nat): State {
    if Registered(st, s) then st.(registry := st.registry - {st.sessions[s].job}) else st
  }

  /** acquire finds no session for the job: a new one, with the half on it. */
  function AttachFirst(st: State, job: string, slot: Slot): State {
    var s, out, inp, h := st.next, st.next + 1, st.next + 2, st.next + 3;
    State(st.registry[job := s],
          st.sessions[s := Session(job, out, inp, false, Open, map[slot := h])],
          st.pipes[out := Pipe(s, false)][inp := Pipe(s, false)],
          st.halves[h := Half(s, slot, if slot.Output() then out else inp, Streaming)],
          st.next + 5)
  }

  /** renewIn replaces a closed input pipe of a live session. */
  predicate Renews(st: State, s: nat, slot: Slot)
    requires s in st.sessions
  {
    && !slot.Output() && !st.sessions[s].dead
    && st.sessions[s].inp in st.pipes && st.pipes[st.sessions[s].inp].closed
  }

  function AttachTo(st: State, s: nat, slot: Slot): State
    requires s in st.sessions
  {
    var v, h, renewed := st.sessions[s], st.next, st.next + 1;
    var inp := if Renews(st, s, slot) then renewed else v.inp;
    st.(sessions := st.sessions[s := v.(attached := v.attached[slot := h], inp := inp)],
        pipes := if Renews(st, s, slot) then st.pipes[renewed := Pipe(s, false)] else st.pipes,
        halves := st.halves[h := Half(s, slot, if slot.Output() then v.out else inp, Streaming)],
        next := st.next + 2)
  }

  /** A new session for the job, with nobody attached yet. */
  function Opened(st: State, job: string): State {
    st.(registry := st.registry[job := st.next],
        sessions := st.sessions[st.next := Session(job, st.next + 1, st.next + 2, false, Open, map[])],
        pipes := st.pipes[st.next + 1 := Pipe(st.next, false)][st.next + 2 := Pipe(st.next, false)],
        next := st.next + 3)
  }

  lemma FirstIsOpenedThenAttached(st: State, job: string, slot: Slot)
    ensures AttachFirst(st, job, slot) == AttachTo(Opened(st, job), st.next, slot)
  {
  }

  predicate Busy(st: State, job: string, slot: Slot) {
    job in st.registry && st.registry[job] in st.sessions && slot in st.sessions[st.registry[job]].attached
  }

  function Acquire(st: State, job: string, slot: Slot): State {
    if job !in st.registry then AttachFirst(st, job, slot)
    else if st.registry[job] !in st.sessions || Busy(st, job, slot) then st
    else AttachTo(st, st.registry[job], slot)
  }

  function SetPhase(st: State, h: nat, phase: Phase): State
    requires h in st.halves
  {
    st.(halves := st.halves[h := st.halves[h].(phase := phase)])
  }

  /** The first step of a half's teardown: an output half unregisters the session, an input half closes its own pipe. */
  function Teardown(st: State, h: nat): State {
    if !(h in st.halves && st.halves[h].phase.Streaming?) then st
    else if st.halves[h].slot.Output() then SetPhase(Forget(st, st.halves[h].session), h, MustCloseThenRelease)
    else SetPhase(ShutPipe(st, st.halves[h].pipe), h, MustRelease)
  }

  /** One step of ttySession.close on behalf of half h. */
  function CloseStep(st: State, h: nat): State {
    if !(h in st.halves && st.halves[h].Closes() && st.halves[h].session in st.sessions) then st
    else
      var s := st.halves[h].session;
      var v := st.sessions[s];
      match v.closing
      case Open => st.(sessions := st.sessions[s := v.(dead := true, closing := Marked(v.inp))])
      case Marked(p) => ShutPipe(st.(sessions := st.sessions[s := v.(closing := OutShut(p))]), v.out)
      case OutShut(p) => ShutPipe(st.(sessions := st.sessions[s := v.(closing := Shut)]), p)
      case Shut => SetPhase(st, h, if st.halves[h].phase.MustCloseThenRelease? then MustRelease else Gone)
  }

  /** release: detach, and unregister a session left with nobody. */
  function Release(st: State, h: nat): State {
    if !(h in st.halves && st.halves[h].phase.MustRelease? && st.halves[h].session in st.sessions) then st
    else
      var s := st.halves[h].session;
      var v := st.sessions[s].(attached := st.sessions[s].attached - {st.halves[h].slot});
      var t := st.(sessions := st.sessions[s := v]);
      if v.attached == map[] then SetPhase(Forget(t, s), h, MustClose) else SetPhase(t, h, Gone)
  }

  /** Hangup: the half's context watcher or handoff guard closes its pipe, at any time, even late. */
  datatype Event =
    | Connect(job: string, slot: Slot)
    | Hangup(half: nat)
    | Finish(half: nat)
    | CloseOn(half: nat)
    | Detach(half: nat)

  function Step(st: State, e: Event): State {
    match e
    case Connect(job, slot) => Acquire(st, job, slot)
    case Hangup(h) => if h in st.halves then ShutPipe(st, st.halves[h].pipe) else st
    case Finish(h) => Teardown(st, h)
    case CloseOn(h) => CloseStep(st, h)
    case Detach(h) => Release(st, h)
  }

  function After(es: seq<Event>, n: nat): State
    requires n <= |es|
  {
    if n == 0 then EMPTY else Step(After(es, n - 1), es[n - 1])
  }

  // ----- The invariant

  ghost predicate RegistryOk(st: State, job: string) {
    job in st.registry ==>
      && st.registry[job] in st.sessions
      && var v := st.sessions[st.registry[job]];
         v.job == job && !v.dead && v.attached != map[]
  }

  predicate Owned(st: State, p: nat, s: nat) {
    p in st.pipes && st.pipes[p].session == s
  }

  predicate ClosedPipe(st: State, p: nat) {
    p in st.pipes && st.pipes[p].closed
  }

  /** Half h will close session s. */
  ghost predicate Owes(st: State, h: nat, s: nat) {
    h in st.halves && st.halves[h].session == s && st.halves[h].Closes()
  }

  ghost predicate SessionOk(st: State, s: nat) {
    s in st.sessions ==>
      var v := st.sessions[s];
      && s < st.next && Owned(st, v.out, s) && Owned(st, v.inp, s) && v.out != v.inp
      && (v.dead <==> !v.closing.Open?)
      && (v.closing.Marked? || v.closing.OutShut? ==> v.closing.inp == v.inp)
      && (v.closing.OutShut? || v.closing.Shut? ==> ClosedPipe(st, v.out))
      && (v.closing.Shut? ==> ClosedPipe(st, v.inp))
      && (!Registered(st, s) && !v.dead ==> exists h :: Owes(st, h, s))
  }

  /** A taken slot is taken by a half that knows it. */
  ghost predicate SlotOk(st: State, s: nat, slot: Slot) {
    s in st.sessions && slot in st.sessions[s].attached ==>
      var h := st.sessions[s].attached[slot];
      h in st.halves && st.halves[h].session == s && st.halves[h].slot == slot && st.halves[h].Attached()
  }

  ghost predicate HalfOk(st: State, h: nat) {
    h in st.halves ==>
      var x := st.halves[h];
      && h < st.next && x.session in st.sessions && Owned(st, x.pipe, x.session)
      && var v := st.sessions[x.session];
         && (x.Attached() ==> x.slot in v.attached && v.attached[x.slot] == h)
         && (x.slot.Output() ==> x.pipe == v.out)
         && (!x.slot.Output() && !ClosedPipe(st, x.pipe) ==> x.pipe == v.inp)
         && (x.Closes() ==> !Registered(st, x.session))
         && (x.slot.Output() && (x.phase.MustRelease? || x.phase.MustClose? || x.phase.Gone?) ==> v.closing.Shut?)
         && (!x.slot.Output() && !x.phase.Streaming? ==> ClosedPipe(st, x.pipe))
  }

  ghost predicate Consistent(st: State) {
    && (forall job :: RegistryOk(st, job))
    && (forall s :: SessionOk(st, s))
    && (forall s, slot :: SlotOk(st, s, slot))
    && (forall h :: HalfOk(st, h))
    && (forall p :: p in st.pipes ==> p < st.next)
  }

  // ----- One step keeps it

  lemma SessionRows(st: State, h: nat, x: nat)
    requires Consistent(st)
    ensures SessionOk(st, x) && HalfOk(st, h)
    ensures h in st.halves ==> SessionOk(st, st.halves[h].session)
  {
  }

  lemma SlotRows(st: State, x: nat, y: Slot)
    requires Consistent(st)
    ensures SlotOk(st, x, y)
    ensures x in st.sessions && y in st.sessions[x].attached ==> HalfOk(st, st.sessions[x].attached[y])
  {
  }

  lemma ConnectKeeps(st: State, job: string, slot: Slot)
    requires Consistent(st)
    ensures Consistent(Acquire(st, job, slot))
  {
    if job !in st.registry {
      AttachFirstKeeps(st, job, slot);
    } else {
      assert RegistryOk(st, job);
      if !Busy(st, job, slot) { AttachToKeeps(st, st.registry[job], slot); }
    }
  }

  lemma AttachFirstKeeps(st: State, job: string, slot: Slot)
    requires Consistent(st) && job !in st.registry
    ensures Consistent(AttachFirst(st, job, slot))
  {
    hide HalfOk;
    var t := AttachFirst(st, job, slot);
    assert slot in t.sessions[st.next].attached;
    forall j ensures RegistryOk(t, j) {
      assert RegistryOk(st, j);
      if j in st.registry { assert SessionOk(st, st.registry[j]); }
    }
    forall s ensures SessionOk(t, s) {
      assert SessionOk(st, s);
      if s in st.sessions && !Registered(st, s) && !st.sessions[s].dead {
        var h :| Owes(st, h, s);
        HalfIsOld(st, h);
        assert Owes(t, h, s);
      }
    }
    forall s, x ensures SlotOk(t, s, x) {
      assert SlotOk(st, s, x) && SessionOk(st, s);
      if s in st.sessions && x in st.sessions[s].attached { HalfIsOld(st, st.sessions[s].attached[x]); }
    }
    forall h ensures HalfOk(t, h) { AttachedFirstHalfOk(st, job, slot, h); }
  }

  lemma HalfIsOld(st: State, h: nat)
    requires Consistent(st) && h in st.halves
    ensures h < st.next
  {
    assert HalfOk(st, h);
  }

  lemma AttachedFirstHalfOk(st: State, job: string, slot: Slot, h: nat)
    requires Consistent(st) && job !in st.registry
    ensures HalfOk(AttachFirst(st, job, slot), h)
  {
    assert HalfOk(st, h);
    if h in st.halves { assert SessionOk(st, st.halves[h].session); }
  }

  lemma AttachedSessionOk(st: State, s: nat, slot: Slot, x: nat)
    requires Consistent(st) && Registered(st, s) && slot !in st.sessions[s].attached
    ensures SessionOk(AttachTo(st, s, slot), x)
  {
    var t := AttachTo(st, s, slot);
    assert RegistryOk(st, st.sessions[s].job);
    hide Consistent, RegistryOk;
    SessionRows(st, st.next, x);
    if x in st.sessions && !Registered(st, x) && !st.sessions[x].dead {
      var h :| Owes(st, h, x);
      SessionRows(st, h, x);
      assert Owes(t, h, x);
    }
  }

  lemma AttachedSlotOk(st: State, s: nat, slot: Slot, x: nat, y: Slot)
    requires Consistent(st) && Registered(st, s) && slot !in st.sessions[s].attached
    ensures SlotOk(AttachTo(st, s, slot), x, y)
  {
    hide Consistent, SessionOk;
    SlotRows(st, x, y);
  }

  lemma AttachedHalfOk(st: State, s: nat, slot: Slot, h: nat)
    requires Consistent(st) && Registered(st, s) && slot !in st.sessions[s].attached
    ensures HalfOk(AttachTo(st, s, slot), h)
  {
    assert RegistryOk(st, st.sessions[s].job);
    hide Consistent, RegistryOk, SlotOk;
    SessionRows(st, h, s);
  }

  lemma AttachToKeeps(st: State, s: nat, slot: Slot)
    requires Consistent(st) && Registered(st, s) && slot !in st.sessions[s].attached
    ensures Consistent(AttachTo(st, s, slot))
  {
    hide SessionOk, HalfOk, SlotOk;
    var t := AttachTo(st, s, slot);
    forall j ensures RegistryOk(t, j) { assert RegistryOk(st, j); }
    forall x ensures SessionOk(t, x) { AttachedSessionOk(st, s, slot, x); }
    forall x, y ensures SlotOk(t, x, y) { AttachedSlotOk(st, s, slot, x, y); }
    forall h ensures HalfOk(t, h) { AttachedHalfOk(st, s, slot, h); }
  }

  lemma ShutKeeps(st: State, p: nat)
    requires Consistent(st)
    ensures Consistent(ShutPipe(st, p))
  {
    var t := ShutPipe(st, p);
    forall j ensures RegistryOk(t, j) { assert RegistryOk(st, j); }
    forall s ensures SessionOk(t, s) {
      assert SessionOk(st, s);
      if s in st.sessions && !Registered(st, s) && !st.sessions[s].dead {
        var h :| Owes(st, h, s);
        assert Owes(t, h, s);
      }
    }
    forall s, x ensures SlotOk(t, s, x) { assert SlotOk(st, s, x); }
    forall h ensures HalfOk(t, h) { assert HalfOk(st, h); }
  }

  lemma TornSessionOk(st: State, h: nat, x: nat)
    requires Consistent(st)
    ensures SessionOk(Teardown(st, h), x)
  {
    hide Consistent, RegistryOk, SlotOk;
    var t := Teardown(st, h);
    SessionRows(st, h, x);
    if t != st && x in st.sessions && !Registered(t, x) && !st.sessions[x].dead {
      if Registered(st, x) {
        assert Owes(t, h, x);
      } else {
        var k :| Owes(st, k, x);
        assert Owes(t, k, x);
      }
    }
  }

  lemma TornSlotOk(st: State, h: nat, x: nat, y: Slot)
    requires Consistent(st)
    ensures SlotOk(Teardown(st, h), x, y)
  {
    hide Consistent, SessionOk;
    SlotRows(st, x, y);
  }

  lemma TornHalfOk(st: State, h: nat, k: nat)
    requires Consistent(st)
    ensures HalfOk(Teardown(st, h), k)
  {
    SessionRows(st, k, 0);
    SessionRows(st, h, 0);
    hide Consistent, SessionOk, SlotOk;
  }

  lemma TeardownKeeps(st: State, h: nat)
    requires Consistent(st)
    ensures Consistent(Teardown(st, h))
  {
    hide SessionOk, HalfOk, SlotOk;
    var t := Teardown(st, h);
    forall j ensures RegistryOk(t, j) { assert RegistryOk(st, j); }
    forall x ensures SessionOk(t, x) { TornSessionOk(st, h, x); }
    forall x, y ensures SlotOk(t, x, y) { TornSlotOk(st, h, x, y); }
    forall k ensures HalfOk(t, k) { TornHalfOk(st, h, k); }
  }

  lemma ClosedSessionOk(st: State, h: nat, x: nat)
    requires Consistent(st)
    ensures SessionOk(CloseStep(st, h), x)
  {
    hide Consistent, RegistryOk, SlotOk;
    var t := CloseStep(st, h);
    SessionRows(st, h, x);
    if h in st.halves && x in st.sessions && !Registered(t, x) && !t.sessions[x].dead {
      var k :| Owes(st, k, x);
      assert Owes(t, k, x);
    }
  }

  lemma ClosedHalfOk(st: State, h: nat, k: nat)
    requires Consistent(st)
    ensures HalfOk(CloseStep(st, h), k)
  {
    hide SlotOk, RegistryOk, Consistent;
    RowsOk(st, h, k);
    if h in st.halves { RowsOk(st, k, h); }
  }

  lemma RowsOk(st: State, h: nat, k: nat)
    requires Consistent(st)
    ensures HalfOk(st, h) && HalfOk(st, k)
    ensures h in st.halves ==> SessionOk(st, st.halves[h].session)
  {
  }

  lemma CloseKeeps(st: State, h: nat)
    requires Consistent(st)
    ensures Consistent(CloseStep(st, h))
  {
    hide SessionOk, HalfOk;
    var t := CloseStep(st, h);
    if h in st.halves { CloserIsUnregistered(st, h); }
    forall j ensures RegistryOk(t, j) { assert RegistryOk(st, j); }
    forall x ensures SessionOk(t, x) { ClosedSessionOk(st, h, x); }
    forall x, y ensures SlotOk(t, x, y) { ClosedSlotOk(st, h, x, y); }
    forall k ensures HalfOk(t, k) { ClosedHalfOk(st, h, k); }
  }

  lemma CloserIsUnregistered(st: State, h: nat)
    requires Consistent(st) && h in st.halves
    ensures st.halves[h].Closes() ==> !Registered(st, st.halves[h].session)
  {
    assert HalfOk(st, h);
  }

  lemma ClosedSlotOk(st: State, h: nat, x: nat, y: Slot)
    requires Consistent(st)
    ensures SlotOk(CloseStep(st, h), x, y)
  {
    assert SlotOk(st, x, y);
    if x in st.sessions && y in st.sessions[x].attached { assert HalfOk(st, st.sessions[x].attached[y]); }
  }

  /** What release changes: the half's phase, its slot, and whether its session is registered. */
  lemma ReleaseChanges(st: State, h: nat)
    requires Release(st, h) != st
    ensures h in st.halves && st.halves[h].phase.MustRelease? && st.halves[h].session in st.sessions
    ensures var t, x := Release(st, h), st.halves[h];
            && t.pipes == st.pipes && t.next == st.next
            && t.sessions == st.sessions[x.session := st.sessions[x.session].(attached := st.sessions[x.session].attached - {x.slot})]
            && h in t.halves && t.halves == st.halves[h := x.(phase := t.halves[h].phase)]
            && (t.halves[h].phase == Gone || (t.halves[h].phase == MustClose && !Registered(t, x.session)))
            && forall s :: (Registered(t, s) ==> Registered(st, s))
                           && (Registered(st, s) && !Registered(t, s) ==> s == x.session && t.halves[h].phase == MustClose)
  {
  }

  lemma ReleasedSessionOk(st: State, h: nat, x: nat)
    requires Consistent(st)
    ensures SessionOk(Release(st, h), x)
  {
    hide Consistent, Release, Registered;
    var t := Release(st, h);
    SessionRows(st, h, x);
    if t != st {
      ReleaseChanges(st, h);
      if x in t.sessions && !Registered(t, x) && !t.sessions[x].dead {
        if Registered(st, x) {
          assert Owes(t, h, x);
        } else {
          var k :| Owes(st, k, x);
          assert Owes(t, k, x);
        }
      }
    }
  }

  lemma ReleasedHalfOk(st: State, h: nat, k: nat)
    requires Consistent(st)
    ensures HalfOk(Release(st, h), k)
  {
    hide Consistent, SessionOk, Release, Registered;
    SessionRows(st, k, 0);
    SessionRows(st, h, 0);
    if Release(st, h) != st { ReleaseChanges(st, h); }
  }

  lemma ReleasedSlotOk(st: State, h: nat, x: nat, y: Slot)
    requires Consistent(st)
    ensures SlotOk(Release(st, h), x, y)
  {
    hide Consistent, SessionOk, RegistryOk;
    SessionRows(st, h, x);
    SlotRows(st, x, y);
  }

  lemma ReleaseKeeps(st: State, h: nat)
    requires Consistent(st)
    ensures Consistent(Release(st, h))
  {
    hide SessionOk, HalfOk, SlotOk;
    var t := Release(st, h);
    forall j ensures RegistryOk(t, j) { assert RegistryOk(st, j); }
    forall x ensures SessionOk(t, x) { ReleasedSessionOk(st, h, x); }
    forall x, y ensures SlotOk(t, x, y) { ReleasedSlotOk(st, h, x, y); }
    forall k ensures HalfOk(t, k) { ReleasedHalfOk(st, h, k); }
  }

  lemma StepKeeps(st: State, e: Event)
    requires Consistent(st)
    ensures Consistent(Step(st, e))
  {
    hide Consistent, Acquire, ShutPipe, Teardown, CloseStep, Release;
    match e
    case Connect(job, slot) => ConnectKeeps(st, job, slot);
    case Hangup(h) => if h in st.halves { ShutKeeps(st, st.halves[h].pipe); }
    case Finish(h) => TeardownKeeps(st, h);
    case CloseOn(h) => CloseKeeps(st, h);
    case Detach(h) => ReleaseKeeps(st, h);
  }

  lemma {:induction false} RunIsConsistent(es: seq<Event>, n: nat)
    requires n <= |es|
    ensures Consistent(After(es, n))
  {
    hide Step;
    if n == 0 {
      EmptyIsConsistent();
    } else {
      hide Consistent;
      RunIsConsistent(es, n - 1);
      StepKeeps(After(es, n - 1), es[n - 1]);
    }
  }

  lemma EmptyIsConsistent()
    ensures Consistent(EMPTY)
  {
  }

  // ----- What follows

  /**
   In every reachable state a registered session is not dead and has a half
   attached; two attached halves of a session are on different slots; and an
   attached input half whose pipe is open uses the session's current pipe.
   */
  lemma SessionsStayConsistent(es: seq<Event>, n: nat)
    requires n <= |es|
    ensures var st := After(es, n);
            && (forall job :: job in st.registry ==>
                  && st.registry[job] in st.sessions && !st.sessions[st.registry[job]].dead
                  && exists h :: h in st.halves && st.halves[h].session == st.registry[job] && st.halves[h].Attached())
            && (forall h, k :: h in st.halves && k in st.halves && st.halves[h].Attached() && st.halves[k].Attached()
                               && st.halves[h].session == st.halves[k].session && st.halves[h].slot == st.halves[k].slot
                               ==> h == k)
            && (forall h :: h in st.halves && st.halves[h].Attached() && !st.halves[h].slot.Output()
                            && st.halves[h].pipe in st.pipes && !st.pipes[st.halves[h].pipe].closed
                            ==> st.halves[h].session in st.sessions && st.halves[h].pipe == st.sessions[st.halves[h].session].inp)
  {
    RunIsConsistent(es, n);
    hide After;
    var st := After(es, n);
    forall job | job in st.registry
      ensures st.registry[job] in st.sessions && !st.sessions[st.registry[job]].dead
              && exists h :: h in st.halves && st.halves[h].session == st.registry[job] && st.halves[h].Attached()
    {
      assert RegistryOk(st, job);
      var s := st.registry[job];
      var slot :| slot in st.sessions[s].attached;
      assert SlotOk(st, s, slot);
    }
    forall h | h in st.halves ensures HalfOk(st, h) {}
  }

  /** Closing a session closes the pipe of every half ever attached to it, and leaves it out of the registry. */
  lemma CloseReachesAll(es: seq<Event>, n: nat, h: nat)
    requires n <= |es| && h in After(es, n).halves
    ensures var st := After(es, n); var s := st.halves[h].session;
            s in st.sessions && (st.sessions[s].closing.Shut? ==> ClosedPipe(st, st.halves[h].pipe) && !Registered(st, s))
  {
    RunIsConsistent(es, n);
    hide After;
    var st := After(es, n);
    assert HalfOk(st, h) && SessionOk(st, st.halves[h].session) && RegistryOk(st, st.sessions[st.halves[h].session].job);
  }

  /** A session out of the registry is dead, or a half is on its way to close it. */
  lemma NoSessionIsLeaked(es: seq<Event>, n: nat, s: nat)
    requires n <= |es| && s in After(es, n).sessions && !Registered(After(es, n), s)
    ensures After(es, n).sessions[s].dead || exists h :: Owes(After(es, n), h, s)
  {
    RunIsConsistent(es, n);
    hide After;
    assert SessionOk(After(es, n), s);
  }

  /** Which half, if any, a step is taken by. */
  predicate ByHalf(e: Event, h: nat) {
    (e.Hangup? || e.Finish? || e.CloseOn? || e.Detach?) && e.half == h
  }

  /**
   Whatever a half does to unwind, and however late, another session keeps its
   registration, its state and its pipes: a stale half never unregisters or
   closes a replacement.
   */
  lemma StaleHalfIsHarmless(st: State, e: Event, h: nat, s: nat)
    requires Consistent(st) && h in st.halves && ByHalf(e, h) && s in st.sessions && s != st.halves[h].session
    ensures var t := Step(st, e);
            && s in t.sessions && t.sessions[s] == st.sessions[s]
            && (Registered(st, s) ==> Registered(t, s))
            && (forall p :: Owned(st, p, s) ==> p in t.pipes && t.pipes[p] == st.pipes[p])
  {
    assert HalfOk(st, h) && SessionOk(st, st.halves[h].session);
  }

  /** Within one session: an input half whose pipe was replaced unwinds without closing any pipe. */
  lemma ReplacedInputIsHarmless(st: State, h: nat, e: Event)
    requires Consistent(st) && h in st.halves && !st.halves[h].slot.Output()
    requires st.halves[h].session in st.sessions && st.halves[h].pipe != st.sessions[st.halves[h].session].inp
    requires e == Hangup(h) || e == Finish(h) || e == Detach(h)
    ensures Step(st, e).pipes == st.pipes
  {
    assert HalfOk(st, h);
  }

  // ----- What the steps achieve

  /** Some half is attached to the job's session on this slot. */
  ghost predicate Taken(st: State, job: string, slot: Slot) {
    job in st.registry && exists h :: h in st.halves && st.halves[h].Attached()
                                      && st.halves[h].session == st.registry[job] && st.halves[h].slot == slot
  }

  /** x is the half, and v its session, once a stream was attached to the session that was u. */
  ghost predicate AttachedTo(st: State, t: State, h: nat, slot: Slot)
    requires h in t.halves
  {
    var x := t.halves[h];
    && x.slot == slot && x.phase == Streaming && x.session in t.sessions
    && var v := t.sessions[x.session];
       && slot in v.attached && v.attached[slot] == h
       && (slot == ClientOut || slot == WorkerOut ==> x.pipe == v.out)
       && (slot == ClientIn || slot == WorkerIn ==> x.pipe == v.inp && !ClosedPipe(t, x.pipe))
       && (x.session in st.sessions ==>
             var u := st.sessions[x.session];
             && v == u.(attached := u.attached[slot := h], inp := v.inp)
             && (slot == ClientOut || slot == WorkerOut || !ClosedPipe(st, u.inp) ==> v.inp == u.inp && t.pipes == st.pipes))
  }

  /** One half more, attached to the job's session, and whatever was there as it was. */
  ghost predicate Attaches(st: State, t: State, job: string, slot: Slot) {
    && (exists h :: h in t.halves && h !in st.halves)
    && (forall h :: h in st.halves ==> h in t.halves && t.halves[h] == st.halves[h])
    && (forall p :: p in st.pipes ==> p in t.pipes && t.pipes[p] == st.pipes[p])
    && (forall h :: h in t.halves && h !in st.halves ==>
          && AttachedTo(st, t, h, slot)
          && t.registry == st.registry[job := t.halves[h].session]
          && (job in st.registry ==> t.halves[h].session == st.registry[job])
          && (job !in st.registry ==> t.halves[h].session !in st.sessions)
          && (forall s :: s in st.sessions && s != t.halves[h].session ==> s in t.sessions && t.sessions[s] == st.sessions[s]))
  }

  lemma AttachesTo(st: State, job: string, slot: Slot)
    requires job in st.registry && st.registry[job] in st.sessions
    requires RegistryOk(st, job) && SessionOk(st, st.registry[job])
    requires (forall h :: h in st.halves ==> h < st.next) && (forall p :: p in st.pipes ==> p < st.next)
    ensures Attaches(st, AttachTo(st, st.registry[job], slot), job, slot)
  {
    assert st.next in AttachTo(st, st.registry[job], slot).halves && st.next !in st.halves;
    hide Registered;
  }

  lemma AttachesFirst(st: State, job: string, slot: Slot)
    requires job !in st.registry
    requires (forall h :: h in st.halves ==> h < st.next) && (forall s :: s in st.sessions ==> s < st.next)
    requires forall p :: p in st.pipes ==> p < st.next
    ensures Attaches(st, AttachFirst(st, job, slot), job, slot)
  {
    assert st.next + 3 in AttachFirst(st, job, slot).halves && st.next + 3 !in st.halves;
  }

  /**
   A stream is attached unless its slot is taken: to the job's session, or a
   new one if there is none, with an open pipe if it is to carry input; for
   that a closed input pipe is replaced.
   */
  lemma ConnectAttaches(st: State, job: string, slot: Slot)
    requires Consistent(st)
    ensures if Taken(st, job, slot) then Step(st, Connect(job, slot)) == st else Attaches(st, Step(st, Connect(job, slot)), job, slot)
  {
    TakenIsBusy(st, job, slot);
    NumbersAreNew(st);
    hide Consistent, Taken, Attaches, AttachTo, AttachFirst, SessionOk;
    if job in st.registry {
      RegisteredRows(st, job);
      if !Busy(st, job, slot) { AttachesTo(st, job, slot); }
    } else {
      AttachesFirst(st, job, slot);
    }
  }

  lemma RegisteredRows(st: State, job: string)
    requires Consistent(st) && job in st.registry
    ensures RegistryOk(st, job) && SessionOk(st, st.registry[job])
  {
  }

  lemma TakenIsBusy(st: State, job: string, slot: Slot)
    requires Consistent(st)
    ensures Taken(st, job, slot) <==> Busy(st, job, slot)
  {
    if job in st.registry {
      assert RegistryOk(st, job);
      if Busy(st, job, slot) { assert SlotOk(st, st.registry[job], slot); }
      forall h | h in st.halves ensures HalfOk(st, h) {}
    }
  }

  lemma NumbersAreNew(st: State)
    requires Consistent(st)
    ensures forall h :: h in st.halves ==> h < st.next
    ensures forall s :: s in st.sessions ==> s < st.next
    ensures forall p :: p in st.pipes ==> p < st.next
  {
    forall h | h in st.halves ensures h < st.next { assert HalfOk(st, h); }
    forall s | s in st.sessions ensures s < st.next { assert SessionOk(st, s); }
  }

  /** The steps of ttySession.close that are left. */
  function ToClose(c: Closing): nat {
    match c
    case Open => 3
    case Marked(_) => 2
    case OutShut(_) => 1
    case Shut => 0
  }

  /** How many steps a half that is unwinding has before it at most. */
  function ToGo(st: State, h: nat): nat
    requires h in st.halves && st.halves[h].session in st.sessions
  {
    var c := ToClose(st.sessions[st.halves[h].session].closing);
    match st.halves[h].phase
    case Streaming => 8 + 2 * c
    case MustCloseThenRelease => 3 + 2 * c
    case MustRelease => 2 + c
    case MustClose => 1 + c
    case Gone => 0
  }

  /** The step a half takes next on its way out. */
  function NextOf(st: State, h: nat): Event
    requires h in st.halves
  {
    match st.halves[h].phase
    case Streaming => Finish(h)
    case MustRelease => Detach(h)
    case _ => CloseOn(h)
  }

  /** Half h has no more steps before it in t than in st. */
  ghost predicate NoFurther(st: State, t: State, h: nat)
    requires h in st.halves && st.halves[h].session in st.sessions
  {
    h in t.halves && t.halves[h].session == st.halves[h].session && t.halves[h].session in t.sessions && ToGo(t, h) <= ToGo(st, h)
  }

  lemma ConnectLeavesToGo(st: State, job: string, slot: Slot, h: nat)
    requires Consistent(st) && h in st.halves && st.halves[h].session in st.sessions
    ensures NoFurther(st, Acquire(st, job, slot), h)
  {
    NumbersAreNew(st);
    hide Consistent;
  }

  lemma FinishLeavesToGo(st: State, k: nat, h: nat)
    requires h in st.halves && st.halves[h].session in st.sessions
    ensures NoFurther(st, Teardown(st, k), h)
    ensures k == h && st.halves[h].phase == Streaming ==> ToGo(Teardown(st, h), h) < ToGo(st, h)
  {
    hide Registered;
  }

  lemma CloseLeavesToGo(st: State, k: nat, h: nat)
    requires h in st.halves && st.halves[h].session in st.sessions
    ensures NoFurther(st, CloseStep(st, k), h)
    ensures k == h && st.halves[h].Closes() ==> ToGo(CloseStep(st, h), h) < ToGo(st, h)
  {
    CloseChanges(st, k);
    hide CloseStep;
  }

  /** One step of a close: the session is one step further, or, if it was shut, the half is done with it. */
  lemma CloseChanges(st: State, k: nat)
    ensures var t := CloseStep(st, k);
            if !(k in st.halves && st.halves[k].Closes() && st.halves[k].session in st.sessions) then t == st
            else
              var s, p := st.halves[k].session, st.halves[k].phase;
              && t.sessions.Keys == st.sessions.Keys && t.halves.Keys == st.halves.Keys
              && (forall x :: x in st.sessions && x != s ==> t.sessions[x] == st.sessions[x])
              && (forall h :: h in st.halves && h != k ==> t.halves[h] == st.halves[h])
              && (st.sessions[s].closing != Shut ==>
                    ToClose(t.sessions[s].closing) == ToClose(st.sessions[s].closing) - 1 && t.halves[k] == st.halves[k])
              && (st.sessions[s].closing == Shut ==>
                    && t.sessions[s] == st.sessions[s]
                    && t.halves[k] == st.halves[k].(phase := if p == MustCloseThenRelease then MustRelease else Gone))
  {
  }

  lemma DetachLeavesToGo(st: State, k: nat, h: nat)
    requires h in st.halves && st.halves[h].session in st.sessions
    ensures NoFurther(st, Release(st, k), h)
    ensures k == h && st.halves[h].phase == MustRelease ==> ToGo(Release(st, h), h) < ToGo(st, h)
  {
    if Release(st, k) != st { ReleaseChanges(st, k); }
    if k == h && st.halves[h].phase == MustRelease { ReleaseMoves(st, h); }
    hide Release, Registered;
  }

  lemma ReleaseMoves(st: State, h: nat)
    requires h in st.halves && st.halves[h].phase == MustRelease && st.halves[h].session in st.sessions
    ensures h in Release(st, h).halves && Release(st, h).halves[h].phase != MustRelease && Release(st, h) != st
  {
    hide Registered;
  }

  /** Every half that finishes gets there: each of its own steps leaves it fewer, and nobody else's leaves it more. */
  lemma LeavingTakesSteps(st: State, e: Event, h: nat)
    requires Consistent(st) && h in st.halves
    ensures st.halves[h].session in st.sessions && NoFurther(st, Step(st, e), h)
    ensures st.halves[h].phase != Gone && e == NextOf(st, h) ==> ToGo(Step(st, e), h) < ToGo(st, h)
  {
    SessionRows(st, h, 0);
    hide Acquire, Teardown, CloseStep, Release, Consistent, ToGo;
    match e
    case Connect(job, slot) => ConnectLeavesToGo(st, job, slot, h);
    case Hangup(k) => ShutLeavesToGo(st, if k in st.halves then st.halves[k].pipe else 0, h);
    case Finish(k) => FinishLeavesToGo(st, k, h);
    case CloseOn(k) => CloseLeavesToGo(st, k, h);
    case Detach(k) => DetachLeavesToGo(st, k, h);
  }

  lemma ShutLeavesToGo(st: State, p: nat, h: nat)
    requires h in st.halves && st.halves[h].session in st.sessions
    ensures NoFurther(st, ShutPipe(st, p), h) && NoFurther(st, st, h)
  {
  }

  /**
   A half that is gone has left: its slot is not its own any more, an output half
   has closed the session and both its pipes for good, an input half its own pipe.
   */
  lemma GoneHasLeft(es: seq<Event>, n: nat, h: nat)
    requires n <= |es| && h in After(es, n).halves && After(es, n).halves[h].phase == Gone
    ensures var st := After(es, n); var x := st.halves[h];
            && x.session in st.sessions
            && (x.slot in st.sessions[x.session].attached ==> st.sessions[x.session].attached[x.slot] != h)
            && ClosedPipe(st, x.pipe)
            && (x.slot == ClientOut || x.slot == WorkerOut ==>
                  var v := st.sessions[x.session];
                  v.dead && ClosedPipe(st, v.out) && ClosedPipe(st, v.inp) && !Registered(st, x.session))
  {
    RunIsConsistent(es, n);
    hide After;
    var st := After(es, n);
    var x := st.halves[h];
    SessionRows(st, h, 0);
    if x.slot in st.sessions[x.session].attached { assert SlotOk(st, x.session, x.slot); }
    assert RegistryOk(st, st.sessions[x.session].job);
  }

  // ----- The registry, as the server keeps it

  const SLOTS: seq<Slot> := [ClientOut, WorkerOut, ClientIn, WorkerIn]

  class TtyRegistry {
    var registry: map<string, nat>
    var sessions: map<nat, Session>
    var pipes: map<nat, Pipe>
    var halves: map<nat, Half>
    var next: nat

    ghost function View(): State
      reads this
    {
      State(registry, sessions, pipes, halves, next)
    }

    constructor ()
      ensures View() == EMPTY && Consistent(View())
    {
      registry, sessions, pipes, halves, next := map[], map[], map[], map[], 0;
    }

    /** newTTYSession, with nobody attached yet. */
    method NewSession(job: string)
      modifies this`sessions, this`pipes
      ensures sessions == old(sessions)[next := Session(job, next + 1, next + 2, false, Open, map[])]
      ensures pipes == old(pipes)[next + 1 := Pipe(next, false)][next + 2 := Pipe(next, false)]
    {
      pipes := pipes[next + 1 := Pipe(next, false)];
      pipes := pipes[next + 2 := Pipe(next, false)];
      sessions := sessions[next := Session(job, next + 1, next + 2, false, Open, map[])];
    }

    /** Replace a closed input pipe of a live session; id names the new one. */
    method RenewIn(s: nat, id: nat)
      requires s in sessions && sessions[s].inp in pipes
      modifies this`sessions, this`pipes
      ensures !old(sessions[s].dead) && old(pipes[sessions[s].inp].closed) ==>
                && sessions == old(sessions)[s := old(sessions[s]).(inp := id)]
                && pipes == old(pipes)[id := Pipe(s, false)]
      ensures old(sessions[s].dead) || !old(pipes[sessions[s].inp].closed) ==> sessions == old(sessions) && pipes == old(pipes)
    {
      var v := sessions[s];
      if !v.dead && pipes[v.inp].closed {
        pipes := pipes[id := Pipe(s, false)];
        sessions := sessions[s := v.(inp := id)];
      }
    }

    /** An input half that attaches gets an open pipe, whatever became of the one before. */
    method Acquire(job: string, slot: Slot) returns (half: Option<nat>)
      requires Consistent(View())
      modifies this
      ensures View() == Step(old(View()), Connect(job, slot)) && Consistent(View())
      ensures half.Some? <==> !Busy(old(View()), job, slot)
      ensures half.Some? ==>
                && half.value in halves && halves[half.value].slot == slot && halves[half.value].phase.Streaming?
                && (!slot.Output() ==> !ClosedPipe(View(), halves[half.value].pipe))
    {
      hide Consistent, AttachFirst, AttachTo;
      StepKeeps(View(), Connect(job, slot));
      FirstIsOpenedThenAttached(View(), job, slot);
      if job in registry {
        RegisteredIsLive(View(), job);
        var s := registry[job];
        if slot in sessions[s].attached { return None; }
        half := Attach(s, slot);
      } else {
        NewSession(job);
        registry := registry[job := next];
        next := next + 3;
        half := Attach(next - 3, slot);
      }
    }

    /** The half takes the next number, and a renewed pipe the one after. */
    method Attach(s: nat, slot: Slot) returns (half: Option<nat>)
      requires s in sessions && !sessions[s].dead && sessions[s].inp in pipes && sessions[s].inp < next
      modifies this`sessions, this`pipes, this`halves, this`next
      ensures View() == AttachTo(old(View()), s, slot)
      ensures half == Some(old(next)) && half.value in halves && halves[half.value].phase.Streaming? && halves[half.value].slot == slot
      ensures !slot.Output() ==> !ClosedPipe(View(), halves[half.value].pipe)
    {
      var h := next;
      sessions := sessions[s := sessions[s].(attached := sessions[s].attached[slot := h])];
      if !slot.Output() { RenewIn(s, h + 1); }
      halves := halves[h := Half(s, slot, if slot.Output() then sessions[s].out else sessions[s].inp, Streaming)];
      next := next + 2;
      return Some(h);
    }

    method ForgetLocked(s: nat)
      requires s in sessions
      modifies this`registry
      ensures View() == Forget(old(View()), s)
    {
      var job := sessions[s].job;
      if job in registry && registry[job] == s { registry := registry - {job}; }
    }

    method AttachedLocked(s: nat) returns (n: nat)
      requires s in sessions
      ensures n == |sessions[s].attached|
    {
      n := 0;
      var v := sessions[s];
      for i := 0 to 4
        invariant n == |TakenAmong(v.attached.Keys, i)|
      {
        CountNext(v.attached.Keys, i);
        if SLOTS[i] in v.attached { n := n + 1; }
      }
      CountAll(v.attached.Keys);
    }

    /** Whether a blocked half has nobody to hand its bytes to. */
    method Alone(s: nat) returns (alone: bool)
      requires s in sessions
      ensures alone <==> |sessions[s].attached| <= 1
    {
      var n := AttachedLocked(s);
      return n <= 1;
    }

    method Discard(h: nat)
      requires Consistent(View()) && h in halves && halves[h].phase.Streaming?
      modifies this
      ensures View() == Step(old(View()), Finish(h)) && Consistent(View())
    {
      StepKeeps(View(), Finish(h));
      assert HalfOk(View(), h);
      var x := halves[h];
      if x.slot.Output() {
        ForgetLocked(x.session);
        halves := halves[h := x.(phase := MustCloseThenRelease)];
      } else {
        pipes := pipes[x.pipe := pipes[x.pipe].(closed := true)];
        halves := halves[h := x.(phase := MustRelease)];
      }
    }

    /** ttySession.close, when nothing comes between its steps: dead, and both pipes closed. */
    method Close(h: nat)
      requires Consistent(View()) && h in halves && halves[h].Closes()
      modifies this
      ensures Consistent(View()) && halves == old(halves) && halves[h].session in sessions
      ensures sessions[halves[h].session].closing.Shut? && sessions[halves[h].session].dead
      ensures forall k :: k in halves && halves[k].session == halves[h].session ==> ClosedPipe(View(), halves[k].pipe)
      ensures forall s :: s in old(sessions) && s != halves[h].session ==> s in sessions && sessions[s] == old(sessions)[s]
    {
      assert HalfOk(View(), h);
      var s := halves[h].session;
      while !sessions[s].closing.Shut?
        invariant Consistent(View()) && h in halves && halves == old(halves) && s in sessions && sessions.Keys == old(sessions).Keys
        invariant forall x :: x in sessions && x != s ==> sessions[x] == old(sessions)[x]
        decreases match sessions[s].closing case Open => 3 case Marked(_) => 2 case OutShut(_) => 1 case Shut => 0
      {
        StepKeeps(View(), CloseOn(h));
        assert SessionOk(View(), s);
        var v := sessions[s];
        match v.closing {
          case Open => sessions := sessions[s := v.(dead := true, closing := Marked(v.inp))];
          case Marked(p) =>
            sessions := sessions[s := v.(closing := OutShut(p))];
            pipes := pipes[v.out := pipes[v.out].(closed := true)];
          case OutShut(p) =>
            sessions := sessions[s := v.(closing := Shut)];
            pipes := pipes[p := pipes[p].(closed := true)];
        }
      }
      assert SessionOk(View(), s);
      forall k | k in halves && halves[k].session == s ensures ClosedPipe(View(), halves[k].pipe) { assert HalfOk(View(), k); }
    }

    method Release(h: nat) returns (idle: bool)
      requires Consistent(View()) && h in halves && halves[h].phase.MustRelease?
      modifies this
      ensures View() == Step(old(View()), Detach(h)) && Consistent(View())
      ensures idle <==> halves[h].Closes()
    {
      StepKeeps(View(), Detach(h));
      assert HalfOk(View(), h);
      var x := halves[h];
      var v := sessions[x.session];
      sessions := sessions[x.session := v.(attached := v.attached - {x.slot})];
      var n := AttachedLocked(x.session);
      idle := n == 0;
      if idle { ForgetLocked(x.session); }
      halves := halves[h := x.(phase := if idle then MustClose else Gone)];
    }
  }

  lemma RegisteredIsLive(st: State, job: string)
    requires Consistent(st) && job in st.registry
    ensures st.registry[job] in st.sessions
    ensures var v := st.sessions[st.registry[job]]; v.job == job && !v.dead && v.inp in st.pipes && v.inp < st.next
  {
    assert RegistryOk(st, job) && SessionOk(st, st.registry[job]);
  }

  /** The taken slots among the first n. */
  function TakenAmong(taken: set<Slot>, n: nat): set<Slot>
    requires n <= 4
  {
    set x | x in SLOTS[..n] && x in taken
  }

  lemma CountNext(taken: set<Slot>, i: nat)
    requires i < 4
    ensures |TakenAmong(taken, i + 1)| == |TakenAmong(taken, i)| + if SLOTS[i] in taken then 1 else 0
  {
    assert SLOTS[i] !in SLOTS[..i];
    assert SLOTS[..i + 1] == SLOTS[..i] + [SLOTS[i]];
    assert TakenAmong(taken, i + 1) == if SLOTS[i] in taken then TakenAmong(taken, i) + {SLOTS[i]} else TakenAmong(taken, i);
  }

  lemma CountAll(taken: set<Slot>)
    ensures TakenAmong(taken, 4) == taken
  {
    assert SLOTS[..4] == SLOTS;
    forall x: Slot ensures x in SLOTS { SlotListed(x); }
  }

  lemma SlotListed(x: Slot)
    ensures x in SLOTS
  {
    assert SLOTS[0] == ClientOut && SLOTS[1] == WorkerOut && SLOTS[2] == ClientIn && SLOTS[3] == WorkerIn;
    match x
    case ClientOut =>
    case WorkerOut =>
    case ClientIn =>
    case WorkerIn =>
  }
}
