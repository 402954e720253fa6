/**
 The worker's device hooks (internal/worker/hooks.go): when a device's
 on_acquire and on_release scripts run, given jobs that overlap, timers that
 fire late and a shutdown that drains what is pending.
 */
module Hooks {
  import opened Wrappers

  /** Which scripts are configured. */
  datatype Spec = Spec(onAcquire: bool, onRelease: bool) {
    predicate Configured() {
      onAcquire || onRelease
    }
  }

  /**
   What happened, in order. Took: the device went from idle to held; Joined:
   a job found it held; each with the epoch the job was given. Ended: the job
   with that epoch called scheduleRelease. Released: a release was attempted
   (with or without a script to run), in the name of a job.
   */
  datatype Mark = Took(epoch: nat) | Joined(epoch: nat) | Refused | Ended(epoch: nat, job: string) | Released(ran: bool, job: string)

  /**
   One device. fires: release goroutines that may still run, each once, and
   perhaps after they were stopped; open: epochs of jobs that have not ended.
   */
  datatype State = State(
    held: bool, timer: bool, gen: nat, epoch: nat, pendingJob: string,
    fires: set<nat>, open: set<nat>, log: seq<Mark>)

  const IDLE := State(false, false, 0, 0, "", {}, {}, [])

  datatype Event = Acquire(job: string, hookOk: bool) | End(job: string, epoch: nat) | Fire(gen: nat) | Drain

  /** Only a goroutine that was started runs, and once. scheduleRelease may be called with any epoch at any time. */
  predicate Can(s: State, e: Event) {
    e.Fire? ==> e.gen in s.fires
  }

  function Acquired(s: State, spec: Spec, hookOk: bool): State {
    var t := s.(timer := false, gen := s.gen + 1);
    if s.held || !spec.onAcquire || hookOk then
      var e := s.epoch + 1;
      t.(held := true, epoch := e, open := s.open + {e}, log := s.log + [if s.held then Joined(e) else Took(e)])
    else t.(log := s.log + [Refused])
  }

  function Scheduled(s: State, job: string, epoch: nat): State {
    var t := s.(open := s.open - {epoch}, log := s.log + [Ended(epoch, job)]);
    if !s.held || s.epoch != epoch then t
    else t.(timer := true, gen := s.gen + 1, pendingJob := job, fires := s.fires + {s.gen + 1})
  }

  function Fired(s: State, spec: Spec, gen: nat): State {
    var t := s.(fires := s.fires - {gen});
    if s.gen != gen then t else t.(held := false, timer := false, log := s.log + [Released(spec.onRelease, s.pendingJob)])
  }

  /** The drain's first critical section; its second is the firing of the new generation. */
  function Drained(s: State): State {
    if !s.timer then s else s.(timer := false, gen := s.gen + 1, fires := s.fires + {s.gen + 1})
  }

  function Step(s: State, spec: Spec, e: Event): State {
    if !spec.Configured() then s
    else
      match e
      case Acquire(_, hookOk) => Acquired(s, spec, hookOk)
      case End(job, epoch) => Scheduled(s, job, epoch)
      case Fire(gen) => Fired(s, spec, gen)
      case Drain => Drained(s)
  }

  function After(spec: Spec, es: seq<Event>, n: nat): State
    requires n <= |es|
  {
    if n == 0 then IDLE else Step(After(spec, es, n - 1), spec, es[n - 1])
  }

  ghost predicate Possible(spec: Spec, es: seq<Event>) {
    forall i :: 0 <= i < |es| ==> Can(After(spec, es, i), es[i])
  }

  // ----- What the log says

  /** The epoch of the latest job to acquire the device. */
  function Owner(log: seq<Mark>): Option<nat> {
    if log == [] then None
    else
      match log[|log| - 1]
      case Took(e) => Some(e)
      case Joined(e) => Some(e)
      case _ => Owner(log[..|log| - 1])
  }

  /** The name under which that job has ended since it acquired, if it has. */
  function EndedBy(log: seq<Mark>): Option<string> {
    if log == [] then None
    else
      var before := log[..|log| - 1];
      match log[|log| - 1]
      case Took(_) => None
      case Joined(_) => None
      case Ended(e, job) => if Owner(before) == Some(e) then Some(job) else EndedBy(before)
      case _ => EndedBy(before)
  }

  /** The last change between idle and held was to held. */
  predicate InUse(log: seq<Mark>) {
    log != [] &&
    match log[|log| - 1]
    case Took(_) => true
    case Released(_, _) => false
    case _ => InUse(log[..|log| - 1])
  }

  /** Entry k of the log is in order: a take from idle, a release of a held device whose owner has ended, in that job's name. */
  ghost predicate Proper(log: seq<Mark>, k: nat)
    requires k < |log|
  {
    match log[k]
    case Took(_) => !InUse(log[..k])
    case Joined(_) => InUse(log[..k])
    case Released(_, job) => InUse(log[..k]) && EndedBy(log[..k]) == Some(job)
    case _ => true
  }

  ghost predicate AllProper(log: seq<Mark>) {
    forall k :: 0 <= k < |log| ==> Proper(log, k)
  }

  lemma ProperAppend(log: seq<Mark>, m: Mark)
    requires AllProper(log) && Proper(log + [m], |log|)
    ensures AllProper(log + [m])
  {
    forall k | 0 <= k < |log| ensures Proper(log + [m], k) {
      assert Proper(log, k) && (log + [m])[..k] == log[..k];
    }
  }

  /**
   The invariant. The live generation has a release under way exactly when
   the device is held by a job that has ended: none is lost, none is early.
   */
  ghost predicate Inv(s: State) {
    && (s.gen in s.fires <==> s.held && s.epoch !in s.open)
    && (s.timer ==> s.gen in s.fires)
    && (forall g :: g in s.fires ==> g <= s.gen)
    && (forall e :: e in s.open ==> e <= s.epoch)
    && s.held == InUse(s.log)
    && (s.held ==> Owner(s.log) == Some(s.epoch))
    && (s.held && s.epoch !in s.open ==> EndedBy(s.log) == Some(s.pendingJob))
    && AllProper(s.log)
  }

  lemma AcquireKeepsInv(s: State, spec: Spec, hookOk: bool)
    requires Inv(s)
    ensures Inv(Acquired(s, spec, hookOk))
  {
    hide AllProper;
    var t := Acquired(s, spec, hookOk);
    ProperAppend(s.log, t.log[|s.log|]);
    assert t.log[..|s.log|] == s.log;
  }

  lemma EndKeepsInv(s: State, job: string, epoch: nat)
    requires Inv(s)
    ensures Inv(Scheduled(s, job, epoch))
  {
    hide AllProper;
    var t := Scheduled(s, job, epoch);
    ProperAppend(s.log, Ended(epoch, job));
    assert t.log[..|s.log|] == s.log;
  }

  lemma FireKeepsInv(s: State, spec: Spec, gen: nat)
    requires Inv(s) && gen in s.fires
    ensures Inv(Fired(s, spec, gen))
  {
    hide AllProper;
    var t := Fired(s, spec, gen);
    if s.gen == gen {
      assert (s.log + [t.log[|s.log|]])[..|s.log|] == s.log;
      ProperAppend(s.log, t.log[|s.log|]);
    }
  }

  lemma StepKeepsInv(s: State, spec: Spec, e: Event)
    requires Inv(s) && Can(s, e)
    ensures Inv(Step(s, spec, e))
  {
    match e
    case Acquire(_, hookOk) => AcquireKeepsInv(s, spec, hookOk); hide Inv;
    case End(job, epoch) => EndKeepsInv(s, job, epoch); hide Inv;
    case Fire(gen) => FireKeepsInv(s, spec, gen); hide Inv;
    case Drain => hide AllProper;
  }

  lemma {:induction false} RunKeepsInv(spec: Spec, es: seq<Event>, n: nat)
    requires Possible(spec, es) && n <= |es|
    ensures Inv(After(spec, es, n))
  {
    hide Step, Can;
    if n > 0 {
      RunKeepsInv(spec, es, n - 1);
      StepKeepsInv(After(spec, es, n - 1), spec, es[n - 1]);
    }
  }

  /**
   Over every interleaving of acquires, ends with any epoch, late and stale
   timers and shutdown drains: no release runs between the latest acquirer's acquire and
   that job's end, each release is in that job's name, and takes and releases
   strictly alternate.
   */
  lemma ReleaseOnlyAfterOwner(spec: Spec, es: seq<Event>, n: nat, k: nat)
    requires Possible(spec, es) && n <= |es| && k < |After(spec, es, n).log|
    ensures var log := After(spec, es, n).log;
            && (log[k].Released? ==> EndedBy(log[..k]) == Some(log[k].job) && InUse(log[..k]))
            && (log[k].Took? ==> !InUse(log[..k]))
  {
    RunKeepsInv(spec, es, n);
    assert Proper(After(spec, es, n).log, k);
  }

  lemma {:induction false} ReleaseBetween(log: seq<Mark>, i: nat, k: nat) returns (m: nat)
    requires i < k <= |log| && log[i].Took? && !InUse(log[..k])
    ensures i < m < k && log[m].Released?
  {
    m := k - 1;
    assert log[..k][..k - 1] == log[..m];
    assert log[..k][k - 1] == log[m];
    if !log[m].Released? {
      m := ReleaseBetween(log, i, m);
    }
  }

  /** So jobs that overlap, or follow within the linger, share one take and one release. */
  lemma OnePairPerBurst(spec: Spec, es: seq<Event>, n: nat, i: nat, k: nat) returns (m: nat)
    requires Possible(spec, es) && n <= |es| && i < k < |After(spec, es, n).log|
    requires After(spec, es, n).log[i].Took? && After(spec, es, n).log[k].Took?
    ensures i < m < k && After(spec, es, n).log[m].Released?
  {
    ReleaseOnlyAfterOwner(spec, es, n, k);
    m := ReleaseBetween(After(spec, es, n).log, i, k);
  }

  /** No release is lost: a held device whose owner has ended has a release under way, and when it runs the device is idle. */
  lemma ReleaseIsNotLost(spec: Spec, es: seq<Event>, n: nat)
    requires Possible(spec, es) && n <= |es| && spec.Configured()
    ensures var s := After(spec, es, n);
            && (s.held && s.epoch !in s.open <==> s.gen in s.fires)
            && (s.gen in s.fires ==>
                  var t := Step(s, spec, Fire(s.gen));
                  !t.held && t.log == s.log + [Released(spec.onRelease, s.pendingJob)] && t.gen !in t.fires)
  {
    RunKeepsInv(spec, es, n);
  }

  /**
   An acquire gives the device to the job unless it was idle and its script
   failed: it is held under a new epoch, and the script ran exactly if it was idle.
   */
  lemma AcquireTakesHold(s: State, spec: Spec, job: string, hookOk: bool)
    requires spec.Configured()
    ensures var t := Step(s, spec, Acquire(job, hookOk));
            && !t.timer
            && (t.held <==> s.held || !spec.onAcquire || hookOk)
            && (t.held ==> t.epoch == s.epoch + 1 && t.epoch in t.open)
            && (t.held && s.held ==> t.log == s.log + [Joined(t.epoch)])
            && (t.held && !s.held ==> t.log == s.log + [Took(t.epoch)])
            && (!t.held ==> t.epoch == s.epoch && t.log == s.log + [Refused])
  {
  }

  /** Whether it does or not, whatever release was under way is called off: no goroutine started before does anything any more. */
  lemma AcquireCallsOffReleases(spec: Spec, es: seq<Event>, n: nat, job: string, hookOk: bool, g: nat)
    requires Possible(spec, es) && n <= |es| && spec.Configured() && g in After(spec, es, n).fires
    ensures var t := Step(After(spec, es, n), spec, Acquire(job, hookOk));
            g in t.fires && Step(t, spec, Fire(g)) == t.(fires := t.fires - {g})
  {
    hide Inv, After;
    RunKeepsInv(spec, es, n);
    var s := After(spec, es, n);
    StartedBefore(s);
    OldFireIsInert(Acquired(s, spec, hookOk), spec, g);
    hide Fired;
  }

  lemma StartedBefore(s: State)
    requires Inv(s)
    ensures forall g :: g in s.fires ==> g <= s.gen
  {
    hide AllProper;
  }

  lemma OldFireIsInert(s: State, spec: Spec, g: nat)
    requires g < s.gen
    ensures Fired(s, spec, g) == s.(fires := s.fires - {g})
  {
  }

  /** The end of the device's owner sets a release under way in that job's name; the end of any other job does not. */
  lemma OwnerEndReleases(spec: Spec, es: seq<Event>, n: nat, job: string, epoch: nat)
    requires Possible(spec, es) && n <= |es| && spec.Configured()
    ensures var s := After(spec, es, n);
            var t := Step(s, spec, End(job, epoch));
            && t.held == s.held && t.log == s.log + [Ended(epoch, job)]
            && (s.held && s.epoch == epoch ==> t.timer && t.gen in t.fires && t.gen > s.gen && t.pendingJob == job)
            && (!(s.held && s.epoch == epoch) ==> t.fires == s.fires && t.gen == s.gen && t.pendingJob == s.pendingJob && t.timer == s.timer)
  {
  }

  /** A drain takes over a release whose timer is running: the timer's own goroutine does nothing any more, the drain's does it once. */
  lemma DrainTakesOver(spec: Spec, es: seq<Event>, n: nat)
    requires Possible(spec, es) && n <= |es| && spec.Configured()
    ensures var s := After(spec, es, n);
            var t := Step(s, spec, Drain);
            && !t.timer && t.held == s.held && t.epoch == s.epoch && t.pendingJob == s.pendingJob && t.log == s.log
            && (!s.timer ==> t == s)
            && (s.timer ==> t.gen in t.fires && Step(t, spec, Fire(t.gen)).log == s.log + [Released(spec.onRelease, s.pendingJob)])
            && (s.timer ==> forall g :: g in s.fires ==> var u := Step(t, spec, Fire(g)); u.held == t.held && u.log == t.log)
  {
    hide AllProper, InUse, Owner, EndedBy;
    RunKeepsInv(spec, es, n);
    hide After;
  }

  // ----- The state of one device, as the worker keeps it

  datatype AcquireResult = Skipped | Held(epoch: nat, ranHook: bool) | Failed

  /** The mutex makes each method one step; a hook script runs inside it. */
  class DeviceHookState {
    var held: bool
    var timer: bool
    var gen: nat
    var epoch: nat
    var pendingJob: string
    ghost var fires: set<nat>
    ghost var open: set<nat>
    ghost var log: seq<Mark>

    ghost function View(): State
      reads this
    {
      State(held, timer, gen, epoch, pendingJob, fires, open, log)
    }

    constructor ()
      ensures View() == IDLE
    {
      held, timer, gen, epoch, pendingJob := false, false, 0, 0, "";
      fires, open, log := {}, {}, [];
    }

    /** hookOk: the on_acquire script succeeded, if it was run. */
    method AcquireDevice(spec: Spec, job: string, hookOk: bool) returns (r: AcquireResult)
      modifies this
      ensures View() == Step(old(View()), spec, Acquire(job, hookOk))
      ensures r.Held? <==> spec.Configured() && (old(held) || !spec.onAcquire || hookOk)
      ensures r.Held? ==> r.epoch == epoch && r.epoch in open && (r.ranHook <==> !old(held) && spec.onAcquire)
    {
      if !spec.Configured() { return Skipped; }
      if timer { timer := false; }
      gen := gen + 1;
      if held {
        epoch := epoch + 1;
        open, log := open + {epoch}, log + [Joined(epoch)];
        return Held(epoch, false);
      }
      if !spec.onAcquire {
        held := true;
        epoch := epoch + 1;
        open, log := open + {epoch}, log + [Took(epoch)];
        return Held(epoch, false);
      }
      if !hookOk {
        log := log + [Refused];
        return Failed;
      }
      held := true;
      epoch := epoch + 1;
      open, log := open + {epoch}, log + [Took(epoch)];
      return Held(epoch, true);
    }

    method ScheduleRelease(spec: Spec, job: string, jobEpoch: nat) returns (armed: Option<nat>)
      modifies this
      ensures View() == Step(old(View()), spec, End(job, jobEpoch))
      ensures armed.Some? <==> spec.Configured() && old(held) && old(epoch) == jobEpoch
      ensures armed.Some? ==> armed.value == gen && armed.value in fires
    {
      if !spec.Configured() { return None; }
      open, log := open - {jobEpoch}, log + [Ended(jobEpoch, job)];
      if !held { return None; }
      if epoch != jobEpoch { return None; }
      if timer { timer := false; }
      gen := gen + 1;
      pendingJob := job;
      timer := true;
      fires := fires + {gen};
      return Some(gen);
    }

    /** whose: the job whose end the release answers, when one is attempted. */
    method FireRelease(spec: Spec, firing: nat) returns (whose: Option<string>)
      requires spec.Configured()
      modifies this
      ensures View() == Step(old(View()), spec, Fire(firing))
      ensures whose == if old(gen) == firing then Some(old(pendingJob)) else None
    {
      fires := fires - {firing};
      if gen != firing { return None; }
      timer := false;
      log := log + [Released(spec.onRelease, pendingJob)];
      held := false;
      return Some(pendingJob);
    }

    method BeginDrain(spec: Spec) returns (firing: Option<nat>)
      requires spec.Configured()
      modifies this
      ensures View() == Step(old(View()), spec, Drain)
      ensures firing == if old(timer) then Some(gen) else None
    {
      if !timer { return None; }
      timer := false;
      gen := gen + 1;
      fires := fires + {gen};
      return Some(gen);
    }
  }

  /** drainPendingReleases when nothing else runs: whatever was pending is released, and nothing else is. */
  method DrainPendingReleases(states: seq<DeviceHookState>, specs: seq<Spec>)
    requires |specs| == |states| && (forall i :: 0 <= i < |specs| ==> specs[i].Configured())
    requires forall i, k :: 0 <= i < k < |states| ==> states[i] != states[k]
    modifies states
    ensures forall i :: 0 <= i < |states| ==>
              if old(states[i].timer)
              then !states[i].timer && !states[i].held && states[i].log == old(states[i].log) + [Released(specs[i].onRelease, old(states[i].pendingJob))]
              else states[i].View() == old(states[i].View())
  {
    for n := 0 to |states|
      invariant forall i :: 0 <= i < n ==>
        if old(states[i].timer)
        then !states[i].timer && !states[i].held && states[i].log == old(states[i].log) + [Released(specs[i].onRelease, old(states[i].pendingJob))]
        else states[i].View() == old(states[i].View())
      invariant forall i :: n <= i < |states| ==> states[i].View() == old(states[i].View())
    {
      assert states[n].View().timer == old(states[n].View().timer);
      var firing := states[n].BeginDrain(specs[n]);
      if firing.Some? {
        var whose := states[n].FireRelease(specs[n], firing.value);
      }
    }
  }
}
