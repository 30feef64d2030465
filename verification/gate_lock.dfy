/** The lock around one delivery slot, under task cancellation. A worker thread acquires and
    releases the lock; the task that waits for it can be cancelled at any of its waits, before
    or after the thread has finished. Every move of either is a step of its own. */
module GateLock {
  import opened Wrappers
  import Runs

  /** The thread: `Denied` is a failed acquisition. */
  datatype Thread = NoThread | Acquiring | Held | Denied | Releasing | Released

  /** How the code under the lock ends. */
  datatype Body = Completes | Fails | Cancelled

  /** What leaves the lock: the body's own outcome, the lock's failure, or a cancellation. */
  datatype Exit = BodyExit(body: Body) | LockUnavailable | CancelledByCaller

  /** The task: waiting for the acquisition, in the body, waiting for the release that balances
      a cancelled acquisition or that follows a body, or outside. */
  datatype Task = Outside(exit: Option<Exit>) | Waiting | InBody | Balancing | Leaving(body: Body)

  /** How the balancing release is awaited: in a loop until the thread is done, as the delivery
      controller does, or by one shielded wait, as the inbound service does. */
  datatype Shield = Loop | Once

  /** `seen` says whether the task saw a cancellation since it entered, `granted` whether the
      thread got the lock, `ran` whether the body ran. The counters are over all uses. */
  datatype Use = Use(thread: Thread, task: Task, seen: bool, granted: bool, ran: bool,
                     acquired: nat, released: nat, bodies: nat)

  datatype Step =
    | Enter
    | Grant
    | Deny
    | Cancel
    | WakeHeld
    | WakeDenied
    | EndBody(body: Body)
    | Free
    | WakeReleased

  predicate Enabled(s: Step, u: Use) {
    match s
    case Enter => u.task.Outside? && u.thread in {NoThread, Denied, Released}
    case Grant => u.thread == Acquiring
    case Deny => u.thread == Acquiring
    case Cancel => u.task == Waiting || u.task == Balancing || u.task.Leaving?
    case WakeHeld => u.task == Waiting && u.thread == Held
    case WakeDenied => u.task == Waiting && u.thread == Denied
    case EndBody(_) => u.task == InBody
    case Free => u.thread == Releasing
    case WakeReleased => (u.task == Balancing || u.task.Leaving?) && u.thread == Released
  }

  /** The task only notes a cancellation while it waits, except in a single shielded wait. */
  function Effect(s: Step, shield: Shield, u: Use): Use
    requires Enabled(s, u)
  {
    match s
    case Enter => u.(thread := Acquiring, task := Waiting, seen := false, granted := false, ran := false)
    case Grant => u.(thread := Held, granted := true, acquired := u.acquired + 1)
    case Deny => u.(thread := Denied)
    case Cancel =>
      if u.task == Balancing && shield == Once then u.(seen := true, task := Outside(Some(CancelledByCaller)))
      else u.(seen := true)
    case WakeHeld =>
      if u.seen then u.(thread := Releasing, task := Balancing) else u.(task := InBody, ran := true, bodies := u.bodies + 1)
    case WakeDenied => u.(task := Outside(Some(LockUnavailable)))
    case EndBody(body) => u.(thread := Releasing, task := Leaving(body))
    case Free => u.(thread := Released, released := u.released + 1)
    case WakeReleased =>
      u.(task := Outside(Some(if u.task == Balancing || u.seen then CancelledByCaller else BodyExit(u.task.body))))
  }

  predicate Init(u: Use) {
    u == Use(NoThread, Outside(None), false, false, false, 0, 0, 0)
  }

  ghost predicate Next(shield: Shield, u: Use, u': Use) {
    exists s: Step :: Enabled(s, u) && u' == Effect(s, shield, u)
  }

  ghost predicate IsLockRun(shield: Shield, run: seq<Use>) {
    Runs.IsRun(Init, (u, u') => Next(shield, u, u'), run)
  }

  // ---------- The invariant ----------

  /** The thread has the lock, or is still giving it back. */
  predicate Pending(u: Use) {
    u.thread == Held || u.thread == Releasing
  }

  predicate Matches(u: Use) {
    match u.task
    case Outside(exit) => exit.None? ==> u.thread == NoThread
    case Waiting => u.thread in {Acquiring, Held, Denied} && !u.ran
    case InBody => u.thread == Held && !u.seen && u.ran
    case Balancing => u.thread in {Releasing, Released} && u.seen && !u.ran
    case Leaving(_) => u.thread in {Releasing, Released} && u.ran
  }

  /** What an exit says about the use it ends. */
  predicate ExitIsRight(u: Use) {
    u.task.Outside? && u.task.exit.Some? ==>
      match u.task.exit.value
      case LockUnavailable => !u.granted && !u.ran && u.thread == Denied
      case CancelledByCaller => u.granted && u.seen && u.thread in {Releasing, Released}
      case BodyExit(_) => u.granted && !u.seen && u.ran && u.thread == Released
  }

  predicate Inv(shield: Shield, u: Use) {
    && Matches(u) && ExitIsRight(u)
    && u.acquired == u.released + (if Pending(u) then 1 else 0)
    && (u.granted <==> u.thread in {Held, Releasing, Released})
    && (u.task.Outside? && u.thread == Releasing ==> shield == Once && !u.ran)
    && (u.task.Outside? ==> u.thread != Held)
  }

  lemma StepKeepsInv(shield: Shield, u: Use, u': Use)
    requires Inv(shield, u) && Next(shield, u, u')
    ensures Inv(shield, u')
  {
  }

  lemma HoldsAt(shield: Shield, run: seq<Use>, i: nat)
    requires IsLockRun(shield, run) && i < |run|
    ensures Inv(shield, run[i])
  {
    forall u, u' | Inv(shield, u) && Next(shield, u, u') ensures Inv(shield, u') {
      StepKeepsInv(shield, u, u');
    }
    Runs.InvariantAt(Init, (u, u') => Next(shield, u, u'), u => Inv(shield, u), run, i);
  }

  // ---------- Every reachable state ----------

  /** The delivery controller's lock: whatever is cancelled, at whichever wait and however the
      thread is doing, an exit never leaves the lock held or a release under way, and over any
      number of uses there are as many releases as acquisitions; the body is only ever in
      progress under the held lock and without a cancellation seen; and once the lock was
      granted the exit is a cancellation exactly when one was seen. */
  lemma LockIsBalanced(run: seq<Use>, i: nat)
    requires IsLockRun(Loop, run) && i < |run|
    ensures run[i].task.Outside? ==> !Pending(run[i]) && run[i].acquired == run[i].released
    ensures run[i].task == InBody ==> run[i].thread == Held && !run[i].seen
    ensures run[i].task.Outside? && run[i].task.exit.Some? ==>
      if !run[i].granted then run[i].task.exit.value == LockUnavailable && !run[i].ran
      else if run[i].seen then run[i].task.exit.value == CancelledByCaller
      else run[i].task.exit.value.BodyExit? && run[i].ran
  {
    HoldsAt(Loop, run, i);
  }

  /** Nobody enters before the previous use has given the lock back. */
  lemma EntryFindsFree(run: seq<Use>, i: nat)
    requires IsLockRun(Loop, run) && i < |run| && run[i].task.Outside?
    ensures Enabled(Enter, run[i])
  {
    HoldsAt(Loop, run, i);
  }

  /** The thread that acquires after its task was cancelled is waited for, and its acquisition is
      given back without running the body. */
  lemma LateGrantIsBalanced(u: Use)
    requires Inv(Loop, u) && u.task == Waiting && u.seen && u.thread == Acquiring
    ensures var held := Effect(Grant, Loop, u);
      var balancing := Effect(WakeHeld, Loop, held);
      && balancing.thread == Releasing && !balancing.ran && balancing.bodies == u.bodies
      && Effect(WakeReleased, Loop, Effect(Free, Loop, balancing)).task == Outside(Some(CancelledByCaller))
  {
  }

  /** The inbound service's lock differs in one case only: it can exit with the release still
      under way, after a cancelled acquisition whose single shielded wait was cancelled again.
      The lock is not held by anybody's body then, and no use enters before it is free. */
  lemma ServiceLockExits(run: seq<Use>, i: nat)
    requires IsLockRun(Once, run) && i < |run| && run[i].task.Outside?
    ensures run[i].thread != Held && (run[i].acquired != run[i].released <==> run[i].thread == Releasing)
    ensures run[i].thread == Releasing ==>
      run[i].task.exit == Some(CancelledByCaller) && run[i].seen && !run[i].ran && !Enabled(Enter, run[i])
  {
    HoldsAt(Once, run, i);
  }

  /** A cancellation that empties a wait of the balancing task is the only way to such an exit. */
  lemma OnlySecondCancellationLeavesRelease(run: seq<Use>, i: nat)
    requires IsLockRun(Once, run) && i + 1 < |run|
    requires !run[i].task.Outside? && run[i + 1].task.Outside? && run[i + 1].thread == Releasing
    ensures run[i].task == Balancing && run[i].seen
  {
    HoldsAt(Once, run, i);
    Runs.StepAt(Init, (u, u') => Next(Once, u, u'), run, i);
  }

  /** And it does happen: enter, cancel, grant, wake, cancel. */
  lemma ServiceLockCanExitEarly(run: seq<Use>) returns (next: seq<Use>)
    requires IsLockRun(Once, run) && Enabled(Enter, run[|run| - 1])
    ensures IsLockRun(Once, next)
    ensures next[|next| - 1].task == Outside(Some(CancelledByCaller)) && next[|next| - 1].thread == Releasing
  {
    next := Extend(Once, run, Enter);
    next := Extend(Once, next, Cancel);
    next := Extend(Once, next, Grant);
    next := Extend(Once, next, WakeHeld);
    next := Extend(Once, next, Cancel);
  }

  lemma Extend(shield: Shield, run: seq<Use>, s: Step) returns (next: seq<Use>)
    requires IsLockRun(shield, run) && Enabled(s, run[|run| - 1])
    ensures next == run + [Effect(s, shield, run[|run| - 1])] && IsLockRun(shield, next)
  {
    next := run + [Effect(s, shield, run[|run| - 1])];
    Runs.Continue(Init, (u, u') => Next(shield, u, u'), run, Effect(s, shield, run[|run| - 1]));
  }

  // ---------- The code ----------

  /** What a task meets at its waits for one thread: this many cancellations before the thread
      is done, and perhaps one more between that and the task's own wake-up. */
  datatype Waits = Waits(early: nat, late: bool)

  predicate Disturbed(w: Waits) {
    w.early > 0 || w.late
  }

  class SlotLock {
    const shield: Shield
    var thread: Thread
    ghost var use: Use
    ghost var run: seq<Use>

    ghost predicate Recorded()
      reads this
    {
      run != [] && IsLockRun(shield, run) && run[|run| - 1] == use && use.thread == thread
    }

    constructor (shield: Shield)
      ensures Recorded() && use.task == Outside(None) && this.shield == shield && thread == NoThread
    {
      this.shield, thread := shield, NoThread;
      use := Use(NoThread, Outside(None), false, false, false, 0, 0, 0);
      run := [Use(NoThread, Outside(None), false, false, false, 0, 0, 0)];
    }

    method Take(ghost s: Step, after: Thread)
      requires Recorded() && Enabled(s, use) && Effect(s, shield, use).thread == after
      modifies this
      ensures Recorded() && use == Effect(s, shield, old(use))
    {
      Runs.Continue(Init, (u, u') => Next(shield, u, u'), run, Effect(s, shield, use));
      use := Effect(s, shield, use);
      run := run + [use];
      thread := after;
    }

    /** `while not acquire.done(): await shield(acquire)`. */
    method AwaitAcquisition(w: Waits, granted: bool) returns (cancelled: bool)
      requires Recorded() && use.task == Waiting && thread == Acquiring && !use.seen && !use.granted
      modifies this
      ensures Recorded() && cancelled == Disturbed(w)
      ensures use == old(use).(thread := if granted then Held else Denied, granted := granted, seen := cancelled,
                               acquired := old(use).acquired + if granted then 1 else 0)
    {
      cancelled := false;
      var early := w.early;
      while thread == Acquiring
        invariant Recorded() && use.task == Waiting && 0 <= early <= w.early
        invariant thread == Acquiring ==> use == old(use).(seen := cancelled) && cancelled == (early < w.early)
        invariant thread != Acquiring ==> cancelled == Disturbed(w)
        invariant thread != Acquiring ==>
          use == old(use).(thread := if granted then Held else Denied, granted := granted, seen := cancelled,
                           acquired := old(use).acquired + if granted then 1 else 0)
        decreases thread == Acquiring, early
      {
        if early > 0 {
          Take(Cancel, Acquiring);
          cancelled, early := true, early - 1;
        } else {
          if granted {
            Take(Grant, Held);
          } else {
            Take(Deny, Denied);
          }
          if w.late {
            Take(Cancel, thread);
            cancelled := true;
          }
        }
      }
    }

    /** `while not release.done(): await shield(release)`. */
    method AwaitRelease(w: Waits) returns (cancelled: bool)
      requires Recorded() && thread == Releasing && (use.task.Leaving? || (use.task == Balancing && shield == Loop))
      modifies this
      ensures Recorded() && cancelled == Disturbed(w)
      ensures use == old(use).(thread := Released, seen := old(use).seen || cancelled, released := old(use).released + 1)
    {
      cancelled := false;
      var early := w.early;
      while thread == Releasing
        invariant Recorded() && 0 <= early <= w.early
        invariant thread == Releasing ==>
          use == old(use).(seen := old(use).seen || cancelled) && cancelled == (early < w.early)
        invariant thread != Releasing ==> cancelled == Disturbed(w)
        invariant thread != Releasing ==>
          use == old(use).(thread := Released, seen := old(use).seen || cancelled, released := old(use).released + 1)
        decreases thread == Releasing, early
      {
        if early > 0 {
          Take(Cancel, Releasing);
          cancelled, early := true, early - 1;
        } else {
          Take(Free, Released);
          if w.late {
            Take(Cancel, Released);
            cancelled := true;
          }
        }
      }
    }

    /** `_gate_lock` around a body. `acquiring` and `releasing` say where cancellations fall. */
    method RunLocked(acquiring: Waits, granted: bool, body: Body, releasing: Waits) returns (exit: Exit)
      requires Recorded() && use.task.Outside? && thread in {NoThread, Denied, Released}
      modifies this
      ensures Recorded() && use.task == Outside(Some(exit))
      ensures exit ==
        if !granted then LockUnavailable
        else if Disturbed(acquiring) || Disturbed(releasing) then CancelledByCaller
        else BodyExit(body)
      ensures use.bodies == old(use).bodies + if granted && !Disturbed(acquiring) then 1 else 0
      ensures thread == Releasing <==> granted && Disturbed(acquiring) && shield == Once && releasing.early > 0
    {
      hide IsLockRun;
      Take(Enter, Acquiring);
      var cancelledWhileAcquiring := AwaitAcquisition(acquiring, granted);
      if thread == Denied {
        Take(WakeDenied, Denied);
        return LockUnavailable;
      }
      if cancelledWhileAcquiring {
        Take(WakeHeld, Releasing);
        exit := Balance(releasing);
        return;
      }
      Take(WakeHeld, Held);
      Take(EndBody(body), Releasing);
      var cancelledWhileReleasing := AwaitRelease(releasing);
      Take(WakeReleased, Released);
      return if cancelledWhileReleasing then CancelledByCaller else BodyExit(body);
    }

    /** Gives back what a cancelled acquisition has got, and re-raises the cancellation. */
    method Balance(releasing: Waits) returns (exit: Exit)
      requires Recorded() && use.task == Balancing && thread == Releasing && use.seen
      modifies this
      ensures Recorded() && use.task == Outside(Some(exit)) && exit == CancelledByCaller && use.bodies == old(use).bodies
      ensures thread == (if shield == Once && releasing.early > 0 then Releasing else Released)
    {
      hide IsLockRun;
      if shield == Loop {
        var ignored := AwaitRelease(releasing);
        Take(WakeReleased, Released);
        return CancelledByCaller;
      }
      if releasing.early > 0 {
        Take(Cancel, Releasing);
        return CancelledByCaller;
      }
      Take(Free, Released);
      if releasing.late {
        Take(Cancel, Released);
      } else {
        Take(WakeReleased, Released);
      }
      return CancelledByCaller;
    }
  }
}
