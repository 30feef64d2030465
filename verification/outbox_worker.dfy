/** The hosted worker of the outbox, one atomic stretch of its event loop at a time. Rows are
    committed and wakes delivered by other tasks between any two stretches. */
module OutboxWorker {
  import opened SortedSets
  import opened Receipts
  import Runs

  /** Where the worker's task is suspended. `Leaving` is a drain that found nothing and is
      still releasing its lock. */
  datatype Phase = NoTask | Parked | Draining | Delivering(episode: Episode) | Leaving

  /** `pending` are the PENDING rows. Ghost history: `known` are all rows ever committed,
      `announced` the rows committed before a wake that was delivered, `excused` the rows that
      were pending when a drain raised, if the last round of drains ended that way. */
  datatype Worker = Worker(phase: Phase, wakeup: bool, idle: bool, stopping: bool, pending: set<Episode>,
                           known: set<Episode>, announced: set<Episode>, excused: set<Episode>)

  datatype Move =
    | Commit(episode: Episode)
    | SettledElsewhere(episode: Episode)
    | Start
    | Wake
    | Stop
    | Resume(timedOut: bool)
    | Select
    | Settle
    | RaiseError
    | Die
    | Finish
    | CancelTask

  function NextPhase(w: Worker): Phase {
    if w.stopping then NoTask else Parked
  }

  predicate CanMove(m: Move, w: Worker) {
    match m
    case Commit(e) => e !in w.known
    case SettledElsewhere(e) => e in w.pending
    case Start => w.phase == NoTask
    case Wake => w.phase != NoTask && !w.stopping
    case Stop => w.phase != NoTask
    case Resume(timedOut) => w.phase == Parked && (w.wakeup || timedOut)
    case Select => w.phase == Draining
    case Settle => w.phase.Delivering?
    case RaiseError => w.phase == Draining || w.phase.Delivering? || w.phase == Leaving
    case Die => w.phase != NoTask && w.phase != Parked
    case Finish => w.phase == Leaving
    case CancelTask => w.phase != NoTask && w.stopping
  }

  /** What the hosted task and its callers do. An expected error ends the round of drains, any
      other one ends the task; a cancelled task first marks its active row. */
  function Moved(m: Move, w: Worker): Worker
    requires CanMove(m, w)
  {
    match m
    case Commit(e) => w.(pending := w.pending + {e}, known := w.known + {e})
    case SettledElsewhere(e) => w.(pending := w.pending - {e})
    case Start => w.(phase := Parked, wakeup := true, idle := false, stopping := false, announced := w.pending)
    case Wake => w.(wakeup := true, announced := w.announced + w.pending)
    case Stop => w.(wakeup := true, stopping := true)
    case Resume(_) => w.(phase := Draining, wakeup := false, idle := false, excused := {})
    case Select =>
      if w.pending == {} then w.(phase := Leaving) else w.(phase := Delivering(Least(w.pending)))
    case Settle => w.(phase := Draining, pending := w.pending - {w.phase.episode})
    case RaiseError => w.(phase := NextPhase(w), idle := true, excused := w.pending)
    case Die => w.(phase := NoTask)
    case Finish => w.(phase := NextPhase(w), idle := true)
    case CancelTask =>
      w.(phase := NoTask, pending := if w.phase.Delivering? then w.pending - {w.phase.episode} else w.pending)
  }

  ghost predicate Init(w: Worker) {
    w == Worker(NoTask, false, true, false, w.pending, w.pending, {}, {})
  }

  ghost predicate Next(w: Worker, w': Worker) {
    exists m: Move :: CanMove(m, w) && w' == Moved(m, w)
  }

  /** No wakeup is lost: if no wake is waiting to be seen and the worker is neither draining
      nor about to, everything announced has left PENDING, except behind a drain that raised. */
  ghost predicate NothingLost(w: Worker) {
    && w.pending <= w.known && w.announced <= w.known && w.excused <= w.known
    && (!w.wakeup && w.phase in {Parked, Leaving} ==> w.announced * w.pending <= w.excused)
    && (w.stopping && w.phase == Parked ==> w.wakeup)
  }

  lemma MoveLosesNothing(w: Worker, w': Worker)
    requires NothingLost(w) && Next(w, w')
    ensures NothingLost(w')
  {
  }

  lemma NoLostWakeup(run: seq<Worker>, i: nat)
    requires Runs.IsRun(Init, Next, run) && i < |run|
    ensures run[i].phase == Parked && !run[i].wakeup ==>
      !run[i].stopping && run[i].announced * run[i].pending <= run[i].excused
  {
    forall w, w' | NothingLost(w) && Next(w, w') ensures NothingLost(w') {
      MoveLosesNothing(w, w');
    }
    Runs.InvariantAt(Init, Next, NothingLost, run, i);
  }

  /** What one drain tells the worker. */
  datatype Drained = Something | Nothing | Failure

  ghost predicate Recorded(run: seq<Worker>, worker: Worker) {
    run != [] && Runs.IsRun(Init, Next, run) && run[|run| - 1] == worker
  }

  class DeliveryOutboxWorker {
    var phase: Phase
    var wakeup: bool
    var idle: bool
    var stopping: bool

    /** The PENDING rows of the table the drains work on. */
    var pending: set<Episode>

    ghost var worker: Worker
    ghost var run: seq<Worker>

    ghost predicate Valid()
      reads this
    {
      && Recorded(run, worker)
      && worker == worker.(phase := phase, wakeup := wakeup, idle := idle, stopping := stopping, pending := pending)
    }

    constructor (rows: set<Episode>)
      ensures Valid() && phase == NoTask && pending == rows
    {
      phase, wakeup, idle, stopping, pending := NoTask, false, true, false, rows;
      worker := Worker(NoTask, false, true, false, rows, rows, {}, {});
      run := [Worker(NoTask, false, true, false, rows, rows, {}, {})];
    }

    /** One step of anyone; the caller brings the fields in line. */
    ghost method Take(m: Move)
      requires Recorded(run, worker) && CanMove(m, worker)
      modifies this`worker, this`run
      ensures Recorded(run, worker)
      ensures worker == Moved(m, old(worker))
    {
      Runs.Continue(Init, Next, run, Moved(m, worker));
      worker := Moved(m, worker);
      run := run + [worker];
    }

    /** Refuses a second task; asks for a recovery drain at once. */
    method Start() returns (ok: bool)
      requires Valid()
      modifies this
      ensures Valid() && ok == (old(phase) == NoTask)
      ensures ok ==> phase == Parked && wakeup && !idle && !stopping && worker.announced == pending == old(pending)
      ensures !ok ==> worker == old(worker)
    {
      hide Recorded;
      if phase != NoTask {
        return false;
      }
      Take(Move.Start);
      stopping, idle, wakeup, phase := false, false, true, Parked;
      return true;
    }

    method Wake()
      requires Valid()
      modifies this
      ensures Valid() && phase == old(phase)
      ensures old(phase) != NoTask && !old(stopping) ==> wakeup && pending == old(pending) && pending <= worker.announced
      ensures old(phase) == NoTask || old(stopping) ==> worker == old(worker)
    {
      hide Recorded;
      if phase != NoTask && !stopping {
        Take(Move.Wake);
        wakeup := true;
      }
    }

    /** Begins a shutdown; false when there is no task to stop. */
    method RequestStop() returns (waiting: bool)
      requires Valid()
      modifies this
      ensures Valid() && waiting == (old(phase) != NoTask) && phase == old(phase)
      ensures waiting ==> stopping && wakeup
      ensures pending == old(pending)
    {
      hide Recorded;
      if phase == NoTask {
        return false;
      }
      Take(Stop);
      stopping, wakeup := true, true;
      return true;
    }

    /** The stretch after the wait: a hint or the period has ended it. */
    method Leave(timedOut: bool)
      requires Valid() && phase == Parked && (wakeup || timedOut)
      modifies this
      ensures Valid() && phase == Draining && !wakeup && !idle && stopping == old(stopping) && pending == old(pending)
    {
      hide Recorded;
      Take(Resume(timedOut));
      phase, wakeup, idle := Draining, false, false;
    }

    /** One turn of the inner loop. `again` says that it goes round once more. */
    method DrainTurn(raises: bool) returns (drained: Drained)
      requires Valid() && phase == Draining
      modifies this
      ensures Valid() && wakeup == old(wakeup) && stopping == old(stopping)
      ensures drained.Something? <==> phase == Draining
      ensures drained.Something? ==>
        && old(pending) != {} && idle == old(idle)
        && pending == old(pending) - {Least(old(pending))}
      ensures !drained.Something? ==>
        && idle && phase == (if stopping then NoTask else Parked)
        && pending == old(pending)
      ensures drained.Nothing? ==> pending == {}
      ensures drained.Failure? <==> raises
    {
      hide Recorded;
      if raises {
        Take(RaiseError);
        idle, phase := true, if stopping then NoTask else Parked;
        return Failure;
      }
      Take(Select);
      if pending == {} {
        Take(Finish);
        idle, phase := true, if stopping then NoTask else Parked;
        return Nothing;
      }
      Take(Settle);
      pending := pending - {Least(pending)};
      return Something;
    }

    /** One round of `_run`: with no row added meanwhile the inner loop ends, and unless a
        drain raised nothing is left in PENDING. */
    method Round(timedOut: bool, raises: nat -> bool) returns (failed: bool)
      requires Valid() && phase == Parked && (wakeup || timedOut)
      modifies this
      ensures Valid() && idle && phase == (if stopping then NoTask else Parked) && !wakeup
      ensures pending <= old(pending)
      ensures !failed ==> pending == {}
    {
      hide Recorded;
      Leave(timedOut);
      var k := 0;
      while true
        invariant Valid() && phase == Draining && !wakeup && stopping == old(stopping)
        invariant pending <= old(pending)
        decreases pending
      {
        var drained := DrainTurn(raises(k));
        if !drained.Something? {
          return drained.Failure?;
        }
        k := k + 1;
      }
    }
  }
}
