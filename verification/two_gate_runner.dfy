/** The autonomous two-gate runner: its durable document and the methods that save it. The
    ghost field `saves` is the run so far; every save, every look at an artifact and every call
    of the publisher extends it by one step, so each prefix is what a crash would leave, and the
    theorems on runs apply to it. */
module TwoGate {
  import opened Wrappers
  import opened SortedSets
  import opened Artifacts
  import opened Texts
  import opened JobGraph
  import opened RunnerModel
  import opened RunnerInvariants
  import opened RunnerRuns
  import opened SchedulerModel
  import opened SchedulerLoop
  import opened SchedulerRuns
  import opened SuccessorGraph
  import Runs

  /** What the publisher does with a package. */
  datatype PublisherOutcome = PublisherRaises | BadReadback | GoodReadback

  /** The limits the constructor accepts. */
  predicate Limits(scheduler: Scheduler) {
    1 <= scheduler.providerConcurrency <= 32 && 1 <= scheduler.cpuConcurrency <= 32
  }

  ghost predicate Recorded(saves: seq<World>, world: World) {
    saves != [] && IsRunnerRun(saves) && saves[|saves| - 1] == world
  }

  lemma RecordStep(saves: seq<World>, world: World, s: Step)
    requires Recorded(saves, world) && Enabled(s, world)
    ensures Recorded(saves + [Effect(s, world)], Effect(s, world))
  {
    Runs.Continue(Init, Next, saves, Effect(s, world));
  }

  /** Nothing happened outside: no publisher call, no publication thrown away. */
  ghost predicate SameOutside(w: World, w': World) {
    w'.published == w.published && w'.escapes == w.escapes
  }

  class TwoGateRunner {
    const policy: Policy
    const scheduler: Scheduler
    var document: Option<Document>
    ghost var saves: seq<World>
    ghost var log: seq<Event>

    /** The last state of the run; its document is the durable one. */
    ghost var world: World

    ghost predicate Valid()
      reads this
    {
      && Limits(scheduler)
      && Recorded(saves, world)
      && world.policy == policy && world.doc == document && world.publisher.Idle?
    }

    /** A runner over an empty directory. */
    constructor Create(policy: Policy, scheduler: Scheduler)
      requires Limits(scheduler)
      ensures Valid() && this.policy == policy && this.scheduler == scheduler
      ensures document == None && world.published == [] && world.escapes == 0
    {
      this.policy := policy;
      this.scheduler := scheduler;
      document := None;
      saves := [World(policy, None, Idle, [], 0, {}, UNCHECKED)];
      world := World(policy, None, Idle, [], 0, {}, UNCHECKED);
      log := [];
    }

    /** A runner over what an earlier process left at any point of its run. */
    constructor Reopen(policy: Policy, scheduler: Scheduler, document: Option<Document>, ghost history: seq<World>)
      requires Limits(scheduler) && history != [] && IsRunnerRun(history)
      requires history[|history| - 1].policy == policy && history[|history| - 1].doc == document
      ensures Valid() && this.policy == policy && this.scheduler == scheduler && this.document == document
      ensures SameOutside(history[|history| - 1], world)
    {
      this.policy := policy;
      this.scheduler := scheduler;
      this.document := document;
      ghost var w := history[|history| - 1];
      RecordStep(history, w, Crash);
      saves := history + [Effect(Crash, w)];
      world := Effect(Crash, w);
      log := [];
    }

    /** The document satisfies the invariant of all runs. */
    lemma DocumentIsSound()
      requires Valid() && document.Some?
      ensures Sound(policy, document.value) && Aligned(document.value)
    {
      HoldsAt(saves, |saves| - 1);
    }

    /** Atomically replaces the document, by one step of the model. */
    method SaveDocument(d: Document, ghost save: Save)
      requires Valid() && document.Some? && !save.Intend?
      requires MaySave(save, policy, document.value) && CheckAllows(save, document.value, world.check)
      requires d == Saved(save, policy, document.value)
      modifies this`document, this`saves, this`world
      ensures Valid() && document == Some(d)
      ensures saves == old(saves) + [world]
      ensures world == Effect(Do(save), old(world))
    {
      RecordStep(saves, world, Do(save));
      document := Some(d);
      world := Effect(Do(save), world);
      saves := saves + [world];
    }

    // ---------- Start ----------

    method Start(packet: Sha256, jobs: seq<Job>) returns (r: Result<Document, RunnerError>)
      requires Valid()
      modifies this`document, this`saves, this`world
      ensures Valid() && SameOutside(old(world), world)
      ensures old(document).Some? ==>
        && document == old(document)
        && r == if document.value.packet == packet && document.value.jobs == Bindings(jobs)
                then Ok(document.value) else Err(StartConflict)
      ensures old(document).None? ==>
        && r == StartDocument(policy, packet, jobs, scheduler)
        && document == if r.Ok? then Some(r.value) else None
    {
      if document.Some? {
        if document.value.packet != packet || document.value.jobs != Bindings(jobs) {
          return Err(StartConflict);
        }
        return Ok(document.value);
      }
      if jobs == [] {
        return Err(EmptyStart);
      }
      var ordered := TopologicalOrder(jobs);
      if ordered.Err? {
        return Err(BadGraph(ordered.error));
      }
      var total := 0;
      for i := 0 to |jobs|
        invariant total == TotalCost(jobs[..i])
        invariant forall k :: 0 <= k < i ==> jobs[k].mode == Test && Authorized(policy, jobs[k])
      {
        if jobs[i].mode != Test || !Authorized(policy, jobs[i]) {
          return Err(PolicyDenied);
        }
        assert jobs[..i + 1][..i] == jobs[..i];
        total := total + jobs[i].cost;
      }
      assert jobs[..|jobs|] == jobs;
      if total > policy.episodeCap {
        return Err(PolicyDenied);
      }
      var d := Document(packet, Bindings(jobs), jobs, scheduler, map[], map[], map[], None, map[], None, Ready);
      RecordStep(saves, world, RunnerModel.Start(packet, jobs, scheduler));
      document := Some(d);
      world := Effect(RunnerModel.Start(packet, jobs, scheduler), world);
      saves := saves + [world];
      return Ok(d);
    }

    // ---------- Successors ----------

    /** The position of a request id, found from the front. */
    static method Find(jobs: seq<Job>, id: RequestId) returns (k: nat)
      requires Distinct(Ids(jobs))
      ensures k == IndexOf(jobs, id)
    {
      k := 0;
      while k < |jobs| && jobs[k].requestId != id
        invariant k <= |jobs|
        invariant forall i :: 0 <= i < k ==> jobs[i].requestId != id
      {
        k := k + 1;
      }
      if k < |jobs| {
        assert Ids(jobs)[k] == id;
      }
    }

    /** One turn of the successor loop, on the candidate document. */
    method TrySuccessor(candidate: Document, job: Job) returns (r: Result<Document, RunnerError>)
      requires Aligned(candidate)
      ensures r == AddSuccessor(policy, candidate, job)
      ensures r.Ok? ==> Aligned(r.value)
    {
      AddSuccessorAligned(policy, candidate, job);
      var k := Find(candidate.specs, job.requestId);
      if k < |candidate.specs| {
        if candidate.jobs[k].jobSha256 != JobDigest(job) {
          return Err(SuccessorConflict);
        }
        return Ok(candidate);
      }
      if job.mode != Test || job.predecessor.None? {
        return Err(PolicyDenied);
      }
      var p := Find(candidate.specs, job.predecessor.value);
      if p == |candidate.specs| {
        return Err(UnknownPredecessor);
      }
      var predecessor := candidate.specs[p];
      if job.scene != predecessor.scene {
        return Err(SceneMismatch);
      }
      if !PredecessorAllows(candidate.qa, predecessor, job.category) {
        return Err(WrongPredecessorVerdict);
      }
      var total := SumCosts(candidate.specs);
      if !Authorized(policy, job) || total + job.cost > policy.episodeCap {
        return Err(PolicyDenied);
      }
      var jobs := candidate.jobs + [BindingOf(job)];
      jobs := jobs[p := jobs[p].(supersededBy := Some(job.requestId))];
      assert jobs == Append(candidate, p, job).jobs;
      return Ok(candidate.(jobs := jobs, specs := candidate.specs + [job]));
    }

    static method SumCosts(jobs: seq<Job>) returns (total: int)
      ensures total == TotalCost(jobs)
    {
      total := 0;
      for i := 0 to |jobs|
        invariant total == TotalCost(jobs[..i])
      {
        assert jobs[..i + 1][..i] == jobs[..i];
        total := total + jobs[i].cost;
      }
      assert jobs[..|jobs|] == jobs;
    }

    /** The successor loop, on a copy of the document. */
    method TrySuccessors(d: Document, jobs: seq<Job>) returns (r: Result<Document, RunnerError>)
      requires Aligned(d)
      ensures r == AddSuccessors(policy, d, jobs)
    {
      var candidate := d;
      for i := 0 to |jobs|
        invariant Aligned(candidate) && AddSuccessors(policy, d, jobs[..i]) == Ok(candidate)
      {
        assert jobs[..i + 1][..i] == jobs[..i];
        var next := TrySuccessor(candidate, jobs[i]);
        if next.Err? {
          RefusalSticks(policy, d, jobs, i + 1);
          return next;
        }
        candidate := next.value;
      }
      assert jobs[..|jobs|] == jobs;
      return Ok(candidate);
    }

    /** Adds successors to a copy of the document; saves it once at the end, if anything is
        new, with media, delivery, technical QA and gates cleared. A refusal saves nothing. */
    method AddSuccessorJobs(jobs: seq<Job>) returns (r: Result<Document, RunnerError>)
      requires Valid()
      modifies this`document, this`saves, this`world
      ensures Valid() && SameOutside(old(world), world)
      ensures old(document).None? ==> r == Err(NotStarted)
      ensures old(document).Some? ==> Aligned(old(document).value)
      ensures old(document).Some? ==> r == SuccessorsResult(policy, old(document).value, jobs)
      ensures r.Err? ==> document == old(document) && saves == old(saves)
      ensures r.Ok? ==> document == Some(r.value)
    {
      if document.None? {
        return Err(NotStarted);
      }
      var d := document.value;
      DocumentIsSound();
      if d.state in {Published, PublishIntent} {
        return Err(PolicyDenied);
      }
      var added := TrySuccessors(d, jobs);
      if added.Err? {
        return added;
      }
      SuccessorsOnlyAppend(policy, d, jobs);
      if |added.value.jobs| == |d.jobs| {
        return Ok(d);
      }
      var candidate := added.value.(media := map[], delivery := map[], technicalQa := None, gates := map[],
                                    state := Running);
      SaveDocument(candidate, Extend(jobs));
      return Ok(candidate);
    }

    // ---------- Resume ----------

    function Window(): nat {
      scheduler.providerConcurrency + scheduler.cpuConcurrency
    }

    /** The loop as the fields and the local variables of a resume show it. */
    ghost function LoopNow(inflight: set<RequestId>, drops: multiset<RequestId>, turn: nat): Loop
      requires document.Some?
      reads this
    {
      Loop(document.value, inflight, drops, turn, log, None)
    }

    /** A step that leaves the document alone. */
    ghost method Observe(s: Step)
      requires Valid() && Enabled(s, world) && (s.Disturb? || s.Look? || s.Inspect? || s.Detect?)
      modifies this`saves, this`world
      ensures Valid() && world == Effect(s, old(world))
    {
      RecordStep(saves, world, s);
      world := Effect(s, world);
      saves := saves + [world];
    }

    /** Re-opens the artifact of every approved verdict, up to the first that has changed;
        `intact` are those that verify when they are reached. */
    method ValidatePersistedQa(intact: set<RequestId>) returns (stale: Option<RequestId>)
      requires Valid() && document.Some?
      modifies this`saves, this`world
      ensures Valid() && SameOutside(old(world), world)
      ensures stale.None? <==> AllIntact(document.value.qa, intact)
      ensures stale.None? ==> AllIntact(document.value.qa, world.check.verified)
      ensures stale.Some? ==> Approved(document.value.qa, stale.value) && world.check.stale == stale
    {
      Observe(Disturb(intact));
      Observe(Look);
      var left := ApprovedIds(document.value.qa);
      while left != {}
        invariant Valid() && SameOutside(old(world), world) && world.intact == intact
        invariant left <= ApprovedIds(document.value.qa)
        invariant world.check == Check(ApprovedIds(document.value.qa) - left, None)
        invariant ApprovedIds(document.value.qa) - left <= intact
        decreases left
      {
        var id :| id in left;
        if id !in intact {
          Observe(Detect(id));
          return Some(id);
        }
        Observe(Inspect(id));
        left := left - {id};
      }
      return None;
    }

    /** Starts the launchable jobs that fit the window. */
    method LaunchReady(ready: seq<RequestId>, before: set<RequestId>, ghost drops: multiset<RequestId>, ghost turn: nat)
        returns (inflight: set<RequestId>)
      requires document.Some?
      modifies this`log
      ensures LoopNow(inflight, drops, turn) == LaunchAll(old(LoopNow(before, drops, turn)), Fitting(ready, Window(), before))
    {
      inflight := before;
      var fitting := Fitting(ready, Window(), before);
      for i := 0 to |fitting|
        invariant LoopNow(inflight, drops, turn) == LaunchAll(old(LoopNow(before, drops, turn)), fitting[..i])
      {
        assert fitting[..i + 1][..i] == fitting[..i];
        inflight := inflight + {fitting[i]};
        log := log + [Launched(fitting[i])];
      }
      assert fitting[..|fitting|] == fitting;
    }

    /** Records the verdict of one completed task and saves the document. */
    method RecordOne(id: RequestId, resultSha256: Sha256, report: Option<Report>)
      requires Valid() && document.Some? && MayWork(document.value) && MayRecord(document.value, id)
      modifies this`document, this`saves, this`world, this`log
      ensures Valid() && SameOutside(old(world), world)
      ensures document == Some(old(document).value.(qa := old(document).value.qa[id := Judge(id, resultSha256, report)]))
      ensures log == old(log) + [Finished(id)] + [SavedAs(document.value)]
    {
      VerdictIsIndependent(id, resultSha256, report);
      var d := document.value;
      var verdict := Judge(id, resultSha256, report);
      SaveDocument(d.(qa := d.qa[id := verdict]), Record(id, verdict));
      log := log + [Finished(id)] + [SavedAs(document.value)];
    }

    /** A task that one wait returned belongs to a job that may get its verdict. */
    lemma SettledMayRecord(l: Loop, done: seq<RequestId>, i: nat, start: Document, env: Outside)
      requires Scheduling(start, l, env, Window()) && |start.jobs| == |start.specs|
      requires Distinct(done) && (forall id :: id in done ==> id in l.inflight) && i < |done|
      requires SettleAll(l, done[..i], env).outcome.None?
      ensures var m := SettleAll(l, done[..i], env);
        MayWork(m.doc) && MayRecord(m.doc, done[i])
      ensures done[..i + 1][..i] == done[..i]
    {
      SettleAllKeeps(start, l, env, Window(), done[..i]);
      assert done[i] !in Members(done[..i]);
      hide OrderOf, Judged, Aligned, RecordedFrom, Tracks;
      assert done[i] in SettleAll(l, done[..i], env).inflight;
    }

    /** Records the tasks that one wait returned, in the order it returned them; a task for
        which the QA callback answered nothing is dropped, and the first that raises ends the
        resume. `drops` numbers the attempts. */
    method RecordCompleted(done: seq<RequestId>, before: set<RequestId>, dropped: multiset<RequestId>, turn: nat,
                           ghost start: Document, env: Outside)
        returns (inflight: set<RequestId>, drops: multiset<RequestId>, raised: bool)
      requires Valid() && document.Some? && |start.jobs| == |start.specs|
      requires Scheduling(start, LoopNow(before, dropped, turn), env, Window())
      requires Distinct(done) && forall id :: id in done ==> id in before
      modifies this`document, this`saves, this`world, this`log
      ensures Valid() && document.Some? && SameOutside(old(world), world)
      ensures LoopNow(inflight, drops, turn).(outcome := if raised then Some(Err(TaskFailed)) else None)
        == SettleAll(old(LoopNow(before, dropped, turn)), done, env)
    {
      hide Scheduling, IsRunnerRun, MayRecord, Judge;
      inflight, drops, raised := before, dropped, false;
      ghost var l := LoopNow(before, dropped, turn);
      SchedulingHasNoOutcome(start, l, env, Window());
      for i := 0 to |done|
        invariant Valid() && document.Some? && SameOutside(old(world), world)
        invariant LoopNow(inflight, drops, turn) == SettleAll(l, done[..i], env)
      {
        SettledMayRecord(l, done, i, start, env);
        match env.answer(done[i], drops[done[i]])
        case Silent =>
          log := log + [Dropped(done[i])];
          drops := drops + multiset{done[i]};
          inflight := inflight - {done[i]};
        case Raises =>
          log := log + [Failed(done[i])] + [Gathered];
          inflight, raised := {}, true;
          RaiseStops(l, done, i + 1, env);
          return;
        case Completes(resultSha256, report) =>
          RecordOne(done[i], resultSha256, report);
          inflight := inflight - {done[i]};
      }
      assert done[..|done|] == done;
    }

    lemma VerdictsAreJudged()
      requires Valid() && document.Some?
      ensures Aligned(document.value) && Judged(document.value) && SupersededJudged(document.value)
    {
      DocumentIsSound();
    }

    /** Ends a resume by a save. */
    method EndNow(state: State, ghost save: Save, ghost l: Loop) returns (r: Result<Document, RunnerError>)
      requires Valid() && document == Some(l.doc) && log == l.log && (save.Reject? || save.Finish?)
      requires MaySave(save, policy, l.doc) && CheckAllows(save, l.doc, world.check)
      requires Saved(save, policy, l.doc) == l.doc.(state := state)
      modifies this`document, this`saves, this`world, this`log
      ensures Valid() && SameOutside(old(world), world)
      ensures document == Some(EndAs(l, state).doc) && log == EndAs(l, state).log && EndAs(l, state).outcome == Some(r)
    {
      SaveDocument(document.value.(state := state), save);
      log := log + [SavedAs(document.value)];
      return Ok(document.value);
    }

    /** The checks at the top of the loop. */
    method Examine(w: Work, inflight: set<RequestId>, ghost drops: multiset<RequestId>, turn: nat, ghost start: Document,
                   env: Outside) returns (stop: Option<Result<Document, RunnerError>>)
      requires Valid() && document.Some? && Startable(start, w) && w.window == Window()
      requires Scheduling(start, LoopNow(inflight, drops, turn), env, Window())
      modifies this`document, this`saves, this`world, this`log
      ensures Valid() && document.Some? && SameOutside(old(world), world)
      ensures var l := Examined(old(LoopNow(inflight, drops, turn)), w, env);
        document == Some(l.doc) && log == l.log && stop == l.outcome
    {
      hide Scheduling, IsRunnerRun, Blocked, Startable, AllIntact, ActiveRefused, ActiveApproved, RefusalSeen, Plan, Judged,
        SupersededJudged;
      ghost var l := LoopNow(inflight, drops, turn);
      var d := document.value;
      SchedulingTracks(start, l, env, Window());
      SchedulingHasNoOutcome(start, l, env, Window());
      StartPlans(start, w);
      PlanStays(start, d, w);
      var stale := ValidatePersistedQa(env.intact(turn));
      if stale.Some? {
        var ignored := EndNow(Rejected, Reject, l);
        log := log + [Gathered];
        return Some(Err(StaleQa));
      }
      if ActiveRefused(d) {
        ActiveIsSeen(d);
        var r := EndNow(Rejected, Reject, l);
        return Some(r);
      }
      var pending := Pending(w.ordered, d.qa, inflight);
      if pending == [] && inflight == {} {
        NothingPending(d, w);
        ActiveWereApproved(d);
        var r := EndNow(MediaPending, Finish, l);
        return Some(r);
      }
      if Blocked(pending, d.qa, w.dependencies) {
        BlockedIsSeen(d, w, inflight);
        var r := EndNow(Rejected, Reject, l);
        return Some(r);
      }
      return None;
    }

    lemma StartPlans(start: Document, w: Work)
      requires Startable(start, w)
      ensures Plan(start, w)
    {
    }

    /** Launches into the free slots, waits, and records what the wait returned. */
    method LaunchAndAwait(w: Work, before: set<RequestId>, dropped: multiset<RequestId>, turn: nat, ghost start: Document,
                          env: Outside)
        returns (error: Option<RunnerError>, inflight: set<RequestId>, drops: multiset<RequestId>)
      requires Valid() && document.Some? && Startable(start, w) && w.window == Window()
      requires Scheduling(start, LoopNow(before, dropped, turn), env, Window())
      requires Examined(LoopNow(before, dropped, turn), w, env).outcome.None?
      modifies this`document, this`saves, this`world, this`log
      ensures Valid() && document.Some? && SameOutside(old(world), world)
      ensures LoopNow(inflight, drops, turn + 1).(outcome := if error.Some? then Some(Err(error.value)) else None)
        == Worked(old(LoopNow(before, dropped, turn)), w, env)
    {
      hide Scheduling, IsRunnerRun, Startable, Examined, Fitting, Completed, LaunchAll, SettleAll;
      ghost var l := LoopNow(before, dropped, turn);
      StartLengths(start, w);
      ghost var launched := LaunchesFit(start, l, w, env);
      var ready := Launchable(Pending(w.ordered, document.value.qa, before), document.value.qa, w.dependencies);
      inflight := LaunchReady(ready, before, dropped, turn);
      NextTurnIsScheduling(start, launched, env, Window());
      var done := Completed(env.wake(turn), inflight);
      var raised;
      inflight, drops, raised := RecordCompleted(done, inflight, dropped, turn + 1, start, env);
      return if raised then Some(TaskFailed) else None, inflight, drops;
    }

    /** The scheduling loop, watched for `limit` turns; None when it is then still running. */
    method Schedule(w: Work, ghost start: Document, env: Outside, limit: nat)
        returns (r: Option<Result<Document, RunnerError>>)
      requires Valid() && document == Some(start) && log == [] && Startable(start, w) && w.window == Window()
      modifies this`document, this`saves, this`world, this`log
      ensures Valid() && document.Some? && SameOutside(old(world), world)
      ensures var l := After(start, w, env, limit);
        document == Some(l.doc) && log == l.log && r == l.outcome
    {
      hide Scheduling, IsRunnerRun, Startable, Examined, Worked, Ended, Logged;
      var inflight: set<RequestId> := {};
      var drops: multiset<RequestId> := multiset{};
      for turn := 0 to limit
        invariant Valid() && document.Some? && SameOutside(old(world), world)
        invariant LoopNow(inflight, drops, turn) == After(start, w, env, turn)
      {
        AfterIsGood(start, w, env, turn);
        ExaminedKeeps(start, After(start, w, env, turn), w, env);
        var stop := Examine(w, inflight, drops, turn, start, env);
        if stop.Some? {
          EndStays(start, w, env, turn + 1, limit);
          return stop;
        }
        var error;
        error, inflight, drops := LaunchAndAwait(w, inflight, drops, turn, start, env);
        if error.Some? {
          EndStays(start, w, env, turn + 1, limit);
          return Some(Err(error.value));
        }
      }
      return None;
    }

    /** A resume outside READY and RUNNING only re-validates what was approved. */
    method Revalidate(env: Outside) returns (r: Result<Document, RunnerError>)
      requires Valid() && document.Some? && document.value.state !in {Ready, Running}
      modifies this`document, this`saves, this`world
      ensures Valid() && world.published == old(world).published
      ensures (document, r) == RevalidateResult(old(document).value, env)
      ensures world.escapes == old(world).escapes + if r.Err? && Committed(old(document).value) then 1 else 0
    {
      hide AllIntact, IsRunnerRun;
      var stale := ValidatePersistedQa(env.intact(0));
      if stale.None? {
        return Ok(document.value);
      }
      SaveDocument(document.value.(state := Rejected), Escape(stale.value));
      return Err(StaleQa);
    }

    /** `limit` is the number of turns for which the scheduling loop is watched. */
    method Resume(jobs: Option<seq<Job>>, env: Outside, limit: nat) returns (r: Option<Result<Document, RunnerError>>)
      requires Valid()
      modifies this`document, this`saves, this`world, this`log
      ensures Valid() && world.published == old(world).published
      ensures old(document).None? ==> r == Some(Err(NotStarted))
      ensures old(document).Some? && Refusal(old(document).value, scheduler, jobs).Some? ==>
        && document == old(document) && saves == old(saves)
        && r == Some(Err(Refusal(document.value, scheduler, jobs).value))
      ensures old(document).Some? && Refusal(old(document).value, scheduler, jobs).None?
              && old(document).value.state !in {Ready, Running} ==>
        r.Some? && (document, r.value) == RevalidateResult(old(document).value, env)
      ensures old(document).Some? && Refusal(old(document).value, scheduler, jobs).None?
              && old(document).value.state in {Ready, Running} ==>
        Resumed(old(document).value.(state := Running), document, log, r, env, Window(), limit)
    {
      if document.None? {
        return Some(Err(NotStarted));
      }
      if document.value.scheduler != scheduler {
        return Some(Err(SchedulerChanged));
      }
      if jobs.Some? && !MatchesStarted(document.value, jobs.value) {
        return Some(Err(JobsMismatch));
      }
      if document.value.state !in {Ready, Running} {
        var revalidated := Revalidate(env);
        return Some(revalidated);
      }
      SaveDocument(document.value.(state := Running), Begin);
      r := ResumeRunning(env, limit);
    }

    method ResumeRunning(env: Outside, limit: nat) returns (r: Option<Result<Document, RunnerError>>)
      requires Valid() && document.Some? && document.value.state == Running
      modifies this`document, this`saves, this`world, this`log
      ensures Valid() && SameOutside(old(world), world)
      ensures Resumed(old(document).value, document, log, r, env, Window(), limit)
    {
      hide Ended, Logged, Scheduling, IsRunnerRun, Judged, SupersededJudged, Aligned, Quiet, AllAnswered, Clear;
      VerdictsAreJudged();
      var d := document.value;
      var ordered := TopologicalOrder(d.specs);
      if ordered.Err? {
        return Some(Err(BadGraph(ordered.error)));
      }
      var dependencies := DependencyMap(d.specs);
      PlanOf(d, ordered.value, Window());
      var w := Work(ordered.value, dependencies.value, Window());
      log := [];
      r := Schedule(w, d, env, limit);
      AfterIsGood(d, w, env, limit);
    }

    // ---------- Gates ----------

    lemma VerdictCheckPasses()
      requires Valid() && document.Some?
      ensures document.value.state == MediaPending ==> AllActiveJudged(document.value) && !ActiveRefused(document.value)
    {
      DocumentIsSound();
      MediaPendingIsComplete(policy, document.value);
    }

    /** Opens the thumbnail gate for decodable media; hashes are taken from the files. */
    method StageDelivery(paths: map<Kind, Path>, files: Files, decodable: set<Path>, qa: TechnicalQa)
        returns (r: Result<Document, RunnerError>)
      requires Valid() && paths.Keys == {Thumbnail, Video}
      modifies this`document, this`saves, this`world
      ensures Valid() && SameOutside(old(world), world)
      ensures old(document).None? ==> r == Err(NotStarted)
      ensures old(document).Some? ==>
        && (document, r) == StageResult(old(document).value, paths, files, decodable, qa)
    {
      if document.None? {
        return Err(NotStarted);
      }
      var d := document.value;
      VerdictCheckPasses();
      if d.state != MediaPending || !AllActiveJudged(d) || ActiveRefused(d) {
        return Err(StagingOutOfOrder);
      }
      if !qa.approved || qa.mode != Test || qa.subject == "generator" {
        SaveDocument(d.(state := Rejected), StageReject);
        return Err(StagingRejected);
      }
      if paths[Thumbnail] !in files || paths[Thumbnail] !in decodable
         || paths[Video] !in files || paths[Video] !in decodable {
        return Err(ArtifactUnusable);
      }
      assert forall k :: k in paths ==> k == Thumbnail || k == Video;
      var media := MediaOf(paths, files);
      SaveDocument(Staged(d, media, qa), Stage(media, qa));
      return Ok(document.value);
    }

    /** Records one human decision on the exact staged artifact. */
    method RecordHumanGate(kind: Kind, path: Path, files: Files, decodable: set<Path>,
                           approved: bool, reviewer: string) returns (r: Result<Document, RunnerError>)
      requires Valid()
      modifies this`document, this`saves, this`world
      ensures Valid() && SameOutside(old(world), world)
      ensures old(document).None? ==> r == Err(NotStarted)
      ensures old(document).Some? ==>
        var d := old(document).value;
        && (r.Ok? <==> d.state == Expects(kind) && kind in d.media && path == d.media[kind].path && path in files
                       && !Blank(reviewer) && path in decodable && files[path] == d.media[kind].sha256)
        && (r.Err? ==> document == old(document))
        && (r.Err? ==> r.error == if d.state != Expects(kind) then GateOutOfOrder else GateRefused)
        && (r.Ok? ==> document == Some(r.value) && kind in d.media && r.value == Decided(d, kind, reviewer, approved))
    {
      if document.None? {
        return Err(NotStarted);
      }
      var d := document.value;
      if d.state != Expects(kind) {
        return Err(GateOutOfOrder);
      }
      if kind !in d.media || path != d.media[kind].path {
        return Err(GateRefused);
      }
      if path !in files || Blank(reviewer) || path !in decodable {
        return Err(GateRefused);
      }
      var digest := files[path];
      if digest != d.media[kind].sha256 {
        return Err(GateRefused);
      }
      var gate := Gate(path, digest, approved, reviewer);
      var state := if !approved then Rejected else if kind == Thumbnail then WaitingVideo else ReadyToPublish;
      SaveDocument(d.(gates := d.gates[kind := gate], state := state), Decide(kind, reviewer, approved));
      return Ok(document.value);
    }

    // ---------- Publication ----------

    /** Saves the intent of this process. */
    method SaveIntent(package: Package)
      requires Valid() && document.Some? && MaySave(Intend, policy, document.value)
      requires package == PackageOf(document.value.gates)
      modifies this`document, this`saves, this`world
      ensures document == Some(Saved(Intend, policy, old(document).value))
      ensures Recorded(saves, world)
      ensures world == old(world).(doc := document, publisher := Armed(package), check := UNCHECKED)
    {
      RecordStep(saves, world, Do(Intend));
      document := Some(document.value.(state := PublishIntent, publicationIntent := Some(package)));
      world := Effect(Do(Intend), world);
      saves := saves + [world];
    }

    /** Calls the publisher; confirms a bound readback, leaves the intent otherwise. */
    method CallPublisher(package: Package, publisher: Package -> PublisherOutcome) returns (outcome: PublisherOutcome)
      requires Limits(scheduler) && Recorded(saves, world)
      requires document.Some? && world.policy == policy && world.doc == document && world.publisher == Armed(package)
      modifies this`document, this`saves, this`world
      ensures Valid() && outcome == publisher(package)
      ensures world.published == old(world).published + [package] && world.escapes == old(world).escapes
      ensures document == if outcome == GoodReadback then Some(old(document).value.(state := Published)) else old(document)
    {
      RecordStep(saves, world, Call);
      world := Effect(Call, world);
      saves := saves + [world];
      outcome := publisher(package);
      ghost var last := if outcome == GoodReadback then Confirm else Crash;
      RecordStep(saves, world, last);
      if outcome == GoodReadback {
        document := Some(document.value.(state := Published));
      }
      world := Effect(last, world);
      saves := saves + [world];
    }

    /** In READY_TO_PUBLISH the gates guard exactly the staged files. */
    lemma StagedIsGated(d: Document, files: Files)
      requires Valid() && document == Some(d)
      ensures MayPublish(policy, d, files) <==>
        policy.publicationEnabled && d.state == ReadyToPublish && StagedOnDisk(d, files)
      ensures d.state == ReadyToPublish ==>
        && d.media.Keys == {Thumbnail, Video} && GatesApproved(d.gates)
        && PackageOf(d.gates) == Package(d.media[Thumbnail].sha256, d.media[Video].sha256)
    {
      DocumentIsSound();
      hide Core, CompleteWhenDone, IsRunnerRun;
    }

    /** Saves the intent, calls the publisher once, and confirms only a bound readback. */
    method Publish(files: Files, publisher: Package -> PublisherOutcome)
        returns (r: Result<Document, RunnerError>)
      requires Valid()
      modifies this`document, this`saves, this`world
      ensures Valid() && world.escapes == old(world).escapes
      ensures old(document).None? ==> r == Err(NotStarted)
      ensures old(document).Some? && MayPublish(policy, old(document).value, files) ==>
        var d := old(document).value;
        var package := PackageOf(d.gates);
        var intent := d.(state := PublishIntent, publicationIntent := Some(package));
        && world.published == old(world).published + [package]
        && (publisher(package) == GoodReadback ==>
              document == Some(intent.(state := Published)) && r == Ok(document.value))
        && (publisher(package) != GoodReadback ==> document == Some(intent) && r == Err(PublisherFailed))
      ensures old(document).Some? ==>
        var d := old(document).value;
        world.published == old(world).published +
          if policy.publicationEnabled && d.state == ReadyToPublish && StagedOnDisk(d, files)
          then [Package(files[d.media[Thumbnail].path], files[d.media[Video].path])] else []
      ensures old(document).Some? && !MayPublish(policy, old(document).value, files) ==>
        && document == old(document) && saves == old(saves) && world == old(world)
        && r == if !policy.publicationEnabled then Err(PolicyDenied)
                else if document.value.state == Published then Ok(document.value)
                else if document.value.state == PublishIntent then Err(AmbiguousPublish)
                else Err(PolicyDenied)
    {
      if document.None? {
        return Err(NotStarted);
      }
      var d := document.value;
      StagedIsGated(d, files);
      if !policy.publicationEnabled {
        return Err(PolicyDenied);
      }
      if d.state == Published {
        return Ok(d);
      }
      if d.state == PublishIntent {
        return Err(AmbiguousPublish);
      }
      if d.state != ReadyToPublish || !GatesApproved(d.gates) {
        return Err(PolicyDenied);
      }
      if !GateIntact(d.gates[Thumbnail], files) || !GateIntact(d.gates[Video], files) {
        return Err(PolicyDenied);
      }
      var package := Package(d.gates[Thumbnail].sha256, d.gates[Video].sha256);
      SaveIntent(package);
      var outcome := CallPublisher(package, publisher);
      if outcome != GoodReadback {
        return Err(PublisherFailed);
      }
      return Ok(document.value);
    }
  }

  /** The gate's file is there with the approved bytes. */
  predicate GateIntact(gate: Gate, files: Files) {
    gate.path in files && files[gate.path] == gate.sha256
  }

  /** Both staged files are still on disk with the bytes they were staged with. */
  predicate StagedOnDisk(d: Document, files: Files) {
    && Thumbnail in d.media && Video in d.media
    && d.media[Thumbnail].path in files && files[d.media[Thumbnail].path] == d.media[Thumbnail].sha256
    && d.media[Video].path in files && files[d.media[Video].path] == d.media[Video].sha256
  }

  predicate MayPublish(policy: Policy, d: Document, files: Files) {
    && policy.publicationEnabled && d.state == ReadyToPublish && GatesApproved(d.gates)
    && GateIntact(d.gates[Thumbnail], files) && GateIntact(d.gates[Video], files)
  }

  predicate AllActiveJudged(d: Document) {
    forall i :: 0 <= i < |d.jobs| && d.jobs[i].supersededBy.None? ==> d.jobs[i].requestId in d.qa
  }

  /** The source's re-check of the verdicts before staging never fails in MEDIA_PENDING. */
  lemma MediaPendingIsComplete(policy: Policy, d: Document)
    requires Sound(policy, d)
    ensures d.state == MediaPending ==> AllActiveJudged(d) && !ActiveRefused(d)
  {
  }

  function MediaOf(paths: map<Kind, Path>, files: Files): map<Kind, Media>
    requires forall k :: k in paths ==> paths[k] in files
  {
    map k | k in paths :: Media(paths[k], files[paths[k]])
  }

  /** The document `stage_delivery` leaves, and what it returns. */
  function StageResult(d: Document, paths: map<Kind, Path>, files: Files, decodable: set<Path>,
                       qa: TechnicalQa): (Option<Document>, Result<Document, RunnerError>)
    requires paths.Keys == {Thumbnail, Video}
  {
    if d.state != MediaPending then (Some(d), Err(StagingOutOfOrder))
    else if !qa.approved || qa.mode != Test || qa.subject == "generator" then
      (Some(d.(state := Rejected)), Err(StagingRejected))
    else if exists k :: k in paths && (paths[k] !in files || paths[k] !in decodable) then
      (Some(d), Err(ArtifactUnusable))
    else
      var staged := Staged(d, MediaOf(paths, files), qa);
      (Some(staged), Ok(staged))
  }

  /** Media are staged exactly in MEDIA_PENDING, for evidence of an approved TEST check by someone
      other than the generator, and two files that exist and decode; then with the hashes those
      files have. Without that evidence the episode is rejected; nothing else changes it. */
  lemma StagingIsGuarded(d: Document, paths: map<Kind, Path>, files: Files, decodable: set<Path>, qa: TechnicalQa)
    requires paths.Keys == {Thumbnail, Video}
    ensures var (after, r) := StageResult(d, paths, files, decodable, qa);
      var evidence := qa.approved && qa.mode == Test && qa.subject != "generator";
      && (r.Ok? <==>
            && d.state == MediaPending && evidence
            && paths[Thumbnail] in files && paths[Thumbnail] in decodable
            && paths[Video] in files && paths[Video] in decodable)
      && (r.Ok? ==>
            && after == Some(r.value)
            && r.value == d.(state := WaitingThumbnail, media := r.value.media, delivery := r.value.delivery,
                             technicalQa := Some(qa))
            && r.value.media == map[Thumbnail := Media(paths[Thumbnail], files[paths[Thumbnail]]),
                                    Video := Media(paths[Video], files[paths[Video]])]
            && r.value.delivery == map[Thumbnail := files[paths[Thumbnail]], Video := files[paths[Video]]])
      && (r.Err? ==> after == Some(if d.state == MediaPending && !evidence then d.(state := Rejected) else d))
  {
    assert forall k :: k in paths ==> k in {Thumbnail, Video};
  }

  /** The digest under each request id; a later job with the same id takes the place of an
      earlier one. */
  function Digests(jobs: seq<Binding>): map<RequestId, JobDigest> {
    if jobs == [] then map[]
    else Digests(jobs[..|jobs| - 1])[jobs[|jobs| - 1].requestId := jobs[|jobs| - 1].jobSha256]
  }

  /** `validate_resume_jobs`: the jobs handed to `resume` are those bound in the document. */
  predicate MatchesStarted(d: Document, jobs: seq<Job>) {
    Digests(Bindings(jobs)) == Digests(d.jobs)
  }

  ghost predicate OnlyBoundIds(d: Document, jobs: seq<Job>) {
    forall j :: j in jobs ==> exists i :: 0 <= i < |d.specs| && d.specs[i].requestId == j.requestId
  }

  ghost predicate EachHandedOver(d: Document, jobs: seq<Job>) {
    forall i :: 0 <= i < |d.specs| ==> exists k :: 0 <= k < |jobs| && jobs[k] == d.specs[i] && LastOfItsId(jobs, k)
  }

  /** That is so exactly when no other ids are handed over, and each job of the document is the
      last one that is handed over under its id, with nothing changed. */
  lemma MatchingJobs(d: Document, jobs: seq<Job>)
    requires Aligned(d)
    ensures MatchesStarted(d, jobs) <==> OnlyBoundIds(d, jobs) && EachHandedOver(d, jobs)
  {
    hide OnlyBoundIds, EachHandedOver, Aligned, Digests, Bindings;
    if MatchesStarted(d, jobs) {
      MatchingAreOnly(d, jobs);
      MatchingAreEach(d, jobs);
    }
    if OnlyBoundIds(d, jobs) && EachHandedOver(d, jobs) {
      HandedOverMatch(d, jobs);
    }
  }

  lemma DigestsOfDocument(d: Document, i: nat)
    requires Aligned(d) && i < |d.specs|
    ensures d.specs[i].requestId in Digests(d.jobs) && Digests(d.jobs)[d.specs[i].requestId] == JobDigest(d.specs[i])
  {
    assert forall l :: i < l < |d.jobs| ==> Ids(d.specs)[l] != Ids(d.specs)[i];
    DigestsOfLast(d.jobs, i);
  }

  lemma MatchingAreOnly(d: Document, jobs: seq<Job>)
    requires Aligned(d) && MatchesStarted(d, jobs)
    ensures OnlyBoundIds(d, jobs)
  {
    forall j | j in jobs ensures exists i :: 0 <= i < |d.specs| && d.specs[i].requestId == j.requestId {
      var k :| 0 <= k < |jobs| && jobs[k] == j;
      DigestsHoldIds(Bindings(jobs), k);
      var l := DigestIsOfJob(d.jobs, j.requestId);
      assert d.specs[l].requestId == j.requestId;
    }
  }

  lemma MatchingAreEach(d: Document, jobs: seq<Job>)
    requires Aligned(d) && MatchesStarted(d, jobs)
    ensures EachHandedOver(d, jobs)
  {
    forall i | 0 <= i < |d.specs| ensures exists k :: 0 <= k < |jobs| && jobs[k] == d.specs[i] && LastOfItsId(jobs, k) {
      DigestsOfDocument(d, i);
      var k := DigestIsOfJob(Bindings(jobs), d.specs[i].requestId);
      assert Bindings(jobs)[k] == BindingOf(jobs[k]);
      assert forall l :: k < l < |jobs| ==> Bindings(jobs)[l].requestId == jobs[l].requestId;
      assert jobs[k] == d.specs[i] && LastOfItsId(jobs, k);
    }
  }

  lemma HandedOverDigest(d: Document, jobs: seq<Job>, i: nat)
    requires EachHandedOver(d, jobs) && i < |d.specs|
    ensures d.specs[i].requestId in Digests(Bindings(jobs))
    ensures Digests(Bindings(jobs))[d.specs[i].requestId] == JobDigest(d.specs[i])
  {
    var job := d.specs[i];
    var k :| 0 <= k < |jobs| && jobs[k] == job && LastOfItsId(jobs, k);
    hide Digests;
    assert Bindings(jobs)[k] == BindingOf(jobs[k]);
    assert forall l :: k < l < |jobs| ==> Bindings(jobs)[l].requestId == jobs[l].requestId;
    DigestsOfLast(Bindings(jobs), k);
  }

  /** Both maps have the ids of the document's jobs, and no others. */
  lemma DigestsOfSpecs(d: Document, jobs: seq<Job>, id: RequestId)
    requires Aligned(d) && OnlyBoundIds(d, jobs)
    ensures id in Digests(Bindings(jobs)) || id in Digests(d.jobs) ==>
      exists i :: 0 <= i < |d.specs| && d.specs[i].requestId == id
  {
    hide Digests;
    if id in Digests(Bindings(jobs)) {
      var k := DigestIsOfJob(Bindings(jobs), id);
      assert jobs[k] in jobs;
    } else if id in Digests(d.jobs) {
      var l := DigestIsOfJob(d.jobs, id);
      assert d.specs[l].requestId == id;
    }
  }

  lemma HandedOverMatch(d: Document, jobs: seq<Job>)
    requires Aligned(d) && OnlyBoundIds(d, jobs) && EachHandedOver(d, jobs)
    ensures MatchesStarted(d, jobs)
  {
    hide Aligned, OnlyBoundIds, EachHandedOver, Digests, Bindings, LastOfItsId;
    var bound, given := Digests(d.jobs), Digests(Bindings(jobs));
    forall id | id in given || id in bound ensures id in given && id in bound && given[id] == bound[id] {
      DigestsOfSpecs(d, jobs, id);
      var i :| 0 <= i < |d.specs| && d.specs[i].requestId == id;
      DigestsOfDocument(d, i);
      HandedOverDigest(d, jobs, i);
    }
  }

  predicate LastOfItsId(jobs: seq<Job>, k: nat)
    requires k < |jobs|
  {
    forall l :: k < l < |jobs| ==> jobs[l].requestId != jobs[k].requestId
  }

  lemma {:induction false} DigestsHoldIds(jobs: seq<Binding>, k: nat)
    requires k < |jobs|
    ensures jobs[k].requestId in Digests(jobs)
    decreases |jobs|
  {
    if k < |jobs| - 1 {
      DigestsHoldIds(jobs[..|jobs| - 1], k);
    }
  }

  lemma {:induction false} DigestsOfLast(jobs: seq<Binding>, k: nat)
    requires k < |jobs| && forall l :: k < l < |jobs| ==> jobs[l].requestId != jobs[k].requestId
    ensures jobs[k].requestId in Digests(jobs) && Digests(jobs)[jobs[k].requestId] == jobs[k].jobSha256
    decreases |jobs|
  {
    if k < |jobs| - 1 {
      DigestsOfLast(jobs[..|jobs| - 1], k);
    }
  }

  lemma {:induction false} DigestIsOfJob(jobs: seq<Binding>, id: RequestId) returns (k: nat)
    requires id in Digests(jobs)
    ensures k < |jobs| && jobs[k].requestId == id && jobs[k].jobSha256 == Digests(jobs)[id]
    ensures forall l :: k < l < |jobs| ==> jobs[l].requestId != id
    decreases |jobs|
  {
    if jobs[|jobs| - 1].requestId == id {
      k := |jobs| - 1;
    } else {
      k := DigestIsOfJob(jobs[..|jobs| - 1], id);
    }
  }

  /** Why a resume refuses before it reads the state. */
  function Refusal(d: Document, scheduler: Scheduler, jobs: Option<seq<Job>>): Option<RunnerError> {
    if d.scheduler != scheduler then Some(SchedulerChanged)
    else if jobs.Some? && !MatchesStarted(d, jobs.value) then Some(JobsMismatch)
    else None
  }

  /** A runner never has more than 64 tasks in flight, however long its resume goes on. */
  lemma AtMostSixtyFour(scheduler: Scheduler, start: Document, w: Work, env: Outside, turns: nat)
    requires Limits(scheduler) && w.window == scheduler.providerConcurrency + scheduler.cpuConcurrency
    requires Startable(start, w)
    ensures |InFlight(After(start, w, env, turns).log)| <= 64
  {
    hide Startable, After, Scheduling, Ended, InFlight, LaunchCounts;
    AfterIsGood(start, w, env, turns);
    var l := After(start, w, env, turns);
    if l.outcome.None? {
      SchedulingIsLogged(start, l, env, w.window);
    }
    WindowIsRespected(start, l.log, w.window);
  }

  /** The loop's plan for a document whose jobs have an order. */
  ghost function WorkOf(d: Document, window: nat): Work
    requires OrderOf(d.specs).Ok?
  {
    Work(OrderOf(d.specs).value, GraphOf(d.specs), window)
  }

  /** What a resume of the running document `start` leaves and returns: the refusal of its job
      graph, exactly when that has no order; or else the scheduling loop after `limit` turns,
      waiting or ended as `Good` says. */
  ghost predicate Resumed(start: Document, document: Option<Document>, log: seq<Event>,
                          r: Option<Result<Document, RunnerError>>, env: Outside, window: nat, limit: nat)
  {
    && Aligned(start)
    && match OrderOf(start.specs)
       case Err(error) => document == Some(start) && r == Some(Err(BadGraph(error)))
       case Ok(_) =>
         var w := WorkOf(start, window);
         var l := After(start, w, env, limit);
         Startable(start, w) && document == Some(l.doc) && log == l.log && r == l.outcome && Good(start, l, w, env)
  }

  /** A finished episode survives re-validation exactly when every approved artifact does. */
  function RevalidateResult(d: Document, env: Outside): (Option<Document>, Result<Document, RunnerError>) {
    if AllIntact(d.qa, env.intact(0)) then (Some(d), Ok(d)) else (Some(d.(state := Rejected)), Err(StaleQa))
  }

  /** What `add_successors` returns. */
  ghost function SuccessorsResult(policy: Policy, d: Document, jobs: seq<Job>): Result<Document, RunnerError>
    requires Aligned(d)
  {
    var added := AddSuccessors(policy, d, jobs);
    if d.state in {Published, PublishIntent} then Err(PolicyDenied)
    else if added.Err? then added
    else if |added.value.jobs| == |d.jobs| then Ok(d)
    else Ok(Invalidate(added.value))
  }

  /** A refusal part-way is the refusal of the whole list. */
  lemma {:induction false} RefusalSticks(policy: Policy, d: Document, jobs: seq<Job>, i: nat)
    requires Aligned(d) && i <= |jobs| && AddSuccessors(policy, d, jobs[..i]).Err?
    ensures AddSuccessors(policy, d, jobs) == AddSuccessors(policy, d, jobs[..i])
    decreases |jobs|
  {
    if i == |jobs| {
      assert jobs[..i] == jobs;
    } else {
      var n := |jobs| - 1;
      assert jobs[..n][..i] == jobs[..i];
      RefusalSticks(policy, d, jobs[..n], i);
    }
  }

  lemma {:induction false} SuccessorsOnlyAppend(policy: Policy, d: Document, jobs: seq<Job>)
    requires Aligned(d)
    ensures var r := AddSuccessors(policy, d, jobs); r.Ok? ==> |r.value.jobs| >= |d.jobs|
    ensures var r := AddSuccessors(policy, d, jobs); r.Ok? && |r.value.jobs| == |d.jobs| ==> r.value == d
    decreases |jobs|
  {
    if jobs != [] {
      SuccessorsOnlyAppend(policy, d, jobs[..|jobs| - 1]);
    }
  }

  lemma {:induction false} EndStays(start: Document, w: Work, env: Outside, turns: nat, limit: nat)
    requires turns <= limit && After(start, w, env, turns).outcome.Some?
    ensures After(start, w, env, limit) == After(start, w, env, turns)
    decreases limit
  {
    hide Turn;
    if turns < limit {
      EndStays(start, w, env, turns, limit - 1);
    }
  }

  lemma {:induction false} RaiseStops(l: Loop, done: seq<RequestId>, i: nat, env: Outside)
    requires i <= |done| && SettleAll(l, done[..i], env).outcome.Some?
    ensures SettleAll(l, done, env) == SettleAll(l, done[..i], env)
    decreases |done|
  {
    if i == |done| {
      assert done[..i] == done;
    } else {
      var n := |done| - 1;
      assert done[..n][..i] == done[..i];
      RaiseStops(l, done[..n], i, env);
    }
  }

  /** The resume after accepted successors fails on the job graph exactly when the new jobs are
      not bound, or depend on each other in a circle: `add_successors` itself never looks. */
  lemma ResumeAfterSuccessors(policy: Policy, d: Document, jobs: seq<Job>, document: Option<Document>, log: seq<Event>,
                              r: Option<Result<Document, RunnerError>>, env: Outside, window: nat, limit: nat)
    requires Aligned(d) && OrderOf(d.specs).Ok? && SuccessorsResult(policy, d, jobs).Ok?
    requires Resumed(SuccessorsResult(policy, d, jobs).value.(state := Running), document, log, r, env, window, limit)
    ensures var e := SuccessorsResult(policy, d, jobs).value;
      && d.specs <= e.specs
      && ((exists error :: r == Some(Err(BadGraph(error)))) <==> !AddedInOrder(d.specs, NewJobs(e.specs, |d.specs|)))
  {
    hide AddedInOrder, OrderOf, Startable, After, Logged, Scheduling, Clear, EndedComplete, EndedRefused, EndedStale, EndedRaised;
    SuccessorsOrder(policy, d, jobs);
    SuccessorsOnlyAppend(policy, d, jobs);
  }
}
