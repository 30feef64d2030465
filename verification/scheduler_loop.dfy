/** The scheduling loop of one resume as a function of what the outside answers, and what holds
    after any number of its turns: the verdicts do not depend on the schedule, the loop ends
    exactly when every job is answered in the end, and only a refusal leaves tasks in flight. */
module SchedulerLoop {
  import opened Wrappers
  import opened SortedSets
  import opened JobGraph
  import opened RunnerModel
  import opened RunnerInvariants
  import opened SchedulerModel

  /** What the loop computes once: the topological order, the dependencies, the window. */
  datatype Work = Work(ordered: seq<RequestId>, dependencies: Graph, window: nat)

  /** The loop between two turns; `outcome` is there once it has ended. */
  datatype Loop = Loop(doc: Document, inflight: set<RequestId>, drops: multiset<RequestId>, turn: nat, log: seq<Event>,
                       outcome: Option<Result<Document, RunnerError>>)

  // ---------- The loop ----------

  function Launch(l: Loop, id: RequestId): Loop {
    l.(inflight := l.inflight + {id}, log := l.log + [Launched(id)])
  }

  function LaunchAll(l: Loop, ready: seq<RequestId>): Loop {
    if ready == [] then l else Launch(LaunchAll(l, ready[..|ready| - 1]), ready[|ready| - 1])
  }

  /** As many launchable jobs as there are free slots. */
  function Fitting(ready: seq<RequestId>, window: nat, inflight: set<RequestId>): seq<RequestId> {
    var slots := if |inflight| < window then window - |inflight| else 0;
    if slots < |ready| then ready[..slots] else ready
  }

  /** One completed task: recorded and saved, dropped, or the end of the resume. */
  function Settle(l: Loop, id: RequestId, env: Outside): Loop {
    match env.answer(id, l.drops[id])
    case Silent => l.(inflight := l.inflight - {id}, drops := l.drops + multiset{id}, log := l.log + [Dropped(id)])
    case Raises => l.(inflight := {}, log := l.log + [Failed(id)] + [Gathered], outcome := Some(Err(TaskFailed)))
    case Completes(resultSha256, report) =>
      var e := l.doc.(qa := l.doc.qa[id := Judge(id, resultSha256, report)]);
      l.(doc := e, inflight := l.inflight - {id}, log := l.log + [Finished(id)] + [SavedAs(e)])
  }

  /** The tasks one wait returned, in order, up to the first that raises. */
  function SettleAll(l: Loop, done: seq<RequestId>, env: Outside): Loop {
    if done == [] then l
    else
      var before := SettleAll(l, done[..|done| - 1], env);
      if before.outcome.Some? then before else Settle(before, done[|done| - 1], env)
  }

  /** Ends the resume by a save; tasks still in flight are left alone. */
  function EndAs(l: Loop, state: State): Loop {
    var e := l.doc.(state := state);
    l.(doc := e, log := l.log + [SavedAs(e)], outcome := Some(Ok(e)))
  }

  /** Ends the resume by an exception; tasks still in flight are cancelled and awaited. */
  function EndWith(l: Loop, error: RunnerError): Loop {
    l.(inflight := {}, log := l.log + [Gathered], outcome := Some(Err(error)))
  }

  function EndStale(l: Loop): Loop {
    EndWith(EndAs(l, Rejected), StaleQa)
  }

  /** The checks at the top of a turn. */
  function Examined(l: Loop, w: Work, env: Outside): Loop {
    var pending := Pending(w.ordered, l.doc.qa, l.inflight);
    if !AllIntact(l.doc.qa, env.intact(l.turn)) then EndStale(l)
    else if ActiveRefused(l.doc) then EndAs(l, Rejected)
    else if pending == [] && l.inflight == {} then
      if ActiveApproved(l.doc.jobs, l.doc.qa) then EndAs(l, MediaPending) else EndWith(l, NoReusableVerdict)
    else if Blocked(pending, l.doc.qa, w.dependencies) then EndAs(l, Rejected)
    else l
  }

  function ReadyJobs(l: Loop, w: Work): seq<RequestId> {
    Launchable(Pending(w.ordered, l.doc.qa, l.inflight), l.doc.qa, w.dependencies)
  }

  /** Launches into the free slots, waits, and settles what the wait returned. */
  function Worked(l: Loop, w: Work, env: Outside): Loop {
    var launched := LaunchAll(l, Fitting(ReadyJobs(l, w), w.window, l.inflight));
    if launched.inflight == {} then EndWith(launched, UnresolvedDependency)
    else SettleAll(launched.(turn := l.turn + 1), Completed(env.wake(l.turn), launched.inflight), env)
  }

  function Turn(l: Loop, w: Work, env: Outside): Loop {
    var seen := Examined(l, w, env);
    if seen.outcome.Some? then seen else Worked(l, w, env)
  }

  function Begun(start: Document): Loop {
    Loop(start, {}, multiset{}, 0, [], None)
  }

  /** The loop after so many turns, or where it ended before. */
  function After(start: Document, w: Work, env: Outside, turns: nat): Loop {
    if turns == 0 then Begun(start)
    else
      var before := After(start, w, env, turns - 1);
      if before.outcome.Some? then before else Turn(before, w, env)
  }

  // ---------- The invariant ----------

  /** Every verdict was there at the start or is the one the job's first answer gives. */
  ghost predicate RecordedFrom(start: Document, d: Document, env: Outside) {
    && QaGrows(start, d)
    && forall id :: id in d.qa && id !in start.qa ==>
         id in IdSet(start.specs) && FinalAnswer(env, id).Completes? && d.qa[id] == VerdictOf(env, id)
  }

  /** The log accounts for the loop's state, and for every launch. */
  ghost predicate Tracks(start: Document, l: Loop, window: nat) {
    && SafeLog(start, l.log, window)
    && Current(start, l.log) == l.doc
    && InFlight(l.log) == l.inflight
    && Drops(l.log) == l.drops
    && forall id :: Launches(l.log)[id] ==
         l.drops[id] + if id in l.inflight || (id in l.doc.qa && id !in start.qa) then 1 else 0
  }

  /** Every dropped attempt was silent, and every new verdict is the answer of the next attempt. */
  ghost predicate Heard(start: Document, l: Loop, env: Outside) {
    && (forall id, k: nat :: k < l.drops[id] ==> !Answered(env, id, k))
    && forall id :: id in l.doc.qa && id !in start.qa ==> Answered(env, id, l.drops[id])
  }

  /** How often a resume launched each job: once more than the silent attempts. */
  ghost predicate LaunchCounts(start: Document, l: Loop, env: Outside) {
    && (forall id :: EverAnswered(env, id) ==> Launches(l.log)[id] <= FirstAnswer(env, id) + 1)
    && forall id :: id in l.doc.qa && id !in start.qa ==>
         EverAnswered(env, id) && Launches(l.log)[id] == FirstAnswer(env, id) + 1
  }

  /** The resume so far only added verdicts. */
  ghost predicate SameJobs(start: Document, d: Document) {
    d == start.(qa := d.qa, state := d.state)
  }

  /** What holds whenever the loop waits. */
  ghost predicate Scheduling(start: Document, l: Loop, env: Outside, window: nat) {
    && l.outcome.None? && MayWork(l.doc) && SameJobs(start, l.doc)
    && Aligned(l.doc) && Judged(l.doc)
    && RecordedFrom(start, l.doc, env)
    && Tracks(start, l, window) && Heard(start, l, env)
    && forall id :: id in l.inflight ==> MayRecord(l.doc, id)
  }

  /** A document a resume can start from, and the loop's plan for it. */
  ghost predicate Startable(start: Document, w: Work) {
    && MayWork(start) && Judged(start) && SupersededJudged(start)
    && Plan(start, w)
  }

  ghost predicate Plan(d: Document, w: Work) {
    && Aligned(d)
    && Schedules(w.dependencies, w.ordered) && Closed(w.dependencies)
    && w.dependencies.Keys == IdSet(d.specs)
    && forall i :: 0 <= i < |d.specs| ==>
         d.specs[i].requestId in w.dependencies && w.dependencies[d.specs[i].requestId] == DependencySet(d.specs[i])
  }

  lemma PlanOf(d: Document, ordered: seq<RequestId>, window: nat)
    requires Aligned(d) && OrderOf(d.specs) == Ok(ordered)
    ensures Plan(d, Work(ordered, GraphOf(d.specs), window))
  {
    OrderOfSound(d.specs);
    BoundIsClosed(d.specs);
    GraphKeys(d.specs);
    forall i | 0 <= i < |d.specs|
      ensures d.specs[i].requestId in GraphOf(d.specs)
      ensures GraphOf(d.specs)[d.specs[i].requestId] == DependencySet(d.specs[i])
    {
      GraphAt(d.specs, i);
    }
  }

  lemma BegunIsScheduling(start: Document, w: Work, env: Outside)
    requires Startable(start, w)
    ensures Scheduling(start, Begun(start), env, w.window)
  {
  }

  lemma FreeSlots(start: Document, l: Loop, env: Outside, window: nat)
    requires Scheduling(start, l, env, window)
    ensures |l.inflight| <= window
  {
    WindowIsRespected(start, l.log, window);
  }

  // ---------- Launching ----------

  lemma LaunchKeepsTracks(start: Document, l: Loop, window: nat, id: RequestId)
    requires Tracks(start, l, window) && MayRecord(l.doc, id) && id !in l.inflight && |l.inflight| < window
    ensures Tracks(start, Launch(l, id), window)
  {
    SafeAppend(start, l.log, Launched(id), window);
    LogAppend(start, l.log, Launched(id));
  }

  lemma LaunchKeepsScheduling(start: Document, l: Loop, env: Outside, window: nat, id: RequestId)
    requires Scheduling(start, l, env, window)
    requires MayRecord(l.doc, id) && id !in l.inflight && |l.inflight| < window
    ensures Scheduling(start, Launch(l, id), env, window)
  {
    hide RecordedFrom, Aligned, Judged, Tracks, MayRecord;
    LaunchKeepsTracks(start, l, window, id);
  }

  function Members(q: seq<RequestId>): set<RequestId> {
    set id | id in q
  }

  lemma OneMore(before: set<RequestId>, q: seq<RequestId>)
    requires q != [] && Distinct(q) && q[|q| - 1] !in before
    ensures var n := |q| - 1;
      && Distinct(q[..n]) && q[n] !in before + Members(q[..n])
      && before + Members(q) == before + Members(q[..n]) + {q[n]}
      && |before + Members(q)| == |before + Members(q[..n])| + 1
  {
    var n := |q| - 1;
    assert q == q[..n] + [q[n]];
    assert Members(q) == Members(q[..n]) + {q[n]};
    assert before + Members(q) == before + Members(q[..n]) + {q[n]};
  }

  lemma OneLess(before: set<RequestId>, q: seq<RequestId>)
    requires q != [] && Distinct(q) && forall id :: id in q ==> id in before
    ensures var n := |q| - 1;
      && Distinct(q[..n]) && (forall id :: id in q[..n] ==> id in before) && q[n] in before - Members(q[..n])
      && before - Members(q) == before - Members(q[..n]) - {q[n]}
  {
    var n := |q| - 1;
    assert q == q[..n] + [q[n]];
    assert Members(q) == Members(q[..n]) + {q[n]};
  }

  lemma {:induction false} LaunchAllKeepsScheduling(start: Document, l: Loop, env: Outside, window: nat, ready: seq<RequestId>)
    requires Scheduling(start, l, env, window)
    requires Distinct(ready) && (forall id :: id in ready ==> MayRecord(l.doc, id) && id !in l.inflight)
    requires |l.inflight| + |ready| <= window
    ensures var r := LaunchAll(l, ready);
      && Scheduling(start, r, env, window)
      && r.doc == l.doc && r.drops == l.drops && r.turn == l.turn
      && r.inflight == l.inflight + Members(ready) && |r.inflight| == |l.inflight| + |ready|
    decreases |ready|
  {
    hide Scheduling, MayRecord;
    if ready != [] {
      OneMore(l.inflight, ready);
      assert forall id :: id in ready[..|ready| - 1] ==> id in ready;
      LaunchAllKeepsScheduling(start, l, env, window, ready[..|ready| - 1]);
      LaunchKeepsScheduling(start, LaunchAll(l, ready[..|ready| - 1]), env, window, ready[|ready| - 1]);
    }
  }

  // ---------- Settling ----------

  lemma DropKeepsTracks(start: Document, l: Loop, window: nat, id: RequestId)
    requires Tracks(start, l, window) && id in l.inflight && id !in l.doc.qa
    ensures Tracks(start, l.(inflight := l.inflight - {id}, drops := l.drops + multiset{id}, log := l.log + [Dropped(id)]),
                   window)
  {
    SafeAppend(start, l.log, Dropped(id), window);
    LogAppend(start, l.log, Dropped(id));
  }

  /** A dropped task leaves everything as it was before the launch. */
  lemma DropKeepsScheduling(start: Document, l: Loop, env: Outside, window: nat, id: RequestId)
    requires Scheduling(start, l, env, window) && id in l.inflight && env.answer(id, l.drops[id]).Silent?
    ensures Scheduling(start, Settle(l, id, env), env, window)
  {
    hide RecordedFrom, Aligned, Judged, Tracks;
    DropKeepsTracks(start, l, window, id);
  }

  lemma RecordKeepsTracks(start: Document, l: Loop, window: nat, id: RequestId, e: Document)
    requires Tracks(start, l, window) && id in l.inflight && id !in l.doc.qa && l.doc.qa.Keys >= start.qa.Keys
    requires e.jobs == l.doc.jobs && e.specs == l.doc.specs && e.state != MediaPending && QaGrows(l.doc, e)
    requires e.qa.Keys == l.doc.qa.Keys + {id}
    ensures Tracks(start, l.(doc := e, inflight := l.inflight - {id}, log := l.log + [Finished(id)] + [SavedAs(e)]), window)
  {
    SafeAppend(start, l.log, Finished(id), window);
    LogAppend(start, l.log, Finished(id));
    SafeAppend(start, l.log + [Finished(id)], SavedAs(e), window);
    LogAppend(start, l.log + [Finished(id)], SavedAs(e));
  }

  /** A job's verdict changes nothing for the other tasks in flight. */
  lemma OthersMayStillRecord(d: Document, id: RequestId, v: Verdict, other: RequestId)
    requires MayRecord(d, id) && MayRecord(d, other) && other != id
    ensures MayRecord(d.(qa := d.qa[id := v]), other)
  {
  }

  lemma VerdictKeepsJudged(d: Document, id: RequestId, v: Verdict)
    requires Aligned(d) && Judged(d) && MayRecord(d, id) && Independent(v)
    ensures Aligned(d.(qa := d.qa[id := v])) && Judged(d.(qa := d.qa[id := v]))
  {
    RecordKeepsJudged(d, IndexOf(d.specs, id), v);
  }

  lemma AnswerIsFirst(start: Document, l: Loop, env: Outside, id: RequestId)
    requires Heard(start, l, env) && Answered(env, id, l.drops[id])
    ensures EverAnswered(env, id) && FirstAnswer(env, id) == l.drops[id]
    ensures FinalAnswer(env, id) == env.answer(id, l.drops[id])
  {
    FirstAnswerIs(env, id, l.drops[id]);
  }

  lemma RecordKeepsFrom(start: Document, l: Loop, env: Outside, id: RequestId)
    requires RecordedFrom(start, l.doc, env) && Heard(start, l, env) && id !in l.doc.qa && id in IdSet(start.specs)
    requires env.answer(id, l.drops[id]).Completes?
    ensures RecordedFrom(start, Settle(l, id, env).doc, env) && Heard(start, Settle(l, id, env), env)
  {
    hide Judge, EverAnswered, FirstAnswer;
    AnswerIsFirst(start, l, env, id);
  }

  lemma RecordKeepsMay(l: Loop, id: RequestId, v: Verdict)
    requires (forall other :: other in l.inflight ==> MayRecord(l.doc, other)) && id in l.inflight
    ensures forall other :: other in l.inflight - {id} ==> MayRecord(l.doc.(qa := l.doc.qa[id := v]), other)
  {
    forall other | other in l.inflight - {id} ensures MayRecord(l.doc.(qa := l.doc.qa[id := v]), other) {
      OthersMayStillRecord(l.doc, id, v, other);
    }
  }

  lemma RecordKeepsScheduling(start: Document, l: Loop, env: Outside, window: nat, id: RequestId)
    requires Scheduling(start, l, env, window) && id in l.inflight && env.answer(id, l.drops[id]).Completes?
    ensures Scheduling(start, Settle(l, id, env), env, window)
  {
    hide Judged, Aligned, Tracks, Judge, RecordedFrom, Heard;
    var answer := env.answer(id, l.drops[id]);
    var v := Judge(id, answer.resultSha256, answer.report);
    VerdictIsIndependent(id, answer.resultSha256, answer.report);
    VerdictKeepsJudged(l.doc, id, v);
    RecordKeepsMay(l, id, v);
    InFlightIsJob(start, l, env, window, id);
    RecordKeepsFrom(start, l, env, id);
    QaIncludesStart(start, l, env, window);
    RecordKeepsTracks(start, l, window, id, l.doc.(qa := l.doc.qa[id := v]));
  }

  lemma InFlightIsJob(start: Document, l: Loop, env: Outside, window: nat, id: RequestId)
    requires Scheduling(start, l, env, window) && id in l.inflight
    ensures id in IdSet(start.specs) && id !in l.doc.qa
  {
    assert Ids(l.doc.specs)[IndexOf(l.doc.specs, id)] == id;
  }

  lemma QaIncludesStart(start: Document, l: Loop, env: Outside, window: nat)
    requires Scheduling(start, l, env, window)
    ensures l.doc.qa.Keys >= start.qa.Keys
  {
  }

  // ---------- The end ----------

  /** The jobs and the verdicts the outside will give allow every job to be approved. */
  ghost predicate Clear(d: Document, env: Outside)
    requires |d.jobs| == |d.specs|
  {
    forall i :: 0 <= i < |d.specs| ==>
      var id := d.specs[i].requestId;
      if id in d.qa then d.jobs[i].supersededBy.None? ==> Approved(d.qa, id)
      else Passes(env, id) && !HasRefused(d.qa, DependencySet(d.specs[i]))
  }

  ghost function FinalQa(d: Document, env: Outside): map<RequestId, Verdict> {
    map id | id in d.qa.Keys + IdSet(d.specs) :: if id in d.qa then d.qa[id] else VerdictOf(env, id)
  }

  /** A job of the episode without a verdict whose task raises. */
  ghost predicate SomeRaises(d: Document, env: Outside) {
    exists i :: 0 <= i < |d.specs| && d.specs[i].requestId !in d.qa && FinalAnswer(env, d.specs[i].requestId).Raises?
  }

  /** Every active job was approved: the verdicts are those the outside gives, every approved
      artifact was found intact by the last look, and nothing is in flight. */
  ghost predicate EndedComplete(start: Document, l: Loop, env: Outside) {
    && l.doc == start.(state := MediaPending, qa := FinalQa(start, env))
    && AllIntact(l.doc.qa, env.intact(l.turn)) && l.inflight == {}
  }

  /** A refusal that the saved document shows; the other tasks are still in flight. */
  ghost predicate EndedRefused(start: Document, l: Loop, env: Outside) {
    l.doc.state == Rejected && SameJobs(start, l.doc) && RecordedFrom(start, l.doc, env) && RefusalSeen(l.doc)
  }

  /** An approved artifact was found changed; nothing stays in flight. */
  ghost predicate EndedStale(start: Document, l: Loop, env: Outside) {
    && l.doc.state == Rejected && SameJobs(start, l.doc) && RecordedFrom(start, l.doc, env)
    && !AllIntact(l.doc.qa, env.intact(l.turn)) && InFlight(l.log) == {}
  }

  /** A task raised; nothing stays in flight, and the episode is still running. */
  ghost predicate EndedRaised(start: Document, l: Loop, env: Outside) {
    && l.doc.state == Running && SameJobs(start, l.doc) && RecordedFrom(start, l.doc, env)
    && SomeRaises(l.doc, env) && InFlight(l.log) == {}
  }

  /** How a resume of `start` ends: complete exactly when that was possible at all, refused
      otherwise, or with an error that the outside caused. The two internal errors of the loop
      are not among the ends. */
  ghost predicate Ended(start: Document, l: Loop, env: Outside)
    requires |start.jobs| == |start.specs|
  {
    && l.outcome.Some?
    && match l.outcome.value
       case Ok(e) =>
         && e == l.doc && InFlight(l.log) == l.inflight
         && if Clear(start, env) then EndedComplete(start, l, env) else EndedRefused(start, l, env)
       case Err(StaleQa) => EndedStale(start, l, env)
       case Err(TaskFailed) => EndedRaised(start, l, env)
       case Err(_) => false
  }

  /** What the log of a resume tells, ended or not. */
  ghost predicate Logged(start: Document, l: Loop, env: Outside, window: nat) {
    SafeLog(start, l.log, window) && LaunchCounts(start, l, env) && Current(start, l.log) == l.doc
  }

  lemma SchedulingIsLogged(start: Document, l: Loop, env: Outside, window: nat)
    requires Scheduling(start, l, env, window)
    ensures Logged(start, l, env, window)
  {
    hide SafeLog, Judged, Aligned, RecordedFrom, MayRecord;
    forall id | EverAnswered(env, id) ensures l.drops[id] <= FirstAnswer(env, id) {
      assert Answered(env, id, FirstAnswer(env, id));
    }
    forall id | id in l.doc.qa && id !in start.qa ensures EverAnswered(env, id) && FirstAnswer(env, id) == l.drops[id] {
      AnswerIsFirst(start, l, env, id);
    }
  }

  lemma RaiseEnds(start: Document, l: Loop, env: Outside, window: nat, id: RequestId)
    requires |start.jobs| == |start.specs|
    requires Scheduling(start, l, env, window) && id in l.inflight && env.answer(id, l.drops[id]).Raises?
    ensures Ended(start, Settle(l, id, env), env) && Logged(start, Settle(l, id, env), env, window)
  {
    SchedulingIsLogged(start, l, env, window);
    AnswerIsFirst(start, l, env, id);
    assert l.doc.specs[IndexOf(l.doc.specs, id)].requestId == id;
    RaiseIsLogged(start, l, env, window, id);
  }

  lemma RaiseIsLogged(start: Document, l: Loop, env: Outside, window: nat, id: RequestId)
    requires Logged(start, l, env, window) && id in InFlight(l.log)
    ensures var r := l.(inflight := {}, log := l.log + [Failed(id)] + [Gathered], outcome := Some(Err(TaskFailed)));
      Logged(start, r, env, window) && InFlight(r.log) == {}
  {
    SafeAppend(start, l.log, Failed(id), window);
    LogAppend(start, l.log, Failed(id));
    SafeAppend(start, l.log + [Failed(id)], Gathered, window);
    LogAppend(start, l.log + [Failed(id)], Gathered);
  }

  /** A save that ends the resume is logged like any other. */
  lemma EndIsLogged(start: Document, l: Loop, env: Outside, window: nat, state: State)
    requires Logged(start, l, env, window)
    requires state == MediaPending ==>
      InFlight(l.log) == {} && AllJudged(l.doc.specs, l.doc.qa) && ActiveApproved(l.doc.jobs, l.doc.qa)
    ensures Logged(start, EndAs(l, state), env, window)
    ensures InFlight(EndAs(l, state).log) == InFlight(l.log)
  {
    hide AllJudged, ActiveApproved;
    SafeAppend(start, l.log, SavedAs(EndAs(l, state).doc), window);
    LogAppend(start, l.log, SavedAs(EndAs(l, state).doc));
  }

  lemma ErrorIsLogged(start: Document, l: Loop, env: Outside, window: nat, error: RunnerError)
    requires Logged(start, l, env, window)
    ensures Logged(start, EndWith(l, error), env, window) && InFlight(EndWith(l, error).log) == {}
  {
    SafeAppend(start, l.log, Gathered, window);
    LogAppend(start, l.log, Gathered);
  }

  lemma {:induction false} SettleAllKeeps(start: Document, l: Loop, env: Outside, window: nat, done: seq<RequestId>)
    requires Scheduling(start, l, env, window) && |start.jobs| == |start.specs|
    requires Distinct(done) && forall id :: id in done ==> id in l.inflight
    ensures var r := SettleAll(l, done, env);
      && r.turn == l.turn
      && (r.outcome.None? ==> Scheduling(start, r, env, window) && r.inflight == l.inflight - Members(done))
      && (r.outcome.Some? ==> r.outcome.value == Err(TaskFailed))
      && (r.outcome.Some? ==> Ended(start, r, env) && Logged(start, r, env, window))
    decreases |done|
  {
    hide Scheduling, Ended, Logged, Settle, Distinct;
    if done == [] {
      assert l.outcome.None? by {
        SchedulingHasNoOutcome(start, l, env, window);
      }
    } else {
      var n := |done| - 1;
      OneLess(l.inflight, done);
      SettleAllKeeps(start, l, env, window, done[..n]);
      var before := SettleAll(l, done[..n], env);
      if before.outcome.None? {
        SettleKeeps(start, before, env, window, done[n]);
      }
    }
  }

  lemma SchedulingHasNoOutcome(start: Document, l: Loop, env: Outside, window: nat)
    requires Scheduling(start, l, env, window)
    ensures l.outcome.None? && MayWork(l.doc)
  {
  }

  lemma SettleKeeps(start: Document, l: Loop, env: Outside, window: nat, id: RequestId)
    requires Scheduling(start, l, env, window) && |start.jobs| == |start.specs| && id in l.inflight
    ensures var r := Settle(l, id, env);
      && r.turn == l.turn
      && (r.outcome.None? ==> Scheduling(start, r, env, window) && r.inflight == l.inflight - {id})
      && (r.outcome.Some? ==> r.outcome.value == Err(TaskFailed))
      && (r.outcome.Some? ==> Ended(start, r, env) && Logged(start, r, env, window))
  {
    assert l.outcome.None?;
    hide Scheduling, Ended, Logged;
    match env.answer(id, l.drops[id])
    case Silent => DropKeepsScheduling(start, l, env, window, id);
    case Raises => RaiseEnds(start, l, env, window, id);
    case Completes(_, _) => RecordKeepsScheduling(start, l, env, window, id);
  }

  // ---------- The outcome does not depend on the schedule ----------

  /** A refused active job, or a job without a verdict behind a refused one, was unavoidable. */
  lemma RefusalWasUnavoidable(start: Document, d: Document, env: Outside)
    requires Aligned(start) && SameJobs(start, d) && RecordedFrom(start, d, env)
    requires forall id :: id in d.qa ==> IndexOf(d.specs, id) < |d.specs|
    requires RefusalSeen(d)
    ensures !Clear(start, env)
  {
    hide VerdictOf, FinalAnswer;
    if !ActiveRefused(d) {
      var i :| 0 <= i < |d.specs| && d.specs[i].requestId !in d.qa && HasRefused(d.qa, DependencySet(d.specs[i]));
      var dep :| dep in DependencySet(d.specs[i]) && Refused(d.qa, dep);
      var k := IndexOf(d.specs, dep);
      assert start.specs[k].requestId == dep;
      assert start.specs[i].requestId !in start.qa;
      if dep in start.qa {
        assert HasRefused(start.qa, DependencySet(start.specs[i]));
      }
    } else {
      var i :| 0 <= i < |d.jobs| && d.jobs[i].supersededBy.None? && Refused(d.qa, d.jobs[i].requestId);
      assert start.specs[i].requestId == d.jobs[i].requestId;
    }
  }

  /** Reaching the media state means the run was clear from the start. */
  lemma CompletionWasClear(start: Document, d: Document, env: Outside)
    requires Aligned(start) && SupersededJudged(start) && SameJobs(start, d) && RecordedFrom(start, d, env) && Judged(d)
    requires AllJudged(d.specs, d.qa) && ActiveApproved(d.jobs, d.qa)
    ensures Clear(start, env)
  {
    hide VerdictOf, FinalAnswer;
    forall i | 0 <= i < |d.specs| && d.specs[i].requestId !in start.qa
      ensures Passes(env, d.specs[i].requestId) && !HasRefused(start.qa, DependencySet(d.specs[i]))
    {
      assert d.jobs[i].supersededBy.None?;
      assert AllApproved(d.qa, DependencySet(d.specs[i]));
    }
  }

  lemma CompletionFixesVerdicts(start: Document, d: Document, env: Outside)
    requires SameJobs(start, d) && RecordedFrom(start, d, env) && AllJudged(d.specs, d.qa)
    requires forall id :: id in d.qa ==> IndexOf(d.specs, id) < |d.specs|
    ensures d.qa == FinalQa(start, env)
  {
    hide VerdictOf, FinalAnswer;
    forall id | id in d.qa ensures id in start.qa || id in IdSet(start.specs) {
      assert Ids(d.specs)[IndexOf(d.specs, id)] == id;
    }
    forall id | id in IdSet(start.specs) ensures id in d.qa {
      var i :| 0 <= i < |d.specs| && Ids(d.specs)[i] == id;
    }
  }

  // ---------- One look at the saved document ----------

  lemma PlannedIndex(d: Document, w: Work, id: RequestId) returns (i: nat)
    requires Plan(d, w) && id in w.ordered
    ensures i < |d.specs| && d.specs[i].requestId == id && i == IndexOf(d.specs, id)
    ensures DependenciesOf(w.dependencies, id) == DependencySet(d.specs[i])
  {
    assert id in IdSet(d.specs);
    i :| 0 <= i < |d.specs| && Ids(d.specs)[i] == id;
    var k := IndexOf(d.specs, id);
    assert Ids(d.specs)[k] == Ids(d.specs)[i];
  }

  /** The launchable jobs may indeed be launched, and some job is launchable when nothing is
      in flight, something is pending and nothing is blocked. */
  lemma ReadyIsSafe(l: Loop, w: Work)
    requires Plan(l.doc, w) && !Blocked(Pending(w.ordered, l.doc.qa, l.inflight), l.doc.qa, w.dependencies)
    ensures Distinct(ReadyJobs(l, w))
    ensures forall id :: id in ReadyJobs(l, w) ==> MayRecord(l.doc, id) && id !in l.inflight
    ensures l.inflight == {} && Pending(w.ordered, l.doc.qa, l.inflight) != [] ==> ReadyJobs(l, w) != []
  {
    hide Blocked;
    PendingLists(w.ordered, l.doc.qa, l.inflight);
    LaunchableLists(Pending(w.ordered, l.doc.qa, l.inflight), l.doc.qa, w.dependencies);
    forall id | id in ReadyJobs(l, w) ensures MayRecord(l.doc, id) {
      var i := PlannedIndex(l.doc, w, id);
    }
    if l.inflight == {} && Pending(w.ordered, l.doc.qa, l.inflight) != [] {
      SomethingLaunches(w.ordered, l.doc.qa, w.dependencies);
    }
  }

  lemma NothingPending(d: Document, w: Work)
    requires Plan(d, w) && Pending(w.ordered, d.qa, {}) == []
    ensures AllJudged(d.specs, d.qa)
  {
    PendingLists(w.ordered, d.qa, {});
    forall i | 0 <= i < |d.specs| ensures d.specs[i].requestId in d.qa {
      assert d.specs[i].requestId in w.ordered;
      assert d.specs[i].requestId !in Pending(w.ordered, d.qa, {});
    }
  }

  /** With every job judged and no active one refused, every active one is approved, so the
      first internal error of the loop cannot happen. */
  lemma ActiveWereApproved(d: Document)
    requires Aligned(d) && AllJudged(d.specs, d.qa) && !ActiveRefused(d)
    ensures ActiveApproved(d.jobs, d.qa)
  {
  }

  lemma BlockedIsSeen(d: Document, w: Work, inflight: set<RequestId>)
    requires Plan(d, w) && Blocked(Pending(w.ordered, d.qa, inflight), d.qa, w.dependencies)
    ensures RefusalSeen(d)
  {
    var pending := Pending(w.ordered, d.qa, inflight);
    var n :| 0 <= n < |pending| && HasRefused(d.qa, DependenciesOf(w.dependencies, pending[n]));
    PendingLists(w.ordered, d.qa, inflight);
    assert pending[n] in pending;
    var i := PlannedIndex(d, w, pending[n]);
  }

  /** The plan of the start is the plan of every document of the resume. */
  lemma PlanStays(start: Document, d: Document, w: Work)
    requires Plan(start, w) && SameJobs(start, d) && Aligned(d)
    ensures Plan(d, w)
  {
    hide Schedules, Closed, DependencySet;
  }

  lemma StaleKeeps(start: Document, l: Loop, env: Outside)
    requires SameJobs(start, l.doc) && RecordedFrom(start, l.doc, env)
    requires !AllIntact(l.doc.qa, env.intact(l.turn)) && InFlight(EndStale(l).log) == {}
    ensures EndedStale(start, EndStale(l), env)
  {
    hide VerdictOf, FinalAnswer, InFlight;
  }

  lemma StaleEnds(start: Document, l: Loop, env: Outside, window: nat)
    requires Scheduling(start, l, env, window) && |start.jobs| == |start.specs|
    requires !AllIntact(l.doc.qa, env.intact(l.turn))
    ensures Ended(start, EndStale(l), env) && Logged(start, EndStale(l), env, window)
  {
    hide Scheduling, Logged, EndedComplete, EndedStale, EndedRaised, EndedRefused, Clear, AllIntact, RecordedFrom, Judged,
      InFlight, Aligned;
    SchedulingIsLogged(start, l, env, window);
    SchedulingTracks(start, l, env, window);
    EndIsLogged(start, l, env, window, Rejected);
    ErrorIsLogged(start, EndAs(l, Rejected), env, window, StaleQa);
    StaleKeeps(start, l, env);
  }

  lemma RejectedKeeps(start: Document, l: Loop, env: Outside)
    requires SameJobs(start, l.doc) && RecordedFrom(start, l.doc, env) && RefusalSeen(l.doc)
    ensures EndedRefused(start, EndAs(l, Rejected), env)
  {
    hide VerdictOf, FinalAnswer, HasRefused, DependencySet, Refused;
    var d := l.doc.(state := Rejected);
    assert ActiveRefused(d) == ActiveRefused(l.doc);
  }

  lemma RefusalEnds(start: Document, l: Loop, env: Outside, window: nat)
    requires Scheduling(start, l, env, window) && Aligned(start) && RefusalSeen(l.doc)
    ensures Ended(start, EndAs(l, Rejected), env) && Logged(start, EndAs(l, Rejected), env, window)
  {
    hide Scheduling, Logged, EndedComplete, EndedStale, EndedRaised, EndedRefused, Clear, RefusalSeen, RecordedFrom, Judged;
    SchedulingIsLogged(start, l, env, window);
    SchedulingTracks(start, l, env, window);
    NotClear(start, l, env);
    EndIsLogged(start, l, env, window, Rejected);
    RejectedKeeps(start, l, env);
  }

  lemma NotClear(start: Document, l: Loop, env: Outside)
    requires Aligned(start) && SameJobs(start, l.doc) && RecordedFrom(start, l.doc, env) && Judged(l.doc) && RefusalSeen(l.doc)
    ensures !Clear(start, env)
  {
    hide Clear, RefusalSeen, RecordedFrom;
    RefusalWasUnavoidable(start, l.doc, env);
  }

  lemma SchedulingTracks(start: Document, l: Loop, env: Outside, window: nat)
    requires Scheduling(start, l, env, window)
    ensures InFlight(l.log) == l.inflight && MayWork(l.doc)
    ensures SameJobs(start, l.doc) && Aligned(l.doc) && Judged(l.doc) && RecordedFrom(start, l.doc, env)
  {
  }

  lemma CompletionEnds(start: Document, l: Loop, w: Work, env: Outside)
    requires Scheduling(start, l, env, w.window) && Startable(start, w)
    requires AllIntact(l.doc.qa, env.intact(l.turn)) && l.inflight == {}
    requires AllJudged(l.doc.specs, l.doc.qa) && ActiveApproved(l.doc.jobs, l.doc.qa)
    ensures Ended(start, EndAs(l, MediaPending), env) && Logged(start, EndAs(l, MediaPending), env, w.window)
  {
    CompletionWasClear(start, l.doc, env);
    CompletionFixesVerdicts(start, l.doc, env);
    hide SafeLog, LaunchCounts, Plan, Judged, Aligned, RecordedFrom, AllJudged, ActiveApproved, Clear, FinalQa;
    SchedulingIsLogged(start, l, env, w.window);
    EndIsLogged(start, l, env, w.window, MediaPending);
  }

  /** The checks at the top of a turn end the resume rightly, or leave launchable jobs. */
  lemma ExaminedKeeps(start: Document, l: Loop, w: Work, env: Outside)
    requires Scheduling(start, l, env, w.window) && Startable(start, w)
    ensures |start.jobs| == |start.specs|
    ensures var r := Examined(l, w, env);
      && (r.outcome.Some? ==> Ended(start, r, env) && Logged(start, r, env, w.window))
      && (r.outcome.None? ==>
            && r == l && Distinct(ReadyJobs(l, w))
            && (forall id :: id in ReadyJobs(l, w) ==> MayRecord(l.doc, id) && id !in l.inflight)
            && (l.inflight == {} ==> ReadyJobs(l, w) != []))
  {
    SchedulingTracks(start, l, env, w.window);
    SchedulingHasNoOutcome(start, l, env, w.window);
    PlanStays(start, l.doc, w);
    hide Scheduling, Ended, Logged, Plan, SafeLog, Judged, SupersededJudged, MayRecord, Blocked, AllIntact, ActiveRefused,
      ActiveApproved, RefusalSeen;
    var pending := Pending(w.ordered, l.doc.qa, l.inflight);
    if !AllIntact(l.doc.qa, env.intact(l.turn)) {
      StaleEnds(start, l, env, w.window);
    } else if ActiveRefused(l.doc) {
      ActiveIsSeen(l.doc);
      RefusalEnds(start, l, env, w.window);
    } else if pending == [] && l.inflight == {} {
      NothingPending(l.doc, w);
      ActiveWereApproved(l.doc);
      CompletionEnds(start, l, w, env);
    } else if Blocked(pending, l.doc.qa, w.dependencies) {
      BlockedIsSeen(l.doc, w, l.inflight);
      RefusalEnds(start, l, env, w.window);
    } else {
      ReadyIsSafe(l, w);
    }
  }

  lemma ActiveIsSeen(d: Document)
    requires ActiveRefused(d)
    ensures RefusalSeen(d)
  {
  }

  // ---------- Any number of turns ----------

  ghost predicate Good(start: Document, l: Loop, w: Work, env: Outside)
    requires |start.jobs| == |start.specs|
  {
    if l.outcome.None? then Scheduling(start, l, env, w.window) else Ended(start, l, env) && Logged(start, l, env, w.window)
  }

  /** A turn that does not end at once launches something or waits for something. */
  lemma LaunchesFit(start: Document, l: Loop, w: Work, env: Outside) returns (launched: Loop)
    requires Scheduling(start, l, env, w.window) && Startable(start, w) && w.window > 0
    requires Examined(l, w, env).outcome.None?
    ensures launched == LaunchAll(l, Fitting(ReadyJobs(l, w), w.window, l.inflight)) && launched.inflight != {}
    ensures Scheduling(start, launched, env, w.window)
    ensures launched.turn == l.turn && launched.drops == l.drops && launched.doc == l.doc
    ensures launched.inflight == l.inflight + Members(Fitting(ReadyJobs(l, w), w.window, l.inflight))
  {
    hide Scheduling, MayRecord, Startable, Examined, ReadyJobs, Ended, Logged;
    ExaminedKeeps(start, l, w, env);
    FreeSlots(start, l, env, w.window);
    var fitting := Fitting(ReadyJobs(l, w), w.window, l.inflight);
    assert forall id :: id in fitting ==> id in ReadyJobs(l, w);
    LaunchAllKeepsScheduling(start, l, env, w.window, fitting);
    launched := LaunchAll(l, fitting);
    if l.inflight == {} {
      assert fitting[0] in Members(fitting);
    }
  }

  lemma NextTurnIsScheduling(start: Document, l: Loop, env: Outside, window: nat)
    requires Scheduling(start, l, env, window)
    ensures Scheduling(start, l.(turn := l.turn + 1), env, window)
  {
    hide SafeLog, MayRecord, RecordedFrom, Judged, Aligned;
  }

  lemma WorkedIsGood(start: Document, l: Loop, w: Work, env: Outside)
    requires Scheduling(start, l, env, w.window) && Startable(start, w) && w.window > 0
    requires |start.jobs| == |start.specs|
    requires Examined(l, w, env).outcome.None?
    ensures Good(start, Worked(l, w, env), w, env) && Worked(l, w, env).turn == l.turn + 1
  {
    hide Scheduling, Ended, Logged, Startable, Examined, LaunchAll, ReadyJobs, Fitting, Distinct, SettleAll, Completed, Members;
    var launched := LaunchesFit(start, l, w, env);
    NextTurnIsScheduling(start, launched, env, w.window);
    SettleAllKeeps(start, launched.(turn := l.turn + 1), env, w.window, Completed(env.wake(l.turn), launched.inflight));
  }

  lemma TurnIsGood(start: Document, l: Loop, w: Work, env: Outside)
    requires Scheduling(start, l, env, w.window) && Startable(start, w) && w.window > 0
    ensures |start.jobs| == |start.specs| && Good(start, Turn(l, w, env), w, env)
    ensures Turn(l, w, env).outcome.None? ==> Turn(l, w, env).turn == l.turn + 1
  {
    hide Scheduling, Ended, Logged, Startable, Examined, Worked, Distinct, MayRecord, ReadyJobs;
    ExaminedKeeps(start, l, w, env);
    if Examined(l, w, env).outcome.None? {
      WorkedIsGood(start, l, w, env);
    }
  }
}
