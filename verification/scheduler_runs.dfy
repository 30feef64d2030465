/** What holds of a resume after any number of turns of its scheduling loop. */
module SchedulerRuns {
  import opened Wrappers
  import opened SortedSets
  import opened Artifacts
  import opened Texts
  import opened JobGraph
  import opened RunnerModel
  import opened RunnerInvariants
  import opened SchedulerModel
  import opened SchedulerLoop

  /** After any number of turns the loop is as it should be: waiting with everything accounted
      for, or ended for one of the reasons of `Ended`. */
  lemma {:induction false} AfterIsGood(start: Document, w: Work, env: Outside, turns: nat)
    requires Startable(start, w) && w.window > 0
    ensures |start.jobs| == |start.specs| && Good(start, After(start, w, env, turns), w, env)
    ensures After(start, w, env, turns).outcome.None? ==> After(start, w, env, turns).turn == turns
  {
    hide Scheduling, Ended, Logged, Startable, Turn;
    if turns == 0 {
      BegunIsScheduling(start, w, env);
      StartLengths(start, w);
    } else {
      AfterIsGood(start, w, env, turns - 1);
      if After(start, w, env, turns - 1).outcome.None? {
        TurnIsGood(start, After(start, w, env, turns - 1), w, env);
      }
    }
  }

  lemma StartLengths(start: Document, w: Work)
    requires Startable(start, w)
    ensures |start.jobs| == |start.specs|
  {
  }

  // ---------- What a recorded verdict says ----------

  /** The report is about this job and these bytes, and comes from someone other than the
      generator. */
  predicate ValidReport(report: Option<Report>, id: RequestId, resultSha256: Sha256) {
    && report.Some?
    && report.value.requestId == id && report.value.resultSha256 == resultSha256
    && !Blank(report.value.subject) && !Blank(report.value.issuer) && report.value.subject != "generator"
  }

  /** After any number of turns: a job that the resume gave a verdict is approved if and only if
      its first answer was a valid report that says so and names a reviewer. The approval then
      holds the hash of that result and the names of that report. A valid refusal keeps its
      codes, and anything else is a contract violation. */
  lemma VerdictIsTheAnswer(start: Document, w: Work, env: Outside, turns: nat, id: RequestId)
    requires Startable(start, w) && w.window > 0
    requires var d := After(start, w, env, turns).doc; id in d.qa && id !in start.qa
    ensures EverAnswered(env, id)
    ensures var verdict := After(start, w, env, turns).doc.qa[id];
      var answer := env.answer(id, FirstAnswer(env, id));
      && answer.Completes?
      && (verdict.Pass? <==>
            && ValidReport(answer.report, id, answer.resultSha256)
            && answer.report.value.approved && !Blank(answer.report.value.reviewer))
      && (verdict.Pass? ==>
            verdict == Pass(answer.resultSha256, answer.report.value.reviewer, answer.report.value.subject,
                            answer.report.value.issuer))
      && (ValidReport(answer.report, id, answer.resultSha256) && answer.report.value.codes.Some? && verdict.Fail? ==>
            verdict.codes == answer.report.value.codes.value)
      && (ValidReport(answer.report, id, answer.resultSha256) && answer.report.value.codes.None? && verdict.Fail? ==>
            verdict.codes == ["QA_FAIL"])
      && (!ValidReport(answer.report, id, answer.resultSha256) ==> verdict == Fail(["QA_CONTRACT_INVALID"]))
  {
    hide Startable, After, Tracks, Heard, MayRecord, Judged, EndedComplete, SafeLog, LaunchCounts;
    AfterIsGood(start, w, env, turns);
    RecordedAnswer(start, After(start, w, env, turns), w, env, id);
  }

  /** Every good loop holds only verdicts of the start and verdicts of first answers. */
  lemma RecordedAnswer(start: Document, l: Loop, w: Work, env: Outside, id: RequestId)
    requires |start.jobs| == |start.specs| && Good(start, l, w, env) && id in l.doc.qa && id !in start.qa
    ensures FinalAnswer(env, id).Completes? && l.doc.qa[id] == VerdictOf(env, id)
  {
  }

  // ---------- The loop ends when every job is answered ----------

  /** Every job without a verdict is answered at some attempt. */
  ghost predicate AllAnswered(start: Document, env: Outside) {
    forall id :: id in IdSet(start.specs) && id !in start.qa ==> EverAnswered(env, id)
  }

  /** The attempts at one job that are still to come. */
  ghost function Left(l: Loop, env: Outside, id: RequestId): nat {
    if id in l.doc.qa || !EverAnswered(env, id) || FirstAnswer(env, id) < l.drops[id] then 0
    else FirstAnswer(env, id) + 1 - l.drops[id]
  }

  ghost function Remaining(specs: seq<Job>, l: Loop, env: Outside): nat {
    if specs == [] then 0 else Remaining(specs[..|specs| - 1], l, env) + Left(l, env, specs[|specs| - 1].requestId)
  }

  lemma {:induction false} NoMoreRemains(specs: seq<Job>, l: Loop, l': Loop, env: Outside)
    requires forall x :: Left(l', env, x) <= Left(l, env, x)
    ensures Remaining(specs, l', env) <= Remaining(specs, l, env)
    decreases |specs|
  {
    hide Left;
    if specs != [] {
      NoMoreRemains(specs[..|specs| - 1], l, l', env);
    }
  }

  lemma {:induction false} LessRemains(specs: seq<Job>, l: Loop, l': Loop, env: Outside, id: RequestId)
    requires forall x :: Left(l', env, x) <= Left(l, env, x)
    requires Left(l', env, id) < Left(l, env, id) && id in IdSet(specs)
    ensures Remaining(specs, l', env) < Remaining(specs, l, env)
    decreases |specs|
  {
    hide Left;
    var n := |specs| - 1;
    assert Ids(specs) == Ids(specs[..n]) + [specs[n].requestId];
    NoMoreRemains(specs[..n], l, l', env);
    if specs[n].requestId != id {
      LessRemains(specs[..n], l, l', env, id);
    }
  }

  lemma SettleLowers(l: Loop, env: Outside, id: RequestId)
    requires (forall k: nat :: k < l.drops[id] ==> !Answered(env, id, k)) && id !in l.doc.qa && EverAnswered(env, id)
    requires Settle(l, id, env).outcome.None?
    ensures forall x :: Left(Settle(l, id, env), env, x) <= Left(l, env, x)
    ensures Left(Settle(l, id, env), env, id) < Left(l, env, id)
  {
    hide Judge, EverAnswered, FirstAnswer;
    var n := FirstAnswer(env, id);
    assert Answered(env, id, n) && n >= l.drops[id];
    assert env.answer(id, l.drops[id]).Silent? ==> n > l.drops[id];
  }

  /** Every settled task is one attempt less to come. */
  lemma SettleShrinks(start: Document, l: Loop, env: Outside, window: nat, id: RequestId)
    requires Scheduling(start, l, env, window) && AllAnswered(start, env)
    requires id in l.inflight && Settle(l, id, env).outcome.None?
    ensures Remaining(start.specs, Settle(l, id, env), env) < Remaining(start.specs, l, env)
  {
    hide Scheduling, Settle, Left, Remaining, EverAnswered;
    InFlightIsJob(start, l, env, window, id);
    QaIncludesStart(start, l, env, window);
    DropsWereSilent(start, l, env, window);
    SettleLowers(l, env, id);
    LessRemains(start.specs, l, Settle(l, id, env), env, id);
  }

  lemma DropsWereSilent(start: Document, l: Loop, env: Outside, window: nat)
    requires Scheduling(start, l, env, window)
    ensures forall id, k: nat :: k < l.drops[id] ==> !Answered(env, id, k)
  {
    hide Tracks, MayRecord, RecordedFrom, Judged, Aligned;
  }

  lemma LaunchAllKeepsRemaining(specs: seq<Job>, l: Loop, l': Loop, env: Outside)
    requires l'.doc == l.doc && l'.drops == l.drops
    ensures Remaining(specs, l', env) <= Remaining(specs, l, env)
  {
    NoMoreRemains(specs, l, l', env);
  }

  lemma {:induction false} SettleAllShrinks(start: Document, l: Loop, env: Outside, window: nat, done: seq<RequestId>)
    requires Scheduling(start, l, env, window) && |start.jobs| == |start.specs| && AllAnswered(start, env)
    requires Distinct(done) && (forall id :: id in done ==> id in l.inflight) && SettleAll(l, done, env).outcome.None?
    ensures Remaining(start.specs, SettleAll(l, done, env), env) <= Remaining(start.specs, l, env)
    ensures done != [] ==> Remaining(start.specs, SettleAll(l, done, env), env) < Remaining(start.specs, l, env)
    decreases |done|
  {
    hide Scheduling, Ended, Logged, Settle, Distinct, AllAnswered, Remaining;
    if done != [] {
      var n := |done| - 1;
      OneLess(l.inflight, done);
      SettleAllShrinks(start, l, env, window, done[..n]);
      SettleAllKeeps(start, l, env, window, done[..n]);
      SettleShrinks(start, SettleAll(l, done[..n], env), env, window, done[n]);
    }
  }

  lemma TurnShrinks(start: Document, l: Loop, w: Work, env: Outside)
    requires Scheduling(start, l, env, w.window) && Startable(start, w) && w.window > 0 && AllAnswered(start, env)
    requires Turn(l, w, env).outcome.None?
    ensures Remaining(start.specs, Turn(l, w, env), env) < Remaining(start.specs, l, env)
  {
    hide Scheduling, Ended, Logged, Startable, Examined, LaunchAll, ReadyJobs, Fitting, Distinct, SettleAll, Completed, Members,
      Remaining, AllAnswered;
    StartLengths(start, w);
    var launched := LaunchesFit(start, l, w, env);
    NextTurnIsScheduling(start, launched, env, w.window);
    var next := launched.(turn := l.turn + 1);
    LaunchAllKeepsRemaining(start.specs, l, next, env);
    SettleAllShrinks(start, next, env, w.window, Completed(env.wake(l.turn), launched.inflight));
  }

  lemma {:induction false} TurnsAreBounded(start: Document, w: Work, env: Outside, turns: nat)
    requires Startable(start, w) && w.window > 0 && AllAnswered(start, env)
    requires After(start, w, env, turns).outcome.None?
    ensures turns + Remaining(start.specs, After(start, w, env, turns), env) <= Remaining(start.specs, Begun(start), env)
  {
    hide Scheduling, Ended, Logged, Startable, Turn, Remaining, AllAnswered;
    if turns > 0 {
      TurnsAreBounded(start, w, env, turns - 1);
      AfterIsGood(start, w, env, turns - 1);
      TurnShrinks(start, After(start, w, env, turns - 1), w, env);
    }
  }

  /** If every job is answered in the end, the loop ends: after at most one turn more than there
      are attempts to make. */
  lemma EndsWhenAnswered(start: Document, w: Work, env: Outside, turns: nat)
    requires Startable(start, w) && w.window > 0 && AllAnswered(start, env)
    requires turns > Remaining(start.specs, Begun(start), env)
    ensures After(start, w, env, turns).outcome.Some?
  {
    hide Startable, AllAnswered, Remaining, After;
    if After(start, w, env, turns).outcome.None? {
      TurnsAreBounded(start, w, env, turns);
    }
  }

  // ---------- And only then, unless something else ends it ----------

  /** A job the callback never answers keeps the resume from completing: if the loop ends with a
      document at all, a refusal of another job ended it. */
  lemma SilenceForbidsCompletion(start: Document, w: Work, env: Outside, turns: nat, id: RequestId)
    requires Startable(start, w) && w.window > 0
    requires id in IdSet(start.specs) && id !in start.qa && !EverAnswered(env, id)
    ensures var r := After(start, w, env, turns).outcome;
      r.Some? && r.value.Ok? ==> r.value.value.state == Rejected && RefusalSeen(r.value.value) && id !in r.value.value.qa
  {
    AfterIsGood(start, w, env, turns);
    SilentIsNotClear(start, env, id);
    hide Startable, After, Clear, RefusalSeen;
  }

  lemma SilentIsNotClear(start: Document, env: Outside, id: RequestId)
    requires Aligned(start) && id in IdSet(start.specs) && id !in start.qa && !EverAnswered(env, id)
    ensures !Clear(start, env)
  {
    var i :| 0 <= i < |start.specs| && Ids(start.specs)[i] == id;
    assert !Passes(env, start.specs[i].requestId);
  }

  /** Every artifact of the episode verifies at every look. */
  ghost predicate Undisturbed(start: Document, env: Outside) {
    forall k: nat, id :: id in IdSet(start.specs) ==> id in env.intact(k)
  }

  /** Nothing but completion can end this resume: no refusal is there or comes, no task raises,
      and every artifact of the episode verifies at every look. */
  ghost predicate Quiet(start: Document, env: Outside) {
    && !RefusalSeen(start)
    && (forall id :: id in IdSet(start.specs) && id !in start.qa && EverAnswered(env, id) ==> Passes(env, id))
    && Undisturbed(start, env)
  }

  lemma NewVerdictPasses(start: Document, d: Document, env: Outside, id: RequestId)
    requires Quiet(start, env) && RecordedFrom(start, d, env) && id in d.qa && id !in start.qa
    ensures d.qa[id].Pass?
  {
    hide RefusalSeen;
    assert FinalAnswer(env, id).Completes?;
    assert Passes(env, id);
  }

  lemma QuietRefusesNothingNew(start: Document, d: Document, env: Outside)
    requires Quiet(start, env) && RecordedFrom(start, d, env)
    ensures forall id :: Refused(d.qa, id) ==> Refused(start.qa, id)
    ensures forall ids :: HasRefused(d.qa, ids) ==> HasRefused(start.qa, ids)
  {
    hide Quiet, VerdictOf, FinalAnswer;
    forall id | id in d.qa && id !in start.qa ensures d.qa[id].Pass? {
      NewVerdictPasses(start, d, env, id);
    }
  }

  lemma QuietShowsNoRefusal(start: Document, d: Document, env: Outside)
    requires Quiet(start, env) && SameJobs(start, d) && RecordedFrom(start, d, env)
    ensures !RefusalSeen(d)
  {
    hide Quiet, Passes, VerdictOf, FinalAnswer, HasRefused, Refused;
    QuietStart(start, env);
    QuietRefusesNothingNew(start, d, env);
    forall i | 0 <= i < |d.specs| && d.specs[i].requestId !in d.qa ensures !HasRefused(d.qa, DependencySet(d.specs[i])) {
      assert start.specs[i].requestId !in start.qa;
    }
  }

  lemma QuietStart(start: Document, env: Outside)
    requires Quiet(start, env)
    ensures !RefusalSeen(start)
  {
  }

  lemma JudgedIsJob(start: Document, id: RequestId)
    requires Judged(start) && id in start.qa
    ensures id in IdSet(start.specs)
  {
    assert Ids(start.specs)[IndexOf(start.specs, id)] == id;
  }

  lemma QuietIsIntact(start: Document, d: Document, env: Outside, k: nat)
    requires Quiet(start, env) && Judged(start) && RecordedFrom(start, d, env)
    ensures AllIntact(d.qa, env.intact(k))
  {
    hide RefusalSeen, Passes, Judged;
    forall id | id in d.qa ensures id in env.intact(k) {
      if id in start.qa {
        JudgedIsJob(start, id);
      }
    }
  }

  lemma QuietRaisesNothing(start: Document, d: Document, env: Outside)
    requires Quiet(start, env) && Aligned(start) && SameJobs(start, d) && RecordedFrom(start, d, env)
    ensures !SomeRaises(d, env)
  {
    hide RefusalSeen;
    forall i | 0 <= i < |d.specs| && d.specs[i].requestId !in d.qa ensures !FinalAnswer(env, d.specs[i].requestId).Raises? {
      var id := d.specs[i].requestId;
      assert Ids(start.specs)[i] == id && id !in start.qa;
      assert EverAnswered(env, id) ==> Passes(env, id);
    }
  }

  lemma QuietEnd(start: Document, l: Loop, env: Outside)
    requires Aligned(start) && Judged(start) && Quiet(start, env) && Ended(start, l, env)
    ensures Clear(start, env) && EndedComplete(start, l, env) && l.outcome == Some(Ok(l.doc))
  {
    hide Quiet, Clear, RefusalSeen, SomeRaises, RecordedFrom, AllIntact, EndedComplete, SameJobs, InFlight, Judged;
    if !(l.outcome.value.Ok? && Clear(start, env)) {
      QuietShowsNoRefusal(start, l.doc, env);
      QuietIsIntact(start, l.doc, env, l.turn);
      QuietRaisesNothing(start, l.doc, env);
      assert false;
    }
  }

  /** A quiet resume ends only by completing. */
  lemma QuietEndsComplete(start: Document, w: Work, env: Outside, turns: nat)
    requires Startable(start, w) && w.window > 0 && Quiet(start, env)
    ensures var l := After(start, w, env, turns);
      l.outcome.Some? ==>
        && |start.jobs| == |start.specs| && Clear(start, env)
        && EndedComplete(start, l, env) && l.outcome == Some(Ok(l.doc))
  {
    hide After, Startable, Quiet, Clear, Ended, EndedComplete, Logged, Scheduling;
    AfterIsGood(start, w, env, turns);
    StartIsSound(start, w);
    if After(start, w, env, turns).outcome.Some? {
      QuietEnd(start, After(start, w, env, turns), env);
    }
  }

  lemma StartIsSound(start: Document, w: Work)
    requires Startable(start, w)
    ensures Aligned(start) && Judged(start) && SupersededJudged(start)
  {
  }

  /** When nothing refuses, raises or changes, the loop ends if and only if the callback answers
      every job at some attempt. One job it never answers keeps the loop going for ever. */
  lemma EndsIffAnswered(start: Document, w: Work, env: Outside)
    requires Startable(start, w) && w.window > 0 && Quiet(start, env)
    ensures (exists turns: nat :: After(start, w, env, turns).outcome.Some?) <==> AllAnswered(start, env)
  {
    hide After, Startable, Quiet, Remaining, EverAnswered, EndedComplete;
    if AllAnswered(start, env) {
      EndsWhenAnswered(start, w, env, Remaining(start.specs, Begun(start), env) + 1);
    } else {
      var id :| id in IdSet(start.specs) && id !in start.qa && !EverAnswered(env, id);
      StartIsSound(start, w);
      SilentIsNotClear(start, env, id);
      forall turns: nat ensures After(start, w, env, turns).outcome.None? {
        QuietEndsComplete(start, w, env, turns);
      }
    }
  }

  // ---------- How often a job is launched ----------

  /** A job the resume gave a verdict was launched once for every silent attempt and once more:
      twice when its first attempt was silent and its second answered. */
  lemma SilenceRelaunches(start: Document, w: Work, env: Outside, turns: nat, id: RequestId)
    requires Startable(start, w) && w.window > 0
    requires !Answered(env, id, 0) && Answered(env, id, 1)
    requires var d := After(start, w, env, turns).doc; id in d.qa && id !in start.qa
    ensures Launches(After(start, w, env, turns).log)[id] == 2
  {
    hide Startable, After;
    LaunchedPerAttempt(start, w, env, turns, id);
    FirstAnswerIs(env, id, 1);
  }

  lemma LaunchedPerAttempt(start: Document, w: Work, env: Outside, turns: nat, id: RequestId)
    requires Startable(start, w) && w.window > 0
    requires var d := After(start, w, env, turns).doc; id in d.qa && id !in start.qa
    ensures EverAnswered(env, id)
    ensures Launches(After(start, w, env, turns).log)[id] == FirstAnswer(env, id) + 1
  {
    hide Startable, After, Scheduling, Ended, EverAnswered, SafeLog, Launches;
    AfterIsGood(start, w, env, turns);
    if After(start, w, env, turns).outcome.None? {
      SchedulingIsLogged(start, After(start, w, env, turns), env, w.window);
    }
  }

  // ---------- Total correctness ----------

  lemma ClearJobPasses(start: Document, env: Outside, id: RequestId)
    requires Aligned(start) && Clear(start, env) && id in IdSet(start.specs) && id !in start.qa
    ensures Passes(env, id) && EverAnswered(env, id)
  {
    var i :| 0 <= i < |start.specs| && Ids(start.specs)[i] == id;
    assert start.specs[i].requestId == id;
  }

  lemma ClearIsQuiet(start: Document, env: Outside)
    requires Aligned(start) && Clear(start, env) && Undisturbed(start, env)
    ensures Quiet(start, env) && AllAnswered(start, env)
  {
    forall id | id in IdSet(start.specs) && id !in start.qa ensures Passes(env, id) && EverAnswered(env, id) {
      ClearJobPasses(start, env, id);
    }
    hide EverAnswered, Passes;
    assert !RefusalSeen(start) by {
      ClearShowsNoRefusal(start, env);
    }
  }

  lemma ClearShowsNoRefusal(start: Document, env: Outside)
    requires Aligned(start) && Clear(start, env)
    ensures !RefusalSeen(start)
  {
    hide Passes, HasRefused;
    forall i | 0 <= i < |start.jobs| && start.jobs[i].supersededBy.None?
      ensures !Refused(start.qa, start.jobs[i].requestId)
    {
      assert start.specs[i].requestId == start.jobs[i].requestId;
    }
  }

  /** Whatever the order in which tasks complete, whatever the window: if every job can be
      approved and the artifacts stay intact, the loop ends, with every verdict in place, and
      with as many launches of each job as its callback needed. */
  lemma CompletesWhenClear(start: Document, w: Work, env: Outside, turns: nat)
    requires Startable(start, w) && w.window > 0 && |start.jobs| == |start.specs|
    requires Clear(start, env) && Undisturbed(start, env)
    requires turns > Remaining(start.specs, Begun(start), env)
    ensures var l := After(start, w, env, turns);
      && l.outcome == Some(Ok(start.(state := MediaPending, qa := FinalQa(start, env))))
      && forall id :: id in IdSet(start.specs) && id !in start.qa ==>
           EverAnswered(env, id) && Launches(l.log)[id] == FirstAnswer(env, id) + 1
  {
    hide Startable, After, Quiet, Clear, Undisturbed, AllAnswered, Remaining, EverAnswered, Launches, VerdictOf;
    StartIsSound(start, w);
    ClearIsQuiet(start, env);
    EndsWhenAnswered(start, w, env, turns);
    QuietEndsComplete(start, w, env, turns);
    forall id | id in IdSet(start.specs) && id !in start.qa
      ensures EverAnswered(env, id) && Launches(After(start, w, env, turns).log)[id] == FirstAnswer(env, id) + 1
    {
      LaunchedPerAttempt(start, w, env, turns, id);
    }
  }

  // ---------- Tasks left in flight ----------

  /** What a refused end of a turn looks like before the turn. */
  predicate RefusesNow(l: Loop, w: Work, env: Outside) {
    && AllIntact(l.doc.qa, env.intact(l.turn))
    && (ActiveRefused(l.doc) || Blocked(Pending(w.ordered, l.doc.qa, l.inflight), l.doc.qa, w.dependencies))
  }

  /** A resume returns with tasks in flight exactly when, at the top of a turn, an active job
      is refused or a pending one blocked while other tasks run: the code saves REJECTED and
      returns, and only an exception cancels and awaits the tasks. They are the tasks in flight
      before the turn. */
  lemma RefusalLeavesTasks(start: Document, l: Loop, w: Work, env: Outside)
    requires Scheduling(start, l, env, w.window) && Startable(start, w) && w.window > 0
    ensures var r := Turn(l, w, env);
      && (r.outcome.Some? && InFlight(r.log) != {} <==> RefusesNow(l, w, env) && l.inflight != {})
      && (r.outcome.Some? && InFlight(r.log) != {} ==>
            r.outcome == Some(Ok(r.doc)) && r.doc.state == Rejected && InFlight(r.log) == l.inflight)
  {
    hide Scheduling, Startable, Logged, AllIntact, ActiveRefused, Blocked, Worked, MayRecord, ReadyJobs, Clear, FinalQa,
      EndedComplete, EndedRefused, InFlight, Judged;
    SchedulingTracks(start, l, env, w.window);
    SchedulingHasNoOutcome(start, l, env, w.window);
    EndingsInFlight(l);
    StartIsSound(start, w);
    ExaminedKeeps(start, l, w, env);
    if Examined(l, w, env).outcome.None? {
      WorkedGathers(start, l, w, env);
    }
  }

  /** What is in flight after each way to end a turn at its top. */
  lemma EndingsInFlight(l: Loop)
    ensures InFlight(EndStale(l).log) == {}
    ensures forall state :: InFlight(EndAs(l, state).log) == InFlight(l.log)
    ensures forall error :: InFlight(EndWith(l, error).log) == {}
  {
    forall state ensures InFlight(EndAs(l, state).log) == InFlight(l.log) {
      LogAppend(l.doc, l.log, SavedAs(EndAs(l, state).doc));
    }
    LogAppend(l.doc, EndAs(l, Rejected).log, Gathered);
    LogAppend(l.doc, l.log, Gathered);
  }

  lemma WorkedGathers(start: Document, l: Loop, w: Work, env: Outside)
    requires Scheduling(start, l, env, w.window) && Startable(start, w) && w.window > 0
    requires |start.jobs| == |start.specs|
    requires Examined(l, w, env).outcome.None?
    ensures Worked(l, w, env).outcome.Some? ==> InFlight(Worked(l, w, env).log) == {}
  {
    hide Scheduling, Ended, Logged, Startable, Examined, LaunchAll, ReadyJobs, Fitting, Distinct, SettleAll, Completed, Members,
      InFlight;
    var launched := LaunchesFit(start, l, w, env);
    NextTurnIsScheduling(start, launched, env, w.window);
    var next := launched.(turn := l.turn + 1);
    SettleAllKeeps(start, next, env, w.window, Completed(env.wake(l.turn), launched.inflight));
    RaisedGathers(start, Worked(l, w, env), env);
  }

  lemma RaisedGathers(start: Document, l: Loop, env: Outside)
    requires |start.jobs| == |start.specs|
    ensures Ended(start, l, env) && l.outcome == Some(Err(TaskFailed)) ==> InFlight(l.log) == {}
  {
  }

  /** The verdict of the first task to complete, before any other. */
  lemma FirstRefusal(start: Document, w: Work, env: Outside, a: RequestId) returns (l: Loop)
    requires Startable(start, w) && w.window > 0 && !RefusalSeen(start) && AllIntact(start.qa, env.intact(0))
    requires a in Fitting(ReadyJobs(Begun(start), w), w.window, {}) && env.wake(0) == [a]
    requires env.answer(a, 0).Completes? && Judge(a, env.answer(a, 0).resultSha256, env.answer(a, 0).report).Fail?
    ensures l == After(start, w, env, 1) && l.outcome.None? && l.turn == 1
    ensures l.inflight == Members(Fitting(ReadyJobs(Begun(start), w), w.window, {})) - {a}
    ensures exists v: Verdict :: v.Fail? && l.doc == start.(qa := start.qa[a := v])
  {
    hide Startable, Judge, AllIntact, RefusalSeen, Fitting, ReadyJobs, Scheduling, Ended, Logged, Examined, LaunchAll;
    var b := Begun(start);
    FirstTurnGoesOn(start, w, env, a);
    BegunIsScheduling(start, w, env);
    var launched := LaunchesFit(start, b, w, env);
    SchedulingHasNoOutcome(start, launched, env, w.window);
    assert [a][..0] == [];
    assert Distinct([a]) && Completed(env.wake(0), launched.inflight) == [a];
    var next := launched.(turn := 1);
    assert SettleAll(next, [], env) == next;
    l := Settle(next, a, env);
    assert SettleAll(next, [a], env) == l;
    assert Turn(b, w, env) == l;
    assert After(start, w, env, 0) == b;
  }

  lemma FirstTurnGoesOn(start: Document, w: Work, env: Outside, a: RequestId)
    requires Startable(start, w) && !RefusalSeen(start) && AllIntact(start.qa, env.intact(0))
    requires a in Fitting(ReadyJobs(Begun(start), w), w.window, {})
    ensures Examined(Begun(start), w, env).outcome.None?
  {
    hide RefusalSeen, AllIntact, Blocked;
    var pending := Pending(w.ordered, start.qa, {});
    assert a in ReadyJobs(Begun(start), w);
    PendingLists(w.ordered, start.qa, {});
    LaunchableLists(pending, start.qa, w.dependencies);
    if ActiveRefused(start) {
      ActiveIsSeen(start);
    }
    if Blocked(pending, start.qa, w.dependencies) {
      BlockedIsSeen(start, w, {});
    }
  }

  /** It happens: two launchable jobs fit the window, the first to complete is refused, and the
      resume returns REJECTED with the task of the other in flight. */
  lemma RefusalOvertakes(start: Document, w: Work, env: Outside, a: RequestId, b: RequestId)
    requires Startable(start, w) && w.window > 0 && !RefusalSeen(start)
    requires AllIntact(start.qa, env.intact(0)) && AllIntact(start.qa, env.intact(1))
    requires a != b && a in Fitting(ReadyJobs(Begun(start), w), w.window, {})
    requires b in Fitting(ReadyJobs(Begun(start), w), w.window, {}) && env.wake(0) == [a]
    requires env.answer(a, 0).Completes? && Judge(a, env.answer(a, 0).resultSha256, env.answer(a, 0).report).Fail?
    ensures var l := After(start, w, env, 2);
      l.outcome == Some(Ok(l.doc)) && l.doc.state == Rejected && b in InFlight(l.log)
  {
    hide Startable, Judge, AllIntact, RefusalSeen, Fitting, ReadyJobs, Scheduling, Ended, Logged, Examined, Turn;
    var l := FirstRefusal(start, w, env, a);
    AfterIsGood(start, w, env, 1);
    RefusalOfActive(start, w, l, a);
    FailKeepsIntact(start, l.doc, env.intact(1), a);
    RefusalLeavesTasks(start, l, w, env);
    assert b in l.inflight && RefusesNow(l, w, env);
    RefusingTurnEnds(l, w, env);
  }

  lemma FailKeepsIntact(start: Document, d: Document, intact: set<RequestId>, a: RequestId)
    requires AllIntact(start.qa, intact) && exists v: Verdict :: v.Fail? && d == start.(qa := start.qa[a := v])
    ensures AllIntact(d.qa, intact)
  {
  }

  lemma RefusingTurnEnds(l: Loop, w: Work, env: Outside)
    requires l.outcome.None? && RefusesNow(l, w, env) && l.inflight != {}
    ensures Turn(l, w, env).outcome.Some?
  {
  }

  /** A refused job of the plan that had no verdict at the start is active. */
  lemma RefusalOfActive(start: Document, w: Work, l: Loop, a: RequestId)
    requires Startable(start, w) && a in Fitting(ReadyJobs(Begun(start), w), w.window, {})
    requires exists v: Verdict :: v.Fail? && l.doc == start.(qa := start.qa[a := v])
    ensures ActiveRefused(l.doc)
  {
    assert a in ReadyJobs(Begun(start), w);
    PendingLists(w.ordered, start.qa, {});
    LaunchableLists(Pending(w.ordered, start.qa, {}), start.qa, w.dependencies);
    var i := PlannedIndex(start, w, a);
    assert start.jobs[i].supersededBy.None?;
    assert l.doc.jobs[i].requestId == a && Refused(l.doc.qa, a);
  }
}
