/** The bounded-window scheduler of one resume: what the outside world may answer, and what
    a log of launches, completions and saves must satisfy. */
module SchedulerModel {
  import opened Wrappers
  import opened SortedSets
  import opened Artifacts
  import opened Texts
  import opened JobGraph
  import opened RunnerModel

  /** An independent QA verdict as the callback returned it; `codes` may be missing. */
  datatype Report = Report(requestId: RequestId, resultSha256: Sha256, approved: bool, reviewer: string,
                           subject: string, issuer: string, codes: Option<seq<string>>)

  /** How one attempt at a job ends: the QA callback answers nothing at all, the task raises, or
      it completes. `report` is None when the callback returned something that is not an object
      of the right kind. */
  datatype Answer = Silent | Raises | Completes(resultSha256: Sha256, report: Option<Report>)

  /** Everything outside the runner: how the n-th attempt of a resume at a job ends, which tasks
      the k-th wait reports in which order, and which completed artifacts verify when the k-th
      look at the document checks them. */
  datatype Outside = Outside(answer: (RequestId, nat) -> Answer, wake: nat -> seq<RequestId>,
                             intact: nat -> set<RequestId>)

  /** The tasks one wait returns: at least one, each in flight. */
  function Completed(wake: seq<RequestId>, inflight: set<RequestId>): (done: seq<RequestId>)
    requires inflight != {}
    ensures done != [] && Distinct(done) && forall id :: id in done ==> id in inflight
  {
    if wake != [] && Distinct(wake) && forall id :: id in wake ==> id in inflight then wake
    else
      SortedListsSet(inflight);
      assert |Sorted(inflight)| > 0;
      Sorted(inflight)
  }

  /** The verdict recorded for a completed task. */
  function Judge(id: RequestId, resultSha256: Sha256, report: Option<Report>): Verdict {
    if report.None? || report.value.requestId != id || report.value.resultSha256 != resultSha256
       || Blank(report.value.subject) || Blank(report.value.issuer) || report.value.subject == "generator"
    then Fail(["QA_CONTRACT_INVALID"])
    else if !report.value.approved || Blank(report.value.reviewer)
    then Fail(if report.value.codes.Some? then report.value.codes.value else ["QA_FAIL"])
    else Pass(resultSha256, report.value.reviewer, report.value.subject, report.value.issuer)
  }

  // ---------- Attempts ----------

  predicate Answered(env: Outside, id: RequestId, n: nat) {
    !env.answer(id, n).Silent?
  }

  ghost predicate EverAnswered(env: Outside, id: RequestId) {
    exists n: nat :: Answered(env, id, n)
  }

  ghost function Earliest(env: Outside, id: RequestId, n: nat): (m: nat)
    requires Answered(env, id, n)
    ensures Answered(env, id, m) && forall k: nat :: k < m ==> !Answered(env, id, k)
  {
    if k: nat :| k < n && Answered(env, id, k) then Earliest(env, id, k) else n
  }

  /** The attempt that is answered first. */
  ghost function FirstAnswer(env: Outside, id: RequestId): (n: nat)
    requires EverAnswered(env, id)
    ensures Answered(env, id, n) && forall k: nat :: k < n ==> !Answered(env, id, k)
  {
    var n: nat :| Answered(env, id, n);
    Earliest(env, id, n)
  }

  /** How the job's task ends once the callback answers; silent if it never does. */
  ghost function FinalAnswer(env: Outside, id: RequestId): Answer {
    if EverAnswered(env, id) then env.answer(id, FirstAnswer(env, id)) else Silent
  }

  lemma FirstAnswerIs(env: Outside, id: RequestId, n: nat)
    requires Answered(env, id, n) && forall k: nat :: k < n ==> !Answered(env, id, k)
    ensures EverAnswered(env, id) && FirstAnswer(env, id) == n && FinalAnswer(env, id) == env.answer(id, n)
  {
    var first := FirstAnswer(env, id);
    assert first == n;
  }

  /** The verdict the outside world gives this job, if it ever answers and its task completes. */
  ghost predicate Passes(env: Outside, id: RequestId) {
    FinalAnswer(env, id).Completes? && VerdictOf(env, id).Pass?
  }

  ghost function VerdictOf(env: Outside, id: RequestId): Verdict {
    var answer := FinalAnswer(env, id);
    if answer.Completes? then Judge(id, answer.resultSha256, answer.report) else Fail([])
  }

  lemma VerdictIsIndependent(id: RequestId, resultSha256: Sha256, report: Option<Report>)
    ensures Independent(Judge(id, resultSha256, report))
  {
  }

  // ---------- The lists computed on every turn ----------

  function Pending(ordered: seq<RequestId>, qa: map<RequestId, Verdict>, inflight: set<RequestId>): seq<RequestId> {
    if ordered == [] then []
    else
      (if ordered[0] !in qa && ordered[0] !in inflight then [ordered[0]] else [])
      + Pending(ordered[1..], qa, inflight)
  }

  function DependenciesOf(dependencies: Graph, id: RequestId): set<RequestId> {
    if id in dependencies then dependencies[id] else {}
  }

  predicate Blocked(pending: seq<RequestId>, qa: map<RequestId, Verdict>, dependencies: Graph) {
    exists i :: 0 <= i < |pending| && HasRefused(qa, DependenciesOf(dependencies, pending[i]))
  }

  function Launchable(pending: seq<RequestId>, qa: map<RequestId, Verdict>, dependencies: Graph): seq<RequestId> {
    if pending == [] then []
    else
      (if AllApproved(qa, DependenciesOf(dependencies, pending[0])) then [pending[0]] else [])
      + Launchable(pending[1..], qa, dependencies)
  }

  lemma {:induction false} PendingLists(ordered: seq<RequestId>, qa: map<RequestId, Verdict>, inflight: set<RequestId>)
    requires Distinct(ordered)
    ensures var p := Pending(ordered, qa, inflight);
      && Distinct(p)
      && forall id :: id in p <==> id in ordered && id !in qa && id !in inflight
  {
    if ordered != [] {
      PendingLists(ordered[1..], qa, inflight);
      assert ordered == [ordered[0]] + ordered[1..];
      assert forall i :: 0 < i < |ordered| ==> ordered[i] in ordered[1..];
      assert ordered[0] !in ordered[1..];
    }
  }

  /** Everything before the first pending job is judged or in flight. */
  lemma {:induction false} FirstPending(ordered: seq<RequestId>, qa: map<RequestId, Verdict>,
                                        inflight: set<RequestId>) returns (i: nat)
    requires Pending(ordered, qa, inflight) != []
    ensures i < |ordered| && ordered[i] == Pending(ordered, qa, inflight)[0]
    ensures forall j :: 0 <= j < i ==> ordered[j] in qa || ordered[j] in inflight
  {
    if ordered[0] !in qa && ordered[0] !in inflight {
      i := 0;
    } else {
      assert Pending(ordered, qa, inflight) == Pending(ordered[1..], qa, inflight);
      var k := FirstPending(ordered[1..], qa, inflight);
      i := k + 1;
    }
  }

  lemma {:induction false} LaunchableLists(pending: seq<RequestId>, qa: map<RequestId, Verdict>, dependencies: Graph)
    requires Distinct(pending)
    ensures var r := Launchable(pending, qa, dependencies);
      && Distinct(r)
      && forall id :: id in r <==> id in pending && AllApproved(qa, DependenciesOf(dependencies, id))
  {
    if pending != [] {
      LaunchableLists(pending[1..], qa, dependencies);
      assert pending == [pending[0]] + pending[1..];
      assert forall i :: 0 < i < |pending| ==> pending[i] in pending[1..];
      assert pending[0] !in pending[1..];
    }
  }

  /** Progress: with nothing in flight and nothing blocked, the first pending job in
      topological order can be launched. */
  lemma SomethingLaunches(ordered: seq<RequestId>, qa: map<RequestId, Verdict>, dependencies: Graph)
    requires Schedules(dependencies, ordered) && Closed(dependencies)
    requires Pending(ordered, qa, {}) != []
    requires !Blocked(Pending(ordered, qa, {}), qa, dependencies)
    ensures Launchable(Pending(ordered, qa, {}), qa, dependencies) != []
  {
    var pending := Pending(ordered, qa, {});
    var i := FirstPending(ordered, qa, {});
    PendingLists(ordered, qa, {});
    LaunchableLists(pending, qa, dependencies);
    var first := pending[0];
    forall d | d in DependenciesOf(dependencies, first) ensures Approved(qa, d) {
      assert d in ordered;
      var j :| 0 <= j < |ordered| && ordered[j] == d;
      assert j < i;
    }
    assert first in pending;
    assert first in Launchable(pending, qa, dependencies);
  }

  // ---------- Logs ----------

  /** A task is dropped when the callback answered nothing: no verdict, and no save. `Gathered`
      is the error exit: every task still in flight is cancelled and awaited. */
  datatype Event = Launched(id: RequestId) | Finished(id: RequestId) | Dropped(id: RequestId) | Failed(id: RequestId)
                 | Gathered | SavedAs(doc: Document)

  ghost function InFlight(log: seq<Event>): set<RequestId> {
    if log == [] then {}
    else
      match log[|log| - 1]
      case Launched(id) => InFlight(log[..|log| - 1]) + {id}
      case Finished(id) => InFlight(log[..|log| - 1]) - {id}
      case Dropped(id) => InFlight(log[..|log| - 1]) - {id}
      case Failed(id) => InFlight(log[..|log| - 1]) - {id}
      case Gathered => {}
      case SavedAs(_) => InFlight(log[..|log| - 1])
  }

  /** How often each job was launched, and how often its task was dropped. */
  ghost function Launches(log: seq<Event>): multiset<RequestId> {
    if log == [] then multiset{}
    else Launches(log[..|log| - 1]) + if log[|log| - 1].Launched? then multiset{log[|log| - 1].id} else multiset{}
  }

  ghost function Drops(log: seq<Event>): multiset<RequestId> {
    if log == [] then multiset{}
    else Drops(log[..|log| - 1]) + if log[|log| - 1].Dropped? then multiset{log[|log| - 1].id} else multiset{}
  }

  /** The document a crash would leave at the end of the log. */
  ghost function Current(start: Document, log: seq<Event>): Document {
    if log == [] then start
    else if log[|log| - 1].SavedAs? then log[|log| - 1].doc
    else Current(start, log[..|log| - 1])
  }

  ghost predicate QaGrows(d: Document, e: Document) {
    forall id :: id in d.qa ==> id in e.qa && e.qa[id] == d.qa[id]
  }

  ghost predicate EventSafe(start: Document, before: seq<Event>, e: Event, window: nat) {
    var d := Current(start, before);
    match e
    case Launched(id) =>
      MayRecord(d, id) && id !in InFlight(before) && Launches(before)[id] == Drops(before)[id] && |InFlight(before)| < window
    case Finished(id) => id in InFlight(before)
    case Dropped(id) => id in InFlight(before)
    case Failed(id) => id in InFlight(before)
    case Gathered => true
    case SavedAs(doc) =>
      && doc.jobs == d.jobs && doc.specs == d.specs && QaGrows(d, doc)
      && (doc.state == MediaPending ==>
            InFlight(before) == {} && AllJudged(doc.specs, doc.qa) && ActiveApproved(doc.jobs, doc.qa))
  }

  /** Every launch was of a job without a verdict, launched before only to be dropped, whose
      dependencies were all approved, into a free slot; every save kept the recorded verdicts; and the
      media state was saved only with nothing in flight and every active job approved. */
  ghost predicate SafeLog(start: Document, log: seq<Event>, window: nat) {
    log != [] ==>
      && SafeLog(start, log[..|log| - 1], window)
      && EventSafe(start, log[..|log| - 1], log[|log| - 1], window)
  }

  lemma SafeAppend(start: Document, log: seq<Event>, e: Event, window: nat)
    requires SafeLog(start, log, window) && EventSafe(start, log, e, window)
    ensures SafeLog(start, log + [e], window)
  {
    assert (log + [e])[..|log|] == log;
  }

  lemma LogAppend(start: Document, log: seq<Event>, e: Event)
    ensures InFlight(log + [e]) ==
      match e
      case Launched(id) => InFlight(log) + {id}
      case Finished(id) => InFlight(log) - {id}
      case Dropped(id) => InFlight(log) - {id}
      case Failed(id) => InFlight(log) - {id}
      case Gathered => {}
      case SavedAs(_) => InFlight(log)
    ensures Launches(log + [e]) == Launches(log) + if e.Launched? then multiset{e.id} else multiset{}
    ensures Drops(log + [e]) == Drops(log) + if e.Dropped? then multiset{e.id} else multiset{}
    ensures Current(start, log + [e]) == if e.SavedAs? then e.doc else Current(start, log)
  {
    assert (log + [e])[..|log|] == log;
  }

  /** The number of tasks in flight never exceeds provider plus CPU concurrency. */
  lemma {:induction false} WindowIsRespected(start: Document, log: seq<Event>, window: nat)
    requires SafeLog(start, log, window)
    ensures |InFlight(log)| <= window
    decreases |log|
  {
    if log != [] {
      WindowIsRespected(start, log[..|log| - 1], window);
    }
  }

  /** Within one resume a job is launched again only after its task was dropped: never twice
      when the QA callback always answers. */
  lemma {:induction false} LaunchesFollowDrops(start: Document, log: seq<Event>, window: nat, id: RequestId)
    requires SafeLog(start, log, window)
    ensures Launches(log)[id] <= Drops(log)[id] + 1
    decreases |log|
  {
    if log != [] {
      LaunchesFollowDrops(start, log[..|log| - 1], window, id);
    }
  }

  /** Every launched job had all its dependencies approved in the document saved last. */
  lemma {:induction false} LaunchNeedsApproval(start: Document, log: seq<Event>, window: nat, i: nat)
    requires SafeLog(start, log, window) && i < |log| && log[i].Launched?
    ensures MayRecord(Current(start, log[..i]), log[i].id)
    decreases |log|
  {
    if i < |log| - 1 {
      LaunchNeedsApproval(start, log[..|log| - 1], window, i);
      assert log[..|log| - 1][..i] == log[..i];
    }
  }
}
