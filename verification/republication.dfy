/** When the publisher can be called a second time: only after an approved artifact changed while
    a publication was committed, and then it can, once the artifact verifies again. */
module Republication {
  import opened Wrappers
  import opened Texts
  import opened Artifacts
  import opened JobGraph
  import opened RunnerModel
  import opened RunnerInvariants
  import opened RunnerRuns
  import opened SuccessorGraph
  import opened Runs

  // ---------- While approved artifacts stay intact ----------

  /** At this point every artifact with an approved verdict verifies. */
  predicate Intact(w: World) {
    w.doc.Some? ==> AllIntact(w.doc.value.qa, w.intact)
  }

  predicate UnderPublication(w: World) {
    w.doc.Some? && Committed(w.doc.value)
  }

  /** A changed artifact that a check has found was changed earlier, under the same document. */
  ghost predicate CheckHolds(w: World) {
    w.check.stale.Some? ==> w.doc.Some? && w.publisher.Idle? && Approved(w.doc.value.qa, w.check.stale.value)
  }

  /** A finding is fresh or was there before, over the same document. */
  lemma FindingIsFresh(w: World, w': World)
    requires Next(w, w') && CheckHolds(w)
    ensures CheckHolds(w')
    ensures w'.check.stale.Some? ==>
      w'.doc == w.doc && (w'.check == w.check || w'.check.stale.value !in w.intact)
  {
    var s: Step :| Enabled(s, w) && w' == Effect(s, w);
    hide MaySave, Saved, StartDocument, CheckAllows;
    assert s.Do? || s.Start? || s.Confirm? || w'.doc == w.doc;
  }

  lemma {:induction false} ChecksHold(run: seq<World>, i: nat)
    requires IsRunnerRun(run) && i < |run|
    ensures CheckHolds(run[i])
    decreases i
  {
    if i == 0 {
      StartsWell(Init, Next, run);
    } else {
      ChecksHold(run, i - 1);
      StepAt(Init, Next, run, i - 1);
      FindingIsFresh(run[i - 1], run[i]);
    }
  }

  /** Whatever a check found changed was changed at some point under this document. */
  lemma {:induction false} FindingHappened(run: seq<World>, i: nat) returns (j: nat)
    requires IsRunnerRun(run) && i < |run| && run[i].check.stale.Some?
    ensures j < i && run[j].doc == run[i].doc && !Intact(run[j])
    decreases i
  {
    StartsWell(Init, Next, run);
    ChecksHold(run, i);
    ChecksHold(run, i - 1);
    StepAt(Init, Next, run, i - 1);
    FindingIsFresh(run[i - 1], run[i]);
    if run[i].check.stale.value !in run[i - 1].intact {
      j := i - 1;
    } else {
      j := FindingHappened(run, i - 1);
    }
  }

  lemma EscapeNeedsFinding(w: World, w': World)
    requires Next(w, w') && w'.escapes != w.escapes
    ensures UnderPublication(w) && w.check.stale.Some?
  {
    hide MaySave, Saved, StartDocument;
  }

  lemma {:induction false} EscapeHappened(run: seq<World>, i: nat) returns (j: nat)
    requires IsRunnerRun(run) && i < |run| && run[i].escapes > 0
    ensures j < i && UnderPublication(run[j]) && !Intact(run[j])
    decreases i
  {
    StartsWell(Init, Next, run);
    StepAt(Init, Next, run, i - 1);
    if run[i - 1].escapes > 0 {
      j := EscapeHappened(run, i - 1);
    } else {
      EscapeNeedsFinding(run[i - 1], run[i]);
      j := FindingHappened(run, i - 1);
    }
  }

  /** A second publisher call proves that an approved artifact was changed at a moment when a
      publication was already intended or confirmed. */
  lemma SecondCallNeedsChange(run: seq<World>) returns (j: nat)
    requires IsRunnerRun(run) && |run[|run| - 1].published| > 1
    ensures j < |run| && UnderPublication(run[j]) && !Intact(run[j])
  {
    PublicationIsBounded(run);
    j := EscapeHappened(run, |run| - 1);
  }

  /** A run in which approved artifacts verify at every point calls the publisher at most once. */
  lemma IntactPublishesOnce(run: seq<World>)
    requires IsRunnerRun(run)
    requires forall i :: 0 <= i < |run| ==> Intact(run[i])
    ensures |run[|run| - 1].published| <= 1
  {
    if |run[|run| - 1].published| > 1 {
      var j := SecondCallNeedsChange(run);
    }
  }

  // ---------- While a changed artifact stays changed ----------

  predicate Unfinished(state: State) {
    state in {Ready, Running, Rejected}
  }

  lemma VerifiedAfter(s: Step, w: World, id: RequestId)
    requires Enabled(s, w) && id !in w.check.verified && id !in w.intact
    ensures id !in Effect(s, w).check.verified
  {
    hide StartDocument, MaySave, CheckAllows, Saved;
  }

  lemma SaveStaysUnfinished(s: Save, policy: Policy, d: Document, check: Check, id: RequestId)
    requires MaySave(s, policy, d) && CheckAllows(s, d, check)
    requires Approved(d.qa, id) && id !in check.verified && Unfinished(d.state)
    ensures Unfinished(Saved(s, policy, d).state)
  {
    hide RefusalSeen, AddSuccessors, MayRecord;
    assert !s.Finish?;
  }

  lemma ChangedStepStays(w: World, w': World, id: RequestId)
    requires CallsBounded(w) && Next(w, w')
    requires w.doc.Some? && Approved(w.doc.value.qa, id) && Unfinished(w.doc.value.state)
    requires id !in w.check.verified && id !in w.intact
    ensures w'.doc.Some? && Unfinished(w'.doc.value.state) && id !in w'.check.verified
  {
    var s: Step :| Enabled(s, w) && w' == Effect(s, w);
    DocumentAfter(s, w);
    VerifiedAfter(s, w, id);
    hide Effect, MaySave, CheckAllows, Saved;
    if s.Do? {
      SaveStaysUnfinished(s.save, w.policy, w.doc.value, w.check, id);
    }
  }

  /** As long as an approved artifact stays changed, and no check under way has already passed
      it, an episode that is not past the scheduler never gets past it. */
  lemma {:induction false} ChangedNeverFinishes(run: seq<World>, i: nat, j: nat, id: RequestId)
    requires IsRunnerRun(run) && i <= j < |run|
    requires run[i].doc.Some? && Approved(run[i].doc.value.qa, id) && Unfinished(run[i].doc.value.state)
    requires id !in run[i].check.verified
    requires forall k :: i <= k <= j ==> id !in run[k].intact
    ensures run[j].doc.Some? && Unfinished(run[j].doc.value.state) && id !in run[j].check.verified
    decreases j
  {
    hide Sound, CallsBounded, Enabled;
    if i < j {
      ChangedNeverFinishes(run, i, j - 1, id);
      VerdictsArePermanent(run, i, j - 1);
      HoldsAt(run, j - 1);
      StepAt(Init, Next, run, j - 1);
      ChangedStepStays(run[j - 1], run[j], id);
    }
  }

  // ---------- A second publication ----------

  lemma Take(run: seq<World>, s: Step) returns (next: seq<World>)
    requires IsRunnerRun(run) && Enabled(s, run[|run| - 1])
    ensures next == run + [Effect(s, run[|run| - 1])] && IsRunnerRun(next)
  {
    next := run + [Effect(s, run[|run| - 1])];
    Continue(Init, Next, run, Effect(s, run[|run| - 1]));
  }

  ghost predicate EndsIn(run: seq<World>, w: World, d: Document) {
    run != [] && IsRunnerRun(run) && run[|run| - 1] == w.(doc := Some(d), publisher := Idle, check := UNCHECKED)
  }

  /** From staged media to both approvals. */
  lemma PassGates(run: seq<World>, w: World, d: Document, media: map<Kind, Media>, qa: TechnicalQa, reviewer: string)
      returns (next: seq<World>, e: Document)
    requires EndsIn(run, w, d) && d.state == MediaPending && media.Keys == {Thumbnail, Video} && !Blank(reviewer)
    ensures EndsIn(next, w, e) && e.state == ReadyToPublish && GatesApproved(e.gates)
    ensures PackageOf(e.gates) == Package(media[Thumbnail].sha256, media[Video].sha256)
  {
    hide IsRunnerRun;
    next := Take(run, Do(Stage(media, qa)));
    e := Staged(d, media, qa);
    assert EndsIn(next, w, e);
    next := Take(next, Do(Decide(Thumbnail, reviewer, true)));
    e := Decided(e, Thumbnail, reviewer, true);
    assert EndsIn(next, w, e);
    next := Take(next, Do(Decide(Video, reviewer, true)));
    e := Decided(e, Video, reviewer, true);
  }

  lemma PublishApproved(run: seq<World>, w: World, d: Document) returns (next: seq<World>)
    requires EndsIn(run, w, d) && w.policy.publicationEnabled && d.state == ReadyToPublish && GatesApproved(d.gates)
    ensures next != [] && IsRunnerRun(next)
    ensures next[|next| - 1].published == w.published + [PackageOf(d.gates)]
    ensures next[|next| - 1].escapes == w.escapes
  {
    next := Take(run, Do(Intend));
    next := Take(next, Call);
  }

  /** Only this job still needs a verdict. */
  ghost predicate OnlyMissing(d: Document, id: RequestId) {
    && (forall i :: 0 <= i < |d.specs| && d.specs[i].requestId != id ==> d.specs[i].requestId in d.qa)
    && (forall i :: 0 <= i < |d.jobs| && d.jobs[i].supersededBy.None? && d.jobs[i].requestId != id ==>
          Approved(d.qa, d.jobs[i].requestId))
  }

  /** A check that finds all these artifacts intact. */
  lemma {:induction false} InspectAll(run: seq<World>, ids: set<RequestId>) returns (next: seq<World>)
    requires IsRunnerRun(run)
    requires var w := run[|run| - 1]; w.publisher.Idle? && w.doc.Some? && w.check == UNCHECKED && ids <= w.intact
    requires forall id :: id in ids ==> Approved(run[|run| - 1].doc.value.qa, id)
    ensures next != [] && IsRunnerRun(next)
    ensures next[|next| - 1] == run[|run| - 1].(check := Check(ids, None))
    decreases ids
  {
    if ids == {} {
      next := run;
    } else {
      var id :| id in ids;
      next := InspectAll(run, ids - {id});
      next := Take(next, Inspect(id));
      assert ids - {id} + {id} == ids;
    }
  }

  /** The scheduler finishes once everything is judged, approved and intact. */
  lemma FinishIntact(run: seq<World>, w: World, d: Document) returns (next: seq<World>)
    requires EndsIn(run, w, d) && MaySave(Finish, w.policy, d) && AllIntact(d.qa, w.intact)
    ensures EndsIn(next, w, d.(state := MediaPending))
  {
    next := InspectAll(run, ApprovedIds(d.qa));
    next := Take(next, Do(Finish));
  }

  /** The successor gets its approval and the scheduler finishes. */
  lemma FinishSuccessor(run: seq<World>, w: World, d: Document, job: Job, pass: Verdict)
      returns (next: seq<World>, e: Document)
    requires EndsIn(run, w, d) && MayWork(d) && MayRecord(d, job.requestId)
    requires pass.Pass? && Independent(pass)
    requires OnlyMissing(d, job.requestId)
    requires AllIntact(d.qa, w.intact) && job.requestId in w.intact
    ensures EndsIn(next, w, e) && e.state == MediaPending
  {
    next := Take(run, Do(Begin));
    assert EndsIn(next, w, d);
    next := InspectAll(next, ApprovedIds(d.qa));
    next := Take(next, Do(Record(job.requestId, pass)));
    e := d.(qa := d.qa[job.requestId := pass]);
    assert EndsIn(next, w, e);
    next := FinishIntact(next, w, e);
    e := e.(state := MediaPending);
  }

  /** A successor accepted after the escape is the only job without a verdict. */
  lemma ReopenedDocument(policy: Policy, d: Document, job: Job)
    requires Core(policy, d) && d.state == Rejected && AllJudged(d.specs, d.qa) && ActiveApproved(d.jobs, d.qa)
    requires AddSuccessor(policy, d, job).Ok? && IndexOf(d.specs, job.requestId) == |d.specs|
    requires AllApproved(d.qa, DependencySet(job))
    requires OrderOf(d.specs).Ok? && BoundDependencies(job, IdSet(d.specs + [job]))
    ensures MaySave(Extend([job]), policy, d)
    ensures var e := Saved(Extend([job]), policy, d);
      && e == Invalidate(Append(d, IndexOf(d.specs, job.predecessor.value), job))
      && MayWork(e) && MayRecord(e, job.requestId) && OnlyMissing(e, job.requestId)
  {
    SuccessorOrder(d, IndexOf(d.specs, job.predecessor.value), job) by {
      SuccessorHasPredecessor(policy, d, job);
    }
    SingleSuccessor(policy, d, job);
    AppendedIsMissing(d, IndexOf(d.specs, job.predecessor.value), job);
  }

  lemma SuccessorHasPredecessor(policy: Policy, d: Document, job: Job)
    requires Aligned(d) && AddSuccessor(policy, d, job).Ok? && IndexOf(d.specs, job.requestId) == |d.specs|
    ensures job.predecessor.Some? && IndexOf(d.specs, job.predecessor.value) < |d.specs|
  {
  }

  lemma SingleSuccessor(policy: Policy, d: Document, job: Job)
    requires Aligned(d)
    ensures AddSuccessors(policy, d, [job]) == AddSuccessor(policy, d, job)
  {
    assert [job][..0] == [];
    assert AddSuccessors(policy, d, []) == Ok(d);
  }

  lemma AppendedMayRecord(d: Document, p: nat, job: Job)
    requires Aligned(d) && p < |d.specs| && IndexOf(d.specs, job.requestId) == |d.specs|
    requires Judged(d) && AllApproved(d.qa, DependencySet(job))
    ensures MayRecord(Append(d, p, job), job.requestId)
  {
    AppendAligned(d, p, job);
    var e := Append(d, p, job);
    hide AllApproved, Independent;
    assert e.specs[|d.specs|] == job;
    assert Ids(e.specs)[IndexOf(e.specs, job.requestId)] == Ids(e.specs)[|d.specs|];
    assert IndexOf(e.specs, job.requestId) == |d.specs|;
  }

  lemma AppendedIsOnly(d: Document, p: nat, job: Job)
    requires |d.jobs| == |d.specs| && p < |d.specs|
    requires AllJudged(d.specs, d.qa) && ActiveApproved(d.jobs, d.qa)
    ensures OnlyMissing(Append(d, p, job), job.requestId)
  {
    hide Approved;
  }

  lemma AppendedIsMissing(d: Document, p: nat, job: Job)
    requires Aligned(d) && p < |d.specs| && IndexOf(d.specs, job.requestId) == |d.specs|
    requires Judged(d) && AllJudged(d.specs, d.qa) && ActiveApproved(d.jobs, d.qa)
    requires AllApproved(d.qa, DependencySet(job))
    ensures var e := Invalidate(Append(d, p, job)); MayRecord(e, job.requestId) && OnlyMissing(e, job.requestId)
  {
    hide Aligned, Judged, AllJudged, ActiveApproved, Append;
    AppendedMayRecord(d, p, job);
    AppendedIsOnly(d, p, job) by {
      AlignedLengths(d);
    }
  }

  lemma AlignedLengths(d: Document)
    requires Aligned(d)
    ensures |d.jobs| == |d.specs|
  {
  }

  lemma AcceptSuccessor(run: seq<World>, w: World, d: Document, job: Job, pass: Verdict, restored: set<RequestId>)
      returns (next: seq<World>, w': World, e: Document)
    requires EndsIn(run, w, d)
    requires Core(w.policy, d) && d.state == Rejected && AllJudged(d.specs, d.qa) && ActiveApproved(d.jobs, d.qa)
    requires AddSuccessor(w.policy, d, job).Ok? && IndexOf(d.specs, job.requestId) == |d.specs|
    requires AllApproved(d.qa, DependencySet(job))
    requires OrderOf(d.specs).Ok? && BoundDependencies(job, IdSet(d.specs + [job]))
    requires pass.Pass? && Independent(pass)
    requires AllIntact(d.qa, restored) && job.requestId in restored
    ensures w' == w.(intact := restored) && EndsIn(next, w', e) && e.state == MediaPending
  {
    hide IsRunnerRun, AllJudged, ActiveApproved, AllApproved, Independent, BoundDependencies, OnlyMissing, MayRecord,
      AddSuccessor, WithinBudget, Judged, SupersededJudged, OrderOf, AllIntact;
    ReopenedDocument(w.policy, d, job);
    next := Take(run, Do(Extend([job])));
    e := Saved(Extend([job]), w.policy, d);
    w' := w.(intact := restored);
    assert EndsIn(next, w, e);
    next := Take(next, Disturb(restored));
    assert EndsIn(next, w', e);
    next, e := FinishSuccessor(next, w', e, job, pass);
  }

  lemma GatesAndPublish(run: seq<World>, w: World, d: Document, media: map<Kind, Media>, qa: TechnicalQa,
                        reviewer: string) returns (next: seq<World>)
    requires EndsIn(run, w, d) && d.state == MediaPending && w.policy.publicationEnabled
    requires media.Keys == {Thumbnail, Video} && !Blank(reviewer)
    ensures next != [] && IsRunnerRun(next)
    ensures next[|next| - 1].published == w.published + [Package(media[Thumbnail].sha256, media[Video].sha256)]
    ensures next[|next| - 1].escapes == w.escapes
  {
    var e;
    next, e := PassGates(run, w, d, media, qa, reviewer);
    next := PublishApproved(next, w, e);
  }

  lemma SuccessorIgnoresState(policy: Policy, d: Document, job: Job)
    requires Core(policy, d) && AddSuccessor(policy, d, job).Ok?
    ensures AddSuccessor(policy, d.(state := Rejected), job).Ok?
  {
  }

  /** An artifact changes, a resume finds it changed and rejects the published episode. */
  lemma EscapeStale(run: seq<World>, w: World, d: Document, stale: RequestId)
      returns (next: seq<World>, w': World)
    requires EndsIn(run, w, d) && Committed(d) && Approved(d.qa, stale)
    ensures w' == w.(intact := w.intact - {stale}, escapes := w.escapes + 1)
    ensures EndsIn(next, w', d.(state := Rejected))
  {
    next := Take(run, Disturb(w.intact - {stale}));
    next := Take(next, Look);
    next := Take(next, Detect(stale));
    next := Take(next, Do(Escape(stale)));
    w' := w.(intact := w.intact - {stale}, escapes := w.escapes + 1);
  }

  lemma PublishedIsComplete(w: World, d: Document)
    requires Inv(w) && w.doc == Some(d) && d.state == Published
    ensures Core(w.policy, d) && OrderOf(d.specs).Ok? && AllJudged(d.specs, d.qa) && ActiveApproved(d.jobs, d.qa)
  {
  }

  /** The rejected episode accepts the successor and is published again. */
  lemma Reopen(run: seq<World>, w: World, d: Document, job: Job, pass: Verdict, restored: set<RequestId>,
               media: map<Kind, Media>, qa: TechnicalQa, reviewer: string) returns (next: seq<World>)
    requires EndsIn(run, w, d.(state := Rejected)) && w.policy.publicationEnabled
    requires Core(w.policy, d) && OrderOf(d.specs).Ok? && AllJudged(d.specs, d.qa) && ActiveApproved(d.jobs, d.qa)
    requires AddSuccessor(w.policy, d, job).Ok?
    requires IndexOf(d.specs, job.requestId) == |d.specs| && AllApproved(d.qa, DependencySet(job))
    requires BoundDependencies(job, IdSet(d.specs + [job]))
    requires pass.Pass? && Independent(pass)
    requires AllIntact(d.qa, restored) && job.requestId in restored
    requires media.Keys == {Thumbnail, Video} && !Blank(reviewer)
    ensures next != [] && IsRunnerRun(next)
    ensures next[|next| - 1].published == w.published + [Package(media[Thumbnail].sha256, media[Video].sha256)]
    ensures next[|next| - 1].escapes == w.escapes
  {
    hide IsRunnerRun, AddSuccessor, Core, AllJudged, ActiveApproved, AllApproved, Independent, AllIntact, GatesApproved,
      BoundDependencies, OrderOf;
    SameCore(w.policy, d, d.(state := Rejected));
    SuccessorIgnoresState(w.policy, d, job);
    var e, w';
    next, w', e := AcceptSuccessor(run, w, d.(state := Rejected), job, pass, restored);
    next := GatesAndPublish(next, w', e, media, qa, reviewer);
  }

  /** From any published episode there is a continuation that calls the publisher a second time,
      with whatever media was staged meanwhile: an approved artifact `stale` changes, a resume
      rejects the episode, an acceptable successor reopens it, the artifacts are `restored`, and
      the successor is approved. The restoration is not a detail: by `ChangedNeverFinishes` no
      run gets there while `stale` stays changed, and by `IntactPublishesOnce` none does unless
      some approved artifact changes first. */
  lemma SecondPublication(run: seq<World>, d: Document, stale: RequestId, restored: set<RequestId>, job: Job,
                          pass: Verdict, media: map<Kind, Media>, qa: TechnicalQa, reviewer: string)
      returns (next: seq<World>)
    requires run != [] && EndsIn(run, run[|run| - 1], d) && d.state == Published
    requires run[|run| - 1].policy.publicationEnabled
    requires Approved(d.qa, stale)
    requires AllIntact(d.qa, restored) && job.requestId in restored
    requires Aligned(d) && AddSuccessor(run[|run| - 1].policy, d, job).Ok?
    requires IndexOf(d.specs, job.requestId) == |d.specs| && AllApproved(d.qa, DependencySet(job))
    requires BoundDependencies(job, IdSet(d.specs + [job]))
    requires pass.Pass? && Independent(pass)
    requires media.Keys == {Thumbnail, Video} && !Blank(reviewer)
    ensures next != [] && IsRunnerRun(next)
    ensures next[|next| - 1].published ==
      run[|run| - 1].published + [Package(media[Thumbnail].sha256, media[Video].sha256)]
    ensures next[|next| - 1].escapes == run[|run| - 1].escapes + 1
  {
    hide IsRunnerRun, AddSuccessor, Core, AllApproved;
    var w := run[|run| - 1];
    HoldsAt(run, |run| - 1);
    PublishedIsComplete(w, d);
    next, w := EscapeStale(run, w, d, stale);
    next := Reopen(next, w, d, job, pass, restored, media, qa, reviewer);
  }
}
