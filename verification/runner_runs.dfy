/** Theorems about whole runs of the two-gate runner: every list of durable states that
    calls and crashes can produce, in any order. */
module RunnerRuns {
  import opened Wrappers
  import opened Artifacts
  import opened JobGraph
  import opened RunnerModel
  import opened RunnerInvariants
  import opened Runs

  ghost predicate IsRunnerRun(run: seq<World>) {
    IsRun(Init, Next, run)
  }

  /** The invariant holds at every point of every run, and so at every crash. */
  lemma HoldsAt(run: seq<World>, i: nat)
    requires IsRunnerRun(run) && i < |run|
    ensures Inv(run[i])
  {
    forall w, w' | Inv(w) && Next(w, w') ensures Inv(w') {
      StepKeepsInv(w, w');
    }
    InvariantAt(Init, Next, Inv, run, i);
  }

  // ---------- Verdicts and jobs are permanent ----------

  /** The later document has all jobs of the earlier one, in their places, and all its verdicts. */
  ghost predicate Grows(earlier: Option<Document>, later: Option<Document>) {
    earlier.Some? ==>
      && later.Some?
      && later.value.packet == earlier.value.packet
      && later.value.scheduler == earlier.value.scheduler
      && earlier.value.specs <= later.value.specs
      && forall id :: id in earlier.value.qa ==> id in later.value.qa && later.value.qa[id] == earlier.value.qa[id]
  }

  lemma {:induction false} SuccessorsKeepHeader(policy: Policy, d: Document, jobs: seq<Job>)
    requires Aligned(d)
    ensures var r := AddSuccessors(policy, d, jobs);
      r.Ok? ==> r.value.packet == d.packet && r.value.scheduler == d.scheduler && r.value.state == d.state
    decreases |jobs|
  {
    if jobs != [] {
      SuccessorsKeepHeader(policy, d, jobs[..|jobs| - 1]);
    }
  }

  lemma SaveGrows(s: Save, policy: Policy, d: Document)
    requires Core(policy, d) && MaySave(s, policy, d)
    ensures Grows(Some(d), Some(Saved(s, policy, d)))
  {
    if s.Extend? {
      SuccessorsKeepCore(policy, d, s.successors);
      SuccessorsKeepHeader(policy, d, s.successors);
    }
  }

  /** What a step does to the document. */
  lemma DocumentAfter(s: Step, w: World)
    requires Enabled(s, w)
    ensures s.Start? ==> w.doc.None?
    ensures s.Do? ==> w.doc.Some? && MaySave(s.save, w.policy, w.doc.value) && CheckAllows(s.save, w.doc.value, w.check)
    ensures s.Do? ==> Effect(s, w).doc == Some(Saved(s.save, w.policy, w.doc.value))
    ensures s.Confirm? ==> w.doc.Some? && Effect(s, w).doc == Some(w.doc.value.(state := Published))
    ensures !s.Start? && !s.Do? && !s.Confirm? ==> Effect(s, w).doc == w.doc
  {
    hide MaySave, CheckAllows, Saved, StartDocument, MayInspect;
  }

  lemma StepGrows(w: World, w': World)
    requires Inv(w) && Next(w, w')
    ensures Grows(w.doc, w'.doc)
  {
    var s: Step :| Enabled(s, w) && w' == Effect(s, w);
    DocumentAfter(s, w);
    hide Enabled, Effect, MaySave, CheckAllows, Saved, CallsBounded, Core, GatesMatchState, CompleteWhenDone;
    if s.Do? {
      SaveGrows(s.save, w.policy, w.doc.value);
    }
  }

  /** No job is ever removed and no verdict is ever overwritten, however calls and crashes
      are interleaved. */
  lemma {:induction false} VerdictsArePermanent(run: seq<World>, i: nat, j: nat)
    requires IsRunnerRun(run) && i <= j < |run|
    ensures Grows(run[i].doc, run[j].doc)
    decreases j
  {
    if i < j {
      VerdictsArePermanent(run, i, j - 1);
      HoldsAt(run, j - 1);
      StepAt(Init, Next, run, j - 1);
      StepGrows(run[j - 1], run[j]);
    }
  }

  /** Once a dependency of a job is refused, the job never receives a verdict, and no later
      call takes the episode past the scheduler, whatever successors are added. */
  lemma RefusedDependencyIsFinal(run: seq<World>, i: nat, j: nat, k: nat, dependency: RequestId)
    requires IsRunnerRun(run) && i <= j < |run|
    requires run[i].doc.Some? && k < |run[i].doc.value.specs|
    requires dependency in DependencySet(run[i].doc.value.specs[k])
    requires Refused(run[i].doc.value.qa, dependency)
    ensures run[j].doc.Some?
    ensures run[i].doc.value.specs[k].requestId !in run[j].doc.value.qa
    ensures run[j].doc.value.state in {Ready, Running, Rejected}
  {
    HoldsAt(run, j);
    VerdictsArePermanent(run, i, j);
    var d, e := run[i].doc.value, run[j].doc.value;
    assert e.specs[k] == d.specs[k] && !Approved(e.qa, dependency);
  }

  // ---------- Publication ----------

  /** Over any run the publisher is called at most once, plus once for every time a finished
      or intended publication was rejected because an approved artifact had changed. */
  lemma PublicationIsBounded(run: seq<World>)
    requires IsRunnerRun(run)
    ensures var w := run[|run| - 1]; |w.published| <= 1 + w.escapes
  {
    HoldsAt(run, |run| - 1);
  }

  /** Whenever the publisher is called, the durable state is the intent, and the package
      carries exactly the hashes of the staged media that both gates approved. */
  lemma PublisherSeesApprovedHashes(run: seq<World>, i: nat)
    requires IsRunnerRun(run) && i + 1 < |run| && run[i].published != run[i + 1].published
    ensures run[i].doc.Some? && run[i].doc.value.state == PublishIntent
    ensures GateBinds(run[i].doc.value, Thumbnail) && GateBinds(run[i].doc.value, Video)
    ensures var d := run[i].doc.value;
      run[i + 1].published == run[i].published + [Package(d.media[Thumbnail].sha256, d.media[Video].sha256)]
  {
    HoldsAt(run, i);
    StepAt(Init, Next, run, i);
    CallPublishesIntent(run[i], run[i + 1]);
  }

  lemma CallPublishesIntent(w: World, w': World)
    requires Next(w, w') && CallsBounded(w) && w.published != w'.published
    ensures w.doc.Some? && w.doc.value.state == PublishIntent && w.doc.value.publicationIntent.Some?
    ensures w'.published == w.published + [w.doc.value.publicationIntent.value]
  {
  }

  /** An interrupted publication stays an intent: only re-validation of a changed artifact
      leaves it, and nothing calls the publisher. */
  lemma InterruptedIntentNeverReplays(w: World, w': World)
    requires w.publisher.Idle? && w.doc.Some? && w.doc.value.state == PublishIntent
    requires Next(w, w')
    ensures w'.published == w.published && w'.publisher.Idle?
    ensures w'.doc == w.doc || (w'.doc == Some(w.doc.value.(state := Rejected)) && w'.escapes == w.escapes + 1)
  {
    var s: Step :| Enabled(s, w) && w' == Effect(s, w);
    if s.Do? {
      assert s.save.Escape?;
    }
  }

  // ---------- Gates ----------

  /** This step is the human approval of `media[kind]`. */
  ghost predicate IsApproval(w: World, w': World, kind: Kind, media: map<Kind, Media>) {
    && w.doc.Some? && w'.doc.Some?
    && w.doc.value.state == Expects(kind) && w'.doc.value.state == AfterApproval(kind)
    && w.doc.value.media == media && w'.doc.value.media == media
    && GateBinds(w'.doc.value, kind)
  }

  lemma OnlyApprovalEnters(s: Save, policy: Policy, d: Document, kind: Kind)
    requires MaySave(s, policy, d) && Saved(s, policy, d).state == AfterApproval(kind)
    ensures s.Decide? && s.kind == kind && s.approved
  {
  }

  lemma DecisionIsApproval(policy: Policy, d: Document, kind: Kind, reviewer: string)
    requires GatesMatchState(d) && MaySave(Decide(kind, reviewer, true), policy, d)
    ensures var e := Decided(d, kind, reviewer, true);
      GateBinds(e, kind) && e.media == d.media
  {
  }

  lemma EntersByApproval(w: World, w': World, kind: Kind)
    requires Inv(w) && Next(w, w') && w'.doc.Some? && w'.doc.value.state == AfterApproval(kind)
    ensures w.doc == w'.doc || IsApproval(w, w', kind, w'.doc.value.media)
  {
    var s: Step :| Enabled(s, w) && w' == Effect(s, w);
    DocumentAfter(s, w);
    hide Effect, MaySave, CheckAllows, Saved, CallsBounded, Core, GatesMatchState, CompleteWhenDone;
    if s.Do? {
      OnlyApprovalEnters(s.save, w.policy, w.doc.value, kind);
      DecisionIsApproval(w.policy, w.doc.value, kind, s.save.reviewer);
    }
  }

  lemma ApprovedHasGates(run: seq<World>, j: nat, kind: Kind)
    requires IsRunnerRun(run) && j < |run|
    requires run[j].doc.Some? && run[j].doc.value.state == AfterApproval(kind)
    ensures run[j].doc.value.gates != map[]
  {
    HoldsAt(run, j);
    assert GatesMatchState(run[j].doc.value);
    assert Thumbnail in run[j].doc.value.gates;
  }

  lemma ApprovalOrSame(run: seq<World>, j: nat, kind: Kind)
    requires IsRunnerRun(run) && j + 1 < |run|
    requires run[j + 1].doc.Some? && run[j + 1].doc.value.state == AfterApproval(kind)
    ensures run[j].doc == run[j + 1].doc || IsApproval(run[j], run[j + 1], kind, run[j + 1].doc.value.media)
  {
    HoldsAt(run, j);
    StepAt(Init, Next, run, j);
    EntersByApproval(run[j], run[j + 1], kind);
  }

  /** A state that only an approval of `kind` enters was entered by one. */
  lemma {:induction false} ApprovalHappened(run: seq<World>, i: nat, j: nat, kind: Kind) returns (a: nat)
    requires IsRunnerRun(run) && i <= j < |run|
    requires run[i].doc.Some? && run[i].doc.value.gates == map[]
    requires run[j].doc.Some? && run[j].doc.value.state == AfterApproval(kind)
    ensures i <= a < j && IsApproval(run[a], run[a + 1], kind, run[j].doc.value.media)
    decreases j
  {
    ApprovedHasGates(run, j, kind);
    ApprovalOrSame(run, j - 1, kind);
    if run[j - 1].doc == run[j].doc {
      a := ApprovalHappened(run, i, j - 1, kind);
    } else {
      a := j - 1;
    }
  }

  /** A document without gates, such as the one `add_successors` saves, reaches
      READY_TO_PUBLISH only through fresh approvals of both staged artifacts, thumbnail first. */
  lemma BothGatesArePassedAgain(run: seq<World>, i: nat, j: nat) returns (a: nat, b: nat)
    requires IsRunnerRun(run) && i <= j < |run|
    requires run[i].doc.Some? && run[i].doc.value.gates == map[]
    requires run[j].doc.Some? && run[j].doc.value.state == ReadyToPublish
    ensures i <= a < b < j
    ensures IsApproval(run[a], run[a + 1], Thumbnail, run[j].doc.value.media)
    ensures IsApproval(run[b], run[b + 1], Video, run[j].doc.value.media)
  {
    b := ApprovalHappened(run, i, j, Video);
    a := ApprovalHappened(run, i, b, Thumbnail);
  }
}
