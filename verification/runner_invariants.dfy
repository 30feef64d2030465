/** What every step of the two-gate runner keeps, and what follows for whole runs. */
module RunnerInvariants {
  import opened Wrappers
  import opened Artifacts
  import opened Texts
  import opened JobGraph
  import opened RunnerModel

  // ---------- The invariant ----------

  ghost predicate WithinBudget(policy: Policy, d: Document) {
    && TotalCost(d.specs) <= policy.episodeCap
    && forall i :: 0 <= i < |d.specs| ==> d.specs[i].mode == Test && Authorized(policy, d.specs[i])
  }

  /** Every verdict belongs to a job of the episode, was reached after approval of all the
      job's dependencies, and is independent of the generator when it approves. */
  ghost predicate Judged(d: Document) {
    && (forall id :: id in d.qa ==> IndexOf(d.specs, id) < |d.specs| && Independent(d.qa[id]))
    && (forall i :: 0 <= i < |d.specs| && d.specs[i].requestId in d.qa ==>
          AllApproved(d.qa, DependencySet(d.specs[i])))
  }

  ghost predicate SupersededJudged(d: Document) {
    forall i :: 0 <= i < |d.jobs| && d.jobs[i].supersededBy.Some? ==> d.jobs[i].requestId in d.qa
  }

  /** The part of the invariant that does not mention the state. */
  ghost predicate Core(policy: Policy, d: Document) {
    Aligned(d) && WithinBudget(policy, d) && Judged(d) && SupersededJudged(d)
  }

  ghost predicate GateBinds(d: Document, kind: Kind) {
    && kind in d.gates && kind in d.media
    && d.gates[kind].approved && !Blank(d.gates[kind].reviewer)
    && d.gates[kind].path == d.media[kind].path
    && d.gates[kind].sha256 == d.media[kind].sha256
  }

  ghost predicate GatesMatchState(d: Document) {
    && (d.state in {Ready, Running, MediaPending, WaitingThumbnail} ==> d.gates == map[])
    && (d.state in {WaitingThumbnail, WaitingVideo, ReadyToPublish, PublishIntent, Published} ==>
          d.media.Keys == {Thumbnail, Video} && d.delivery == map k | k in d.media :: d.media[k].sha256)
    && (d.state in {WaitingVideo, ReadyToPublish, PublishIntent, Published} ==> GateBinds(d, Thumbnail))
    && (d.state in {ReadyToPublish, PublishIntent, Published} ==> GateBinds(d, Video))
    && (d.state in {PublishIntent, Published} ==> d.publicationIntent == Some(PackageOf(d.gates)))
  }

  /** Past the scheduler the jobs have an order, every job has a verdict and every active one
      is approved. */
  ghost predicate CompleteWhenDone(d: Document) {
    d.state !in {Ready, Running, Rejected} ==>
      OrderOf(d.specs).Ok? && AllJudged(d.specs, d.qa) && ActiveApproved(d.jobs, d.qa)
  }

  ghost predicate Sound(policy: Policy, d: Document) {
    Core(policy, d) && GatesMatchState(d) && CompleteWhenDone(d)
  }

  /** The publisher has been called at most once more than a finished publication was
      thrown away by a failed re-validation. */
  ghost predicate CallsBounded(w: World) {
    var committed := w.doc.Some? && Committed(w.doc.value);
    && |w.published| <= w.escapes + (if committed && !w.publisher.Armed? then 1 else 0)
    && (!w.publisher.Idle? ==>
          w.doc.Some? && w.doc.value.state == PublishIntent &&
          w.doc.value.publicationIntent == Some(w.publisher.package))
  }

  ghost predicate Inv(w: World) {
    (w.doc.Some? ==> Sound(w.policy, w.doc.value)) && CallsBounded(w)
  }

  // ---------- One step ----------

  lemma StartSound(policy: Policy, packet: Sha256, jobs: seq<Job>, scheduler: Scheduler)
    ensures var r := StartDocument(policy, packet, jobs, scheduler); r.Ok? ==> Sound(policy, r.value)
  {
  }

  lemma AppendKeepsSuperseded(d: Document, p: nat, job: Job)
    requires Aligned(d) && SupersededJudged(d)
    requires p < |d.specs| && d.specs[p].requestId in d.qa
    ensures SupersededJudged(Append(d, p, job))
  {
  }

  lemma AppendKeepsJudged(d: Document, p: nat, job: Job)
    requires Aligned(d) && Judged(d) && p < |d.specs|
    requires IndexOf(d.specs, job.requestId) == |d.specs|
    ensures Judged(Append(d, p, job))
  {
    var e := Append(d, p, job);
    forall id | id in d.qa ensures IndexOf(e.specs, id) < |e.specs| {
      assert e.specs[IndexOf(d.specs, id)].requestId == id;
    }
    assert job.requestId !in d.qa;
  }

  lemma AppendKeepsCore(policy: Policy, d: Document, p: nat, job: Job)
    requires Core(policy, d) && p < |d.specs| && d.specs[p].requestId in d.qa
    requires IndexOf(d.specs, job.requestId) == |d.specs|
    requires job.mode == Test && Authorized(policy, job) && TotalCost(d.specs) + job.cost <= policy.episodeCap
    ensures Core(policy, Append(d, p, job))
  {
    AppendAligned(d, p, job);
    AppendKeepsJudged(d, p, job);
    AppendKeepsSuperseded(d, p, job);
    assert Append(d, p, job).specs[..|d.specs|] == d.specs;
  }

  /** One accepted successor: what was there stays, and the new job has no verdict yet. */
  lemma SuccessorKeepsCore(policy: Policy, d: Document, job: Job)
    requires Core(policy, d)
    ensures var r := AddSuccessor(policy, d, job); r.Ok? ==>
      Core(policy, r.value) && r.value.qa == d.qa && d.specs <= r.value.specs
  {
    if AddSuccessor(policy, d, job).Ok? && IndexOf(d.specs, job.requestId) == |d.specs| {
      AppendKeepsCore(policy, d, IndexOf(d.specs, job.predecessor.value), job);
    }
  }

  lemma {:induction false} SuccessorsKeepCore(policy: Policy, d: Document, jobs: seq<Job>)
    requires Core(policy, d)
    ensures var r := AddSuccessors(policy, d, jobs); r.Ok? ==>
      Core(policy, r.value) && r.value.qa == d.qa && d.specs <= r.value.specs
    decreases |jobs|
  {
    if jobs != [] {
      SuccessorsKeepCore(policy, d, jobs[..|jobs| - 1]);
      var before := AddSuccessors(policy, d, jobs[..|jobs| - 1]);
      if before.Ok? {
        SuccessorKeepsCore(policy, before.value, jobs[|jobs| - 1]);
      }
    }
  }

  /** A verdict is recorded once, after those of the dependencies, so none is disturbed. */
  lemma RecordKeepsJudged(d: Document, k: nat, v: Verdict)
    requires Aligned(d) && Judged(d) && k < |d.specs| && d.specs[k].requestId !in d.qa && Independent(v)
    requires AllApproved(d.qa, DependencySet(d.specs[k]))
    ensures Judged(d.(qa := d.qa[d.specs[k].requestId := v]))
  {
    var id := d.specs[k].requestId;
    forall i | 0 <= i < |d.specs| && d.specs[i].requestId == id ensures i == k {
      assert Ids(d.specs)[i] == Ids(d.specs)[k];
    }
  }

  lemma RecordSound(id: RequestId, v: Verdict, policy: Policy, d: Document)
    requires Sound(policy, d) && MaySave(Record(id, v), policy, d)
    ensures Sound(policy, Saved(Record(id, v), policy, d))
  {
    RecordKeepsJudged(d, IndexOf(d.specs, id), v);
  }

  lemma ExtendSound(jobs: seq<Job>, policy: Policy, d: Document)
    requires Sound(policy, d) && MaySave(Extend(jobs), policy, d)
    ensures Sound(policy, Saved(Extend(jobs), policy, d))
  {
    SuccessorsKeepCore(policy, d, jobs);
  }

  lemma StateSaveSound(s: Save, policy: Policy, d: Document)
    requires s.Begin? || s.Reject? || s.Finish? || s.Escape? || s.StageReject?
    requires Sound(policy, d) && MaySave(s, policy, d)
    ensures Sound(policy, Saved(s, policy, d))
  {
  }

  /** The part that does not mention the state mentions no gate or media either. */
  lemma SameCore(policy: Policy, d: Document, e: Document)
    requires Core(policy, d) && e.specs == d.specs && e.jobs == d.jobs && e.qa == d.qa
    ensures Core(policy, e)
  {
  }

  lemma GateSaveSound(s: Save, policy: Policy, d: Document)
    requires s.Stage? || s.Decide? || s.Intend?
    requires Sound(policy, d) && MaySave(s, policy, d)
    ensures Sound(policy, Saved(s, policy, d))
  {
    hide Core, AllJudged, ActiveApproved, OrderOf;
    SameCore(policy, d, Saved(s, policy, d));
  }

  lemma SaveSound(s: Save, policy: Policy, d: Document)
    requires Sound(policy, d) && MaySave(s, policy, d)
    ensures Sound(policy, Saved(s, policy, d))
  {
    match s
    case Extend(jobs) => ExtendSound(jobs, policy, d);
    case Record(id, v) => RecordSound(id, v, policy, d);
    case Stage(_, _) | Decide(_, _, _) | Intend => GateSaveSound(s, policy, d);
    case Begin | Reject | Finish | Escape(_) | StageReject => StateSaveSound(s, policy, d);
  }

  lemma ConfirmSound(policy: Policy, d: Document)
    requires Sound(policy, d) && d.state == PublishIntent
    ensures Sound(policy, d.(state := Published))
  {
  }

  lemma StepKeepsSound(s: Step, w: World)
    requires Enabled(s, w) && Inv(w)
    ensures Effect(s, w).doc.Some? ==> Sound(w.policy, Effect(s, w).doc.value)
  {
    match s
    case Start(packet, jobs, scheduler) => StartSound(w.policy, packet, jobs, scheduler);
    case Do(save) => SaveSound(save, w.policy, w.doc.value);
    case Disturb(_) | Look | Inspect(_) | Detect(_) | Call | Crash =>
    case Confirm => ConfirmSound(w.policy, w.doc.value);
  }

  lemma StepKeepsCalls(s: Step, w: World)
    requires Enabled(s, w) && CallsBounded(w)
    ensures CallsBounded(Effect(s, w))
  {
  }

  lemma StepKeepsInv(w: World, w': World)
    requires Inv(w) && Next(w, w')
    ensures Inv(w')
  {
    var s: Step :| Enabled(s, w) && w' == Effect(s, w);
    StepKeepsSound(s, w);
    StepKeepsCalls(s, w);
  }
}
