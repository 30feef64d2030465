/** The lineage of successor jobs, for episodes whose started jobs replace nothing: a forest
    whose leaves are the active jobs, one scene per tree, every edge justified by a verdict. */
module Lineage {
  import opened Wrappers
  import opened Artifacts
  import opened JobGraph
  import opened RunnerModel
  import opened Runs

  /** A hero follows an approved first take; a remediation follows a refused job. Nothing else
      follows anything. */
  predicate Justified(qa: map<RequestId, Verdict>, predecessor: Job, category: Category) {
    && predecessor.requestId in qa
    && (category == Hero || category == Alternative || category == Correction || category == HeroRetry)
    && (category == Hero ==> qa[predecessor.requestId].Pass? && predecessor.category == First)
    && (category != Hero ==> qa[predecessor.requestId].Fail?)
  }

  /** Job `k` succeeds the earlier job `p`, with the verdict its category requires. */
  ghost predicate Succeeds(d: Document, p: int, k: int) {
    && 0 <= p < k < |d.specs|
    && d.specs[k].predecessor == Some(d.specs[p].requestId)
    && d.specs[k].scene == d.specs[p].scene
    && Justified(d.qa, d.specs[p], d.specs[k].category)
  }

  /** Which new jobs `add_successors` accepts, and what it then appends: a TEST job that names a
      bound predecessor of its own scene with the verdict its category needs, at an allowed
      endpoint, within the caps on one job and on the episode. */
  lemma AcceptedSuccessor(policy: Policy, d: Document, job: Job)
    requires Aligned(d) && forall i :: 0 <= i < |d.specs| ==> d.specs[i].requestId != job.requestId
    ensures var r := AddSuccessor(policy, d, job);
      && (r.Ok? <==>
            && job.mode == Test
            && job.endpoint in policy.allowedEndpoints && 0 < job.cost <= policy.episodeCap && job.cost <= policy.monthCap
            && TotalCost(d.specs) + job.cost <= policy.episodeCap
            && exists p :: 0 <= p < |d.specs| && job.predecessor == Some(d.specs[p].requestId)
                           && job.scene == d.specs[p].scene && Justified(d.qa, d.specs[p], job.category))
      && (r.Ok? ==>
            && r.value.specs == d.specs + [job] && |r.value.jobs| == |d.jobs| + 1
            && r.value.jobs[|d.jobs|] == Binding(job.requestId, JobDigest(job), None)
            && (forall i :: 0 <= i < |d.jobs| ==>
                  r.value.jobs[i] == if job.predecessor == Some(d.jobs[i].requestId)
                                     then d.jobs[i].(supersededBy := Some(job.requestId)) else d.jobs[i]))
  {
    if job.predecessor.Some? {
      var q := IndexOf(d.specs, job.predecessor.value);
      if q < |d.specs| {
        forall i | 0 <= i < |d.specs| && d.specs[i].requestId == job.predecessor.value ensures i == q {
          assert Ids(d.specs)[i] == Ids(d.specs)[q];
        }
      }
    }
  }

  ghost predicate HasParent(d: Document, k: int) {
    exists p :: Succeeds(d, p, k)
  }

  ghost predicate ReplacedBy(d: Document, p: int, id: RequestId) {
    exists k :: Succeeds(d, p, k) && d.specs[k].requestId == id
  }

  ghost predicate ParentsExist(d: Document) {
    forall k :: 0 <= k < |d.specs| && d.specs[k].predecessor.Some? ==> HasParent(d, k)
  }

  ghost predicate MarksAreEdges(d: Document) {
    forall p :: 0 <= p < |d.jobs| && d.jobs[p].supersededBy.Some? ==> ReplacedBy(d, p, d.jobs[p].supersededBy.value)
  }

  ghost predicate EdgesAreMarked(d: Document) {
    forall p, k :: Succeeds(d, p, k) ==> p < |d.jobs| && d.jobs[p].supersededBy.Some?
  }

  ghost predicate LineageSound(d: Document) {
    Aligned(d) && ParentsExist(d) && MarksAreEdges(d) && EdgesAreMarked(d)
  }

  ghost predicate Fresh(jobs: seq<Job>) {
    forall i :: 0 <= i < |jobs| ==> jobs[i].predecessor.None?
  }

  /** A step of a runner whose episode was started with jobs that replace nothing. */
  ghost predicate FreshNext(w: World, w': World) {
    exists s: Step :: Enabled(s, w) && w' == Effect(s, w) && (s.Start? ==> Fresh(s.jobs))
  }

  ghost predicate LineageInv(w: World) {
    w.doc.Some? ==> LineageSound(w.doc.value)
  }

  /** Edges survive when jobs are appended and verdicts added. */
  ghost predicate Preserves(d: Document, e: Document) {
    && d.specs <= e.specs
    && forall id :: id in d.qa ==> id in e.qa && e.qa[id] == d.qa[id]
  }

  lemma SucceedsSurvives(d: Document, e: Document, p: int, k: int)
    requires Preserves(d, e) && Succeeds(d, p, k)
    ensures Succeeds(e, p, k)
  {
    assert e.specs[p] == d.specs[p] && e.specs[k] == d.specs[k];
  }

  lemma ParentSurvives(d: Document, e: Document, k: int)
    requires Preserves(d, e) && HasParent(d, k)
    ensures HasParent(e, k)
  {
    var q :| Succeeds(d, q, k);
    SucceedsSurvives(d, e, q, k);
  }

  lemma ReplacementSurvives(d: Document, e: Document, p: int, id: RequestId)
    requires Preserves(d, e) && ReplacedBy(d, p, id)
    ensures ReplacedBy(e, p, id)
  {
    var k :| Succeeds(d, p, k) && d.specs[k].requestId == id;
    SucceedsSurvives(d, e, p, k);
    assert e.specs[k] == d.specs[k];
  }

  lemma SameIdSameIndex(d: Document, p: nat, q: nat)
    requires Aligned(d) && p < |d.specs| && q < |d.specs| && d.specs[p].requestId == d.specs[q].requestId
    ensures p == q
  {
    assert Ids(d.specs)[p] == Ids(d.specs)[q];
  }

  lemma AppendKeepsEdges(d: Document, p: nat, job: Job)
    requires LineageSound(d) && p < |d.specs| && IndexOf(d.specs, job.requestId) == |d.specs|
    requires job.predecessor == Some(d.specs[p].requestId) && job.scene == d.specs[p].scene
    requires Justified(d.qa, d.specs[p], job.category)
    ensures LineageSound(Append(d, p, job))
  {
    var e, n := Append(d, p, job), |d.specs|;
    AppendAligned(d, p, job);
    assert Preserves(d, e);
    assert Succeeds(e, p, n) && e.specs[n] == job;
    forall k | 0 <= k < n && d.specs[k].predecessor.Some? ensures HasParent(e, k) {
      ParentSurvives(d, e, k);
    }
    forall q | 0 <= q < n && q != p && d.jobs[q].supersededBy.Some?
      ensures ReplacedBy(e, q, d.jobs[q].supersededBy.value)
    {
      ReplacementSurvives(d, e, q, d.jobs[q].supersededBy.value);
    }
    assert ReplacedBy(e, p, job.requestId);
    AppendMarksEdges(d, p, job);
  }

  lemma AppendMarksEdges(d: Document, p: nat, job: Job)
    requires LineageSound(d) && p < |d.specs| && job.predecessor == Some(d.specs[p].requestId)
    ensures EdgesAreMarked(Append(d, p, job))
  {
    var e, n := Append(d, p, job), |d.specs|;
    forall q, k | Succeeds(e, q, k) ensures e.jobs[q].supersededBy.Some? {
      if k < n {
        assert Succeeds(d, q, k);
      } else {
        SameIdSameIndex(d, q, p);
      }
    }
  }

  lemma {:induction false} SuccessorsKeepLineage(policy: Policy, d: Document, jobs: seq<Job>)
    requires LineageSound(d)
    ensures var r := AddSuccessors(policy, d, jobs); r.Ok? ==> LineageSound(r.value)
    decreases |jobs|
  {
    if jobs != [] {
      SuccessorsKeepLineage(policy, d, jobs[..|jobs| - 1]);
      var before := AddSuccessors(policy, d, jobs[..|jobs| - 1]);
      var job := jobs[|jobs| - 1];
      if before.Ok? && AddSuccessor(policy, before.value, job).Ok?
         && IndexOf(before.value.specs, job.requestId) == |before.value.specs| {
        AppendKeepsEdges(before.value, IndexOf(before.value.specs, job.predecessor.value), job);
      }
    }
  }

  /** A new verdict makes no job a successor that was not one: its parent was judged before. */
  lemma NewVerdictAddsNoEdge(d: Document, e: Document, p: int, k: int)
    requires LineageSound(d) && e.specs == d.specs && Succeeds(e, p, k)
    ensures Succeeds(d, p, k)
  {
    assert HasParent(d, k);
    var q: int :| Succeeds(d, q, k);
    SameIdSameIndex(d, p, q);
  }

  /** Lineage only reads the jobs and the verdicts already there. */
  lemma SameJobsKeepLineage(d: Document, e: Document)
    requires LineageSound(d) && e.jobs == d.jobs && e.specs == d.specs && Preserves(d, e)
    ensures LineageSound(e)
  {
    forall k | 0 <= k < |e.specs| && e.specs[k].predecessor.Some? ensures HasParent(e, k) {
      ParentSurvives(d, e, k);
    }
    forall q | 0 <= q < |e.jobs| && e.jobs[q].supersededBy.Some?
      ensures ReplacedBy(e, q, e.jobs[q].supersededBy.value)
    {
      ReplacementSurvives(d, e, q, e.jobs[q].supersededBy.value);
    }
    forall p, k | Succeeds(e, p, k) ensures p < |e.jobs| && e.jobs[p].supersededBy.Some? {
      NewVerdictAddsNoEdge(d, e, p, k);
    }
  }

  lemma SaveKeepsLineage(s: Save, policy: Policy, d: Document)
    requires LineageSound(d) && MaySave(s, policy, d)
    ensures LineageSound(Saved(s, policy, d))
  {
    var e := Saved(s, policy, d);
    if s.Extend? {
      SuccessorsKeepLineage(policy, d, s.successors);
      SameJobsKeepLineage(AddSuccessors(policy, d, s.successors).value, e);
    } else {
      SameJobsKeepLineage(d, e);
    }
  }

  lemma StartHasNoEdges(policy: Policy, packet: Sha256, jobs: seq<Job>, scheduler: Scheduler)
    requires Fresh(jobs) && StartDocument(policy, packet, jobs, scheduler).Ok?
    ensures LineageSound(StartDocument(policy, packet, jobs, scheduler).value)
  {
  }

  lemma FreshStepKeepsLineage(w: World, w': World)
    requires LineageInv(w) && FreshNext(w, w')
    ensures LineageInv(w')
  {
    var s: Step :| Enabled(s, w) && w' == Effect(s, w) && (s.Start? ==> Fresh(s.jobs));
    match s
    case Start(packet, jobs, scheduler) => StartHasNoEdges(w.policy, packet, jobs, scheduler);
    case Do(save) => SaveKeepsLineage(save, w.policy, w.doc.value);
    case Disturb(_) | Look | Inspect(_) | Detect(_) | Call | Crash =>
    case Confirm => SameJobsKeepLineage(w.doc.value, w'.doc.value);
  }

  /** In every document a fresh episode can reach, the lineage is sound. */
  lemma LineageHoldsAt(run: seq<World>, i: nat)
    requires IsRun(Init, FreshNext, run) && i < |run| && run[i].doc.Some?
    ensures LineageSound(run[i].doc.value)
  {
    forall w, w' | LineageInv(w) && FreshNext(w, w') ensures LineageInv(w') {
      FreshStepKeepsLineage(w, w');
    }
    InvariantAt(Init, FreshNext, LineageInv, run, i);
  }

  // ---------- What a sound lineage means ----------

  /** The active jobs are exactly those no job names as its predecessor. */
  lemma ActiveAreLeaves(d: Document, p: nat)
    requires LineageSound(d) && p < |d.jobs|
    ensures d.jobs[p].supersededBy.None? <==>
      forall k :: 0 <= k < |d.specs| ==> d.specs[k].predecessor != Some(d.specs[p].requestId)
  {
    if k :| 0 <= k < |d.specs| && d.specs[k].predecessor == Some(d.specs[p].requestId) {
      assert HasParent(d, k);
      var q: int :| Succeeds(d, q, k);
      SameIdSameIndex(d, p, q);
    }
    if d.jobs[p].supersededBy.Some? {
      var k: int :| Succeeds(d, p, k) && d.specs[k].requestId == d.jobs[p].supersededBy.value;
    }
  }

  /** Following predecessors from any job ends at a started job of the same scene, each
      step justified by the verdict its category demands. */
  lemma {:induction false} ChainReachesRoot(d: Document, k: nat) returns (chain: seq<nat>)
    requires LineageSound(d) && k < |d.specs|
    ensures chain != [] && chain[|chain| - 1] == k
    ensures forall i :: 0 <= i < |chain| ==> chain[i] < |d.specs| && d.specs[chain[i]].scene == d.specs[k].scene
    ensures forall i :: 0 <= i < |chain| - 1 ==> Succeeds(d, chain[i], chain[i + 1])
    ensures d.specs[chain[0]].predecessor.None?
    decreases k
  {
    hide Justified, Aligned, MarksAreEdges, EdgesAreMarked;
    if d.specs[k].predecessor.None? {
      chain := [k];
    } else {
      assert HasParent(d, k);
      var p: int :| Succeeds(d, p, k);
      var above := ChainReachesRoot(d, p);
      chain := above + [k];
    }
  }
}
