/** `add_successors` does not check the dependency graph again. These lemmas say exactly when
    the grown job list still has a topological order, so when the next resume finds one. */
module SuccessorGraph {
  import opened Wrappers
  import opened SortedSets
  import opened JobGraph
  import opened RunnerModel

  /** The jobs after the first `n`. */
  function NewJobs(specs: seq<Job>, n: nat): seq<Job>
    requires n <= |specs|
  {
    specs[n..]
  }

  /** Edges that leave a closed set of nodes never come back out of it. */
  lemma {:induction false} WalkStays(g: Graph, inside: set<RequestId>, p: seq<RequestId>, i: nat, j: nat)
    requires IsWalk(g, p) && i <= j < |p| && p[i] in inside
    requires forall id :: id in inside && id in g ==> g[id] <= inside
    ensures p[j] in inside
    decreases j
  {
    if i < j {
      WalkStays(g, inside, p, i, j - 1);
      assert p[j - 1 + 1] in g[p[j - 1]];
    }
  }

  /** The graph of a part of the jobs agrees with the graph of all of them. */
  lemma PartAgrees(part: seq<Job>, whole: seq<Job>)
    requires Distinct(Ids(part)) && Distinct(Ids(whole))
    requires forall j :: j in part ==> j in whole
    ensures forall id :: id in IdSet(part) ==>
      id in GraphOf(part) && id in GraphOf(whole) && GraphOf(part)[id] == GraphOf(whole)[id]
  {
    forall id | id in IdSet(part)
      ensures id in GraphOf(part) && id in GraphOf(whole) && GraphOf(part)[id] == GraphOf(whole)[id]
    {
      var k :| 0 <= k < |part| && Ids(part)[k] == id;
      assert part[k] in part && part[k] in whole;
      var l :| 0 <= l < |whole| && whole[l] == part[k];
      GraphAt(part, k);
      GraphAt(whole, l);
    }
  }

  lemma PartsOf(base: seq<Job>, added: seq<Job>)
    requires Distinct(Ids(base + added))
    ensures Distinct(Ids(base)) && Distinct(Ids(added)) && IdSet(base) !! IdSet(added)
    ensures IdSet(base + added) == IdSet(base) + IdSet(added)
    ensures (forall j :: j in base ==> j in base + added) && (forall j :: j in added ==> j in base + added)
  {
    var all := Ids(base + added);
    assert all == Ids(base) + Ids(added);
    forall x, y | x in Ids(base) && y in Ids(added) ensures x != y {
      var k :| 0 <= k < |base| && Ids(base)[k] == x;
      var l :| 0 <= l < |added| && Ids(added)[l] == y;
      assert all[k] == x && all[|base| + l] == y;
    }
    assert forall i :: 0 <= i < |added| ==> Ids(added)[i] == all[|base| + i];
    assert forall i :: 0 <= i < |base| ==> Ids(base)[i] == all[i];
  }

  /** A cycle of a part is one of the whole. */
  lemma PartCycle(part: seq<Job>, whole: seq<Job>, p: seq<RequestId>)
    requires Distinct(Ids(part)) && Distinct(Ids(whole)) && (forall j :: j in part ==> j in whole)
    requires IsCycle(GraphOf(part), p)
    ensures IsCycle(GraphOf(whole), p)
  {
    PartAgrees(part, whole);
    GraphKeys(part);
    assert forall i :: 0 <= i < |p| ==> p[i] in GraphOf(part);
  }

  /** A cycle of the whole whose nodes all lie in a part is one of the part. */
  lemma WholeCycle(part: seq<Job>, whole: seq<Job>, p: seq<RequestId>)
    requires Distinct(Ids(part)) && Distinct(Ids(whole)) && (forall j :: j in part ==> j in whole)
    requires IsCycle(GraphOf(whole), p) && forall i :: 0 <= i < |p| ==> p[i] in IdSet(part)
    ensures IsCycle(GraphOf(part), p)
  {
    PartAgrees(part, whole);
  }

  /** With the old jobs bound among themselves, a cycle lies among the old jobs or among the
      added ones. */
  lemma CycleIsApart(base: seq<Job>, added: seq<Job>, p: seq<RequestId>)
    requires Distinct(Ids(base + added)) && Distinct(Ids(base)) && AllBound(base)
    requires IsCycle(GraphOf(base + added), p)
    ensures HasCycle(GraphOf(base)) || HasCycle(GraphOf(added))
  {
    var g := GraphOf(base + added);
    PartsOf(base, added);
    BoundIsClosed(base);
    PartAgrees(base, base + added);
    GraphKeys(base);
    GraphKeys(base + added);
    assert forall id :: id in IdSet(base) && id in g ==> g[id] <= IdSet(base);
    if i :| 0 <= i < |p| && p[i] in IdSet(base) {
      WalkStays(g, IdSet(base), p, i, |p| - 1);
      forall j: nat | j < |p| ensures p[j] in IdSet(base) {
        WalkStays(g, IdSet(base), p, 0, j);
      }
      WholeCycle(base, base + added, p);
    } else {
      forall j: nat | j < |p| ensures p[j] in IdSet(added) {
        assert p[j] in g;
      }
      WholeCycle(added, base + added, p);
    }
  }

  /** The condition on the added jobs alone: each depends on jobs of the grown list, and they
      do not depend on each other in a circle. */
  ghost predicate AddedInOrder(base: seq<Job>, added: seq<Job>) {
    (forall j :: j in added ==> BoundDependencies(j, IdSet(base + added))) && !HasCycle(GraphOf(added))
  }

  lemma GrownIsBound(base: seq<Job>, added: seq<Job>)
    requires Distinct(Ids(base + added)) && AllBound(base)
    ensures AllBound(base + added) <==> forall j :: j in added ==> BoundDependencies(j, IdSet(base + added))
  {
    PartsOf(base, added);
    forall j | j in base ensures BoundDependencies(j, IdSet(base + added)) {
      assert BoundDependencies(j, IdSet(base));
    }
    assert forall j :: j in base + added ==> j in base || j in added;
  }

  /** A list with an order, grown by jobs with new ids, has an order exactly under that
      condition. */
  lemma GrownOrder(base: seq<Job>, added: seq<Job>)
    requires Distinct(Ids(base + added)) && OrderOf(base).Ok?
    ensures OrderOf(base + added).Ok? <==> AddedInOrder(base, added)
  {
    PartsOf(base, added);
    OrderOfSound(base);
    GrownIsBound(base, added);
    if AllBound(base + added) {
      OrderOfSound(base + added);
      if HasCycle(GraphOf(base + added)) {
        var p :| IsCycle(GraphOf(base + added), p);
        CycleIsApart(base, added, p);
      }
      if HasCycle(GraphOf(added)) {
        var p :| IsCycle(GraphOf(added), p);
        PartCycle(added, base + added, p);
      }
    }
  }

  // ---------- One successor ----------

  lemma LoneJobIsAcyclic(job: Job)
    requires job.requestId !in DependencySet(job)
    ensures !HasCycle(GraphOf([job]))
  {
    assert [job][..0] == [];
    assert GraphOf([job]) == map[job.requestId := DependencySet(job)];
    var g := GraphOf([job]);
    forall p: seq<RequestId> | |p| >= 2 ensures !IsWalk(g, p) {
      assert p[0] in g && p[1] in g ==> p[0 + 1] !in g[p[0]];
    }
  }

  /** One new job keeps the order exactly when its own dependencies are bound: a check that a
      caller can make on the job and the ids of the document. */
  lemma SuccessorOrder(d: Document, p: nat, job: Job)
    requires Aligned(d) && p < |d.jobs| && IndexOf(d.specs, job.requestId) == |d.specs| && OrderOf(d.specs).Ok?
    ensures OrderOf(Append(d, p, job).specs).Ok? <==> BoundDependencies(job, IdSet(d.specs + [job]))
  {
    AppendAligned(d, p, job);
    GrownOrder(d.specs, [job]);
    if BoundDependencies(job, IdSet(d.specs + [job])) {
      LoneJobIsAcyclic(job);
    }
  }

  /** Such jobs are accepted: the checks of `add_successors` do not look at the dependencies, so
      every acceptable successor is as acceptable with a malformed list of them. */
  lemma MalformedIsAccepted(policy: Policy, d: Document, job: Job)
    requires Aligned(d) && OrderOf(d.specs).Ok?
    requires AddSuccessor(policy, d, job).Ok? && IndexOf(d.specs, job.requestId) == |d.specs|
    ensures var r := AddSuccessor(policy, d, job.(dependsOn := Malformed));
      r.Ok? && OrderOf(r.value.specs) == Err(UnboundDependency)
  {
    var bad := job.(dependsOn := Malformed);
    var p := IndexOf(d.specs, job.predecessor.value);
    AppendAligned(d, p, bad);
    assert bad in Append(d, p, bad).specs && !BoundDependencies(bad, IdSet(Append(d, p, bad).specs));
  }

  // ---------- A list of successors ----------

  lemma {:induction false} SuccessorsExtend(policy: Policy, d: Document, jobs: seq<Job>)
    requires Aligned(d)
    ensures var r := AddSuccessors(policy, d, jobs); r.Ok? ==> d.specs <= r.value.specs
    decreases |jobs|
  {
    if jobs != [] {
      SuccessorsExtend(policy, d, jobs[..|jobs| - 1]);
    }
  }

  /** Accepted successors leave a document whose next resume finds an order exactly when the
      jobs that are new in it are bound and acyclic. */
  lemma SuccessorsOrder(policy: Policy, d: Document, jobs: seq<Job>)
    requires Aligned(d) && OrderOf(d.specs).Ok? && AddSuccessors(policy, d, jobs).Ok?
    ensures var e := AddSuccessors(policy, d, jobs).value;
      && d.specs <= e.specs
      && (OrderOf(e.specs).Ok? <==> AddedInOrder(d.specs, NewJobs(e.specs, |d.specs|)))
  {
    hide AddSuccessor, OrderOf, AddedInOrder;
    SuccessorsExtend(policy, d, jobs);
    var e := AddSuccessors(policy, d, jobs).value;
    assert e.specs == d.specs + NewJobs(e.specs, |d.specs|);
    GrownOrder(d.specs, NewJobs(e.specs, |d.specs|));
  }
}
