/** The job graph of an episode and its layered topological order
    (`_dependencies` and `_topological_order` of the autonomous runner). */
module JobGraph {
  import opened Wrappers
  import opened SortedSets

  /** Request ids are fixed-length hexadecimal digests, so comparing the strings is
      comparing the numbers they denote. */
  type RequestId = nat

  type Graph = map<RequestId, set<RequestId>>

  /** The `depends_on` entry of a job's payload. `Malformed` is any value that is not a
      list of strings. */
  datatype Depends = Absent | Malformed | Listed(ids: seq<RequestId>)

  datatype Mode = Test | Live

  datatype Category = First | Hero | Alternative | Correction | HeroRetry | OtherCategory

  /** Costs are whole micro-USD. */
  datatype Job = Job(requestId: RequestId, scene: string, category: Category, mode: Mode, endpoint: string,
                     dependsOn: Depends, cost: int, predecessor: Option<RequestId>)

  datatype GraphError = DuplicateIds | UnboundDependency | Cycle

  // ---------- Declared dependencies ----------

  function Ids(jobs: seq<Job>): (ids: seq<RequestId>)
    ensures |ids| == |jobs|
    ensures forall i :: 0 <= i < |jobs| ==> ids[i] == jobs[i].requestId
  {
    seq(|jobs|, i requires 0 <= i < |jobs| => jobs[i].requestId)
  }

  function IdSet(jobs: seq<Job>): set<RequestId> {
    set id | id in Ids(jobs)
  }

  function DeclaredIds(job: Job): seq<RequestId> {
    if job.dependsOn.Listed? then job.dependsOn.ids else []
  }

  /** The check `_dependencies` makes before it returns a job's dependencies. */
  predicate BoundDependencies(job: Job, known: set<RequestId>) {
    && !job.dependsOn.Malformed?
    && (forall d :: d in DeclaredIds(job) ==> d in known)
    && job.requestId !in DeclaredIds(job)
    && Distinct(DeclaredIds(job))
  }

  function DependencySet(job: Job): set<RequestId> {
    set d | d in DeclaredIds(job)
  }

  ghost predicate AllBound(jobs: seq<Job>) {
    forall j :: j in jobs ==> BoundDependencies(j, IdSet(jobs))
  }

  /** The dependency map of a job list; `GraphAt` reads it back. */
  ghost function GraphOf(jobs: seq<Job>): Graph {
    if jobs == [] then map[]
    else GraphOf(jobs[..|jobs| - 1])[jobs[|jobs| - 1].requestId := DependencySet(jobs[|jobs| - 1])]
  }

  lemma {:induction false} GraphKeys(jobs: seq<Job>)
    ensures GraphOf(jobs).Keys == IdSet(jobs)
  {
    if jobs != [] {
      GraphKeys(jobs[..|jobs| - 1]);
      assert Ids(jobs) == Ids(jobs[..|jobs| - 1]) + [jobs[|jobs| - 1].requestId];
    }
  }

  lemma {:induction false} GraphAt(jobs: seq<Job>, k: nat)
    requires Distinct(Ids(jobs)) && k < |jobs|
    ensures jobs[k].requestId in GraphOf(jobs)
    ensures GraphOf(jobs)[jobs[k].requestId] == DependencySet(jobs[k])
  {
    var last := |jobs| - 1;
    assert Ids(jobs)[k] == jobs[k].requestId && Ids(jobs)[last] == jobs[last].requestId;
    if k < last {
      assert Ids(jobs[..last]) == Ids(jobs)[..last];
      GraphAt(jobs[..last], k);
    }
  }

  // ---------- Order, by peeling layers ----------

  function Ready(g: Graph): set<RequestId> {
    set id | id in g && g[id] == {}
  }

  function Peel(g: Graph): Graph {
    map id | id in g && g[id] != {} :: g[id] - Ready(g)
  }

  lemma PeelShrinks(g: Graph)
    ensures Peel(g).Keys == g.Keys - Ready(g)
    ensures |Peel(g)| == |g| - |Ready(g)|
  {
    assert Ready(g) <= g.Keys;
    assert Peel(g).Keys == g.Keys - Ready(g);
    assert |Peel(g).Keys| == |g.Keys| - |Ready(g)|;
  }

  ghost function Order(g: Graph): Option<seq<RequestId>>
    decreases |g|
  {
    if g == map[] then Some([])
    else if Ready(g) == {} then None
    else
      PeelShrinks(g);
      Prefixed(Sorted(Ready(g)), Order(Peel(g)))
  }

  function Prefixed(done: seq<RequestId>, rest: Option<seq<RequestId>>): Option<seq<RequestId>> {
    if rest.Some? then Some(done + rest.value) else None
  }

  /** Every edge leads to a node of the graph. */
  ghost predicate Closed(g: Graph) {
    forall id :: id in g ==> g[id] <= g.Keys
  }

  /** `o` lists every node of `g` once, each after everything it depends on. */
  ghost predicate Schedules(g: Graph, o: seq<RequestId>) {
    Distinct(o) && Lists(g.Keys, o) && Backward(g, o)
  }

  ghost predicate Backward(g: Graph, o: seq<RequestId>) {
    forall i, j :: 0 <= i < |o| && 0 <= j < |o| && o[i] in g && o[j] in g[o[i]] ==> j < i
  }

  ghost predicate IsCycle(g: Graph, p: seq<RequestId>) {
    && |p| >= 2
    && p[0] == p[|p| - 1]
    && IsWalk(g, p)
  }

  ghost predicate IsWalk(g: Graph, p: seq<RequestId>) {
    && (forall i :: 0 <= i < |p| ==> p[i] in g)
    && (forall i :: 0 <= i < |p| - 1 ==> p[i + 1] in g[p[i]])
  }

  ghost predicate HasCycle(g: Graph) {
    exists p :: IsCycle(g, p)
  }

  lemma PeelClosed(g: Graph)
    requires Closed(g)
    ensures Closed(Peel(g))
  {
  }

  lemma {:induction false} OrderSchedules(g: Graph)
    requires Closed(g)
    requires Order(g).Some?
    ensures Schedules(g, Order(g).value)
    decreases |g|
  {
    if g != map[] {
      PeelShrinks(g);
      PeelClosed(g);
      OrderSchedules(Peel(g));
      SortedListsSet(Ready(g));
      LayerSchedules(g, Sorted(Ready(g)), Order(Peel(g)).value);
    }
  }

  /** One layer in front of a schedule of what it leaves. */
  lemma LayerSchedules(g: Graph, layer: seq<RequestId>, rest: seq<RequestId>)
    requires Lists(Ready(g), layer) && Distinct(layer)
    requires Schedules(Peel(g), rest)
    ensures Schedules(g, layer + rest)
  {
    LayerLists(g, layer, rest);
    LayerBackward(g, layer, rest);
  }

  lemma LayerLists(g: Graph, layer: seq<RequestId>, rest: seq<RequestId>)
    requires Lists(Ready(g), layer) && Distinct(layer)
    requires Lists(Peel(g).Keys, rest) && Distinct(rest)
    ensures Distinct(layer + rest) && Lists(g.Keys, layer + rest)
  {
    PeelSplits(g);
    Concatenation(Ready(g), Peel(g).Keys, g.Keys, layer, rest);
  }

  lemma PeelSplits(g: Graph)
    ensures forall x :: x in g.Keys <==> x in Ready(g) || x in Peel(g).Keys
    ensures forall x :: x in Ready(g) ==> x !in Peel(g).Keys
  {
  }

  lemma Concatenation(s: set<RequestId>, t: set<RequestId>, u: set<RequestId>, p: seq<RequestId>, q: seq<RequestId>)
    requires forall x :: x in u <==> x in s || x in t
    requires forall x :: x in s ==> x !in t
    requires Lists(s, p) && Lists(t, q) && Distinct(p) && Distinct(q)
    ensures Lists(u, p + q) && Distinct(p + q)
  {
    assert forall i, j :: 0 <= i < |p| && 0 <= j < |q| ==> p[i] in p && q[j] in q;
  }

  lemma LayerBackward(g: Graph, layer: seq<RequestId>, rest: seq<RequestId>)
    requires Lists(Ready(g), layer)
    requires Lists(Peel(g).Keys, rest) && Backward(Peel(g), rest)
    ensures Backward(g, layer + rest)
  {
    assert forall i :: 0 <= i < |layer| ==> layer[i] in layer;
    var o := layer + rest;
    forall i, j | 0 <= i < |o| && 0 <= j < |o| && o[i] in g && o[j] in g[o[i]] ensures j < i {
      assert i >= |layer|;
      if j >= |layer| {
        var a, b := rest[i - |layer|], rest[j - |layer|];
        assert a in rest && b in rest;
        assert b in Peel(g)[a];
      }
    }
  }

  // ---------- No order exactly when there is a cycle ----------

  /** A graph without a ready node can be walked for any number of steps. */
  lemma {:induction false} EndlessWalk(g: Graph, n: nat) returns (p: seq<RequestId>)
    requires Closed(g) && g != map[] && Ready(g) == {}
    ensures |p| == n + 1 && IsWalk(g, p)
  {
    if n == 0 {
      var id :| id in g;
      p := [id];
    } else {
      var q := EndlessWalk(g, n - 1);
      var last := q[n - 1];
      assert last in g && last !in Ready(g);
      var d :| d in g[last];
      p := q + [d];
      forall i | 0 <= i < |p| - 1 ensures p[i + 1] in g[p[i]] {
        if i < n - 1 {
          assert q[i + 1] in g[q[i]];
        }
      }
    }
  }

  /** More entries than values: two entries agree. */
  lemma {:induction false} Pigeonhole(p: seq<RequestId>, s: set<RequestId>) returns (i: nat, j: nat)
    requires |p| > |s|
    requires forall k :: 0 <= k < |p| ==> p[k] in s
    ensures i < j < |p| && p[i] == p[j]
    decreases |p|
  {
    var last := |p| - 1;
    if k :| 0 <= k < last && p[k] == p[last] {
      i, j := k, last;
    } else {
      assert p[last] in s;
      i, j := Pigeonhole(p[..last], s - {p[last]});
    }
  }

  lemma StuckHasCycle(g: Graph)
    requires Closed(g) && g != map[] && Ready(g) == {}
    ensures HasCycle(g)
  {
    var p := EndlessWalk(g, |g|);
    var i, j := Pigeonhole(p, g.Keys);
    assert IsCycle(g, p[i..j + 1]);
  }

  lemma PeelCycle(g: Graph)
    requires HasCycle(Peel(g))
    ensures HasCycle(g)
  {
    var p :| IsCycle(Peel(g), p);
    assert IsCycle(g, p);
  }

  /** A schedule leaves no room for a cycle: positions fall along every walk. */
  lemma {:induction false} PositionsFall(g: Graph, o: seq<RequestId>, p: seq<RequestId>, k: nat, first: nat)
      returns (pos: nat)
    requires Schedules(g, o) && IsWalk(g, p) && k < |p|
    requires first < |o| && o[first] == p[0]
    ensures pos < |o| && o[pos] == p[k] && pos + k <= first
  {
    if k == 0 {
      pos := first;
    } else {
      var before := PositionsFall(g, o, p, k - 1, first);
      assert p[k] in g[p[k - 1]];
      assert p[k] in o;
      pos :| 0 <= pos < |o| && o[pos] == p[k];
    }
  }

  lemma ScheduledWalkIsOpen(g: Graph, o: seq<RequestId>, p: seq<RequestId>)
    requires Schedules(g, o)
    ensures !IsCycle(g, p)
  {
    if IsCycle(g, p) {
      assert p[0] in o;
      var first :| 0 <= first < |o| && o[first] == p[0];
      var last := PositionsFall(g, o, p, |p| - 1, first);
    }
  }

  /** The order exists exactly when no chain of dependencies returns to its start. */
  lemma {:induction false} OrderExistsIffAcyclic(g: Graph)
    requires Closed(g)
    ensures Order(g).Some? <==> !HasCycle(g)
    decreases |g|
  {
    if Order(g).Some? {
      OrderSchedules(g);
      forall p ensures !IsCycle(g, p) {
        ScheduledWalkIsOpen(g, Order(g).value, p);
      }
    } else if Ready(g) == {} {
      StuckHasCycle(g);
    } else {
      PeelShrinks(g);
      PeelClosed(g);
      OrderExistsIffAcyclic(Peel(g));
      PeelCycle(g);
    }
  }

  // ---------- The runner's loop ----------

  lemma BoundIsClosed(jobs: seq<Job>)
    requires Distinct(Ids(jobs)) && AllBound(jobs)
    ensures Closed(GraphOf(jobs))
  {
    GraphKeys(jobs);
    forall id | id in GraphOf(jobs) ensures GraphOf(jobs)[id] <= IdSet(jobs) {
      var k :| 0 <= k < |jobs| && Ids(jobs)[k] == id;
      GraphAt(jobs, k);
      assert BoundDependencies(jobs[k], IdSet(jobs));
    }
  }

  /** A set built from a list is as large as the list exactly when nothing repeats. */
  lemma {:induction false} DistinctIffCardinality(q: seq<RequestId>, s: set<RequestId>)
    requires forall x :: x in s <==> x in q
    ensures |s| <= |q|
    ensures |s| == |q| <==> Distinct(q)
    decreases |q|
  {
    if q == [] {
      assert s == {};
    } else {
      var rest, last := q[..|q| - 1], q[|q| - 1];
      assert q == rest + [last];
      if last in rest {
        DistinctIffCardinality(rest, s);
      } else {
        DistinctIffCardinality(rest, s - {last});
        assert forall i :: 0 <= i < |rest| ==> q[i] in rest;
      }
    }
  }

  lemma IdSetGrows(jobs: seq<Job>, other: seq<Job>)
    requires forall j :: j in jobs ==> j in other
    ensures IdSet(jobs) <= IdSet(other)
  {
    forall id | id in IdSet(jobs) ensures id in IdSet(other) {
      var k :| 0 <= k < |jobs| && Ids(jobs)[k] == id;
      assert jobs[k] in other;
      var l :| 0 <= l < |other| && other[l] == jobs[k];
      assert Ids(other)[l] == id;
    }
  }

  /** What the order of a job list is, as a value: a refusal, or the order of its graph. */
  ghost function OrderOf(jobs: seq<Job>): Result<seq<RequestId>, GraphError> {
    if !Distinct(Ids(jobs)) then Err(DuplicateIds)
    else if !AllBound(jobs) then Err(UnboundDependency)
    else match Order(GraphOf(jobs))
      case None => Err(Cycle)
      case Some(o) => Ok(o)
  }

  /** Which lists are refused before any order is looked for, and in which way: first those with
      a repeated id, then those with a job whose dependencies are not a list, or name a job that
      is not there, the job itself, or one job twice. */
  lemma RefusedBeforeOrdering(jobs: seq<Job>)
    ensures OrderOf(jobs) == Err(DuplicateIds) <==>
      exists i, j :: 0 <= i < j < |jobs| && Ids(jobs)[i] == Ids(jobs)[j]
    ensures OrderOf(jobs) != Err(DuplicateIds) ==>
      (OrderOf(jobs) == Err(UnboundDependency) <==> exists j :: j in jobs && MisdeclaredIn(jobs, j))
  {
    if Distinct(Ids(jobs)) {
      forall j | j in jobs ensures BoundDependencies(j, IdSet(jobs)) <==> !MisdeclaredIn(jobs, j) {
        MisdeclaredIsUnbound(jobs, j);
      }
    }
  }

  ghost predicate MisdeclaredIn(jobs: seq<Job>, job: Job) {
    match job.dependsOn
    case Absent => false
    case Malformed => true
    case Listed(ids) =>
      || job.requestId in ids
      || (exists k :: 0 <= k < |ids| && ids[k] !in Ids(jobs))
      || (exists k, l :: 0 <= k < l < |ids| && ids[k] == ids[l])
  }

  lemma MisdeclaredIsUnbound(jobs: seq<Job>, job: Job)
    ensures BoundDependencies(job, IdSet(jobs)) <==> !MisdeclaredIn(jobs, job)
  {
    if job.dependsOn.Listed? {
      var ids := job.dependsOn.ids;
      forall d | d in ids && d !in IdSet(jobs) ensures exists k :: 0 <= k < |ids| && ids[k] !in Ids(jobs) {
        var k :| 0 <= k < |ids| && ids[k] == d;
      }
      assert forall k :: 0 <= k < |ids| && ids[k] !in Ids(jobs) ==> ids[k] in ids && ids[k] !in IdSet(jobs);
    }
  }

  /** Soundness and completeness of the order of a job list. */
  lemma OrderOfSound(jobs: seq<Job>)
    requires Distinct(Ids(jobs)) && AllBound(jobs)
    ensures OrderOf(jobs).Ok? ==> Schedules(GraphOf(jobs), OrderOf(jobs).value)
    ensures OrderOf(jobs) == Err(Cycle) <==> HasCycle(GraphOf(jobs))
  {
    BoundIsClosed(jobs);
    OrderExistsIffAcyclic(GraphOf(jobs));
    if OrderOf(jobs).Ok? {
      OrderSchedules(GraphOf(jobs));
    }
  }

  /** The order in which the jobs are supplied makes no difference. */
  lemma OrderIgnoresSupplyOrder(jobs: seq<Job>, other: seq<Job>)
    requires Distinct(Ids(jobs)) && Distinct(Ids(other))
    requires forall j :: j in jobs <==> j in other
    ensures OrderOf(jobs) == OrderOf(other)
  {
    IdSetGrows(jobs, other);
    IdSetGrows(other, jobs);
    assert AllBound(jobs) <==> AllBound(other);
    SameGraph(jobs, other);
  }

  lemma SameGraph(jobs: seq<Job>, other: seq<Job>)
    requires Distinct(Ids(jobs)) && Distinct(Ids(other))
    requires forall j :: j in jobs ==> j in other
    requires IdSet(jobs) == IdSet(other)
    ensures GraphOf(jobs) == GraphOf(other)
  {
    GraphKeys(jobs);
    GraphKeys(other);
    forall id | id in GraphOf(jobs) ensures GraphOf(jobs)[id] == GraphOf(other)[id] {
      var k :| 0 <= k < |jobs| && Ids(jobs)[k] == id;
      assert jobs[k] in jobs && jobs[k] in other;
      var l :| 0 <= l < |other| && other[l] == jobs[k];
      GraphAt(jobs, k);
      GraphAt(other, l);
    }
  }

  /** The checked dependency map, as `_topological_order` builds it. */
  method DependencyMap(jobs: seq<Job>) returns (r: Result<Graph, GraphError>)
    ensures !Distinct(Ids(jobs)) ==> r == Err(DuplicateIds)
    ensures Distinct(Ids(jobs)) && !AllBound(jobs) ==> r == Err(UnboundDependency)
    ensures Distinct(Ids(jobs)) && AllBound(jobs) ==> r == Ok(GraphOf(jobs))
  {
    DistinctIffCardinality(Ids(jobs), IdSet(jobs));
    var known := IdSet(jobs);
    if |known| != |jobs| {
      return Err(DuplicateIds);
    }
    var g: Graph := map[];
    for k := 0 to |jobs|
      invariant Distinct(Ids(jobs[..k]))
      invariant g == GraphOf(jobs[..k])
      invariant forall j :: j in jobs[..k] ==> BoundDependencies(j, known)
    {
      assert Ids(jobs[..k + 1]) == Ids(jobs)[..k + 1];
      if !BoundDependencies(jobs[k], known) {
        assert jobs[k] in jobs;
        return Err(UnboundDependency);
      }
      assert jobs[..k + 1][..k] == jobs[..k];
      assert jobs[..k + 1] == jobs[..k] + [jobs[k]];
      g := g[jobs[k].requestId := DependencySet(jobs[k])];
    }
    assert jobs[..|jobs|] == jobs;
    return Ok(g);
  }

  /** One turn of the loop: the ready layer moves from the graph to the order. */
  lemma OneLayer(g: Graph, done: seq<RequestId>)
    requires Ready(g) != {}
    ensures Prefixed(done, Order(g)) == Prefixed(done + Sorted(Ready(g)), Order(Peel(g)))
    ensures |Peel(g)| < |g|
  {
    PeelShrinks(g);
    PrefixedTwice(done, Sorted(Ready(g)), Order(Peel(g)));
  }

  lemma PrefixedTwice(done: seq<RequestId>, layer: seq<RequestId>, rest: Option<seq<RequestId>>)
    ensures Prefixed(done, Prefixed(layer, rest)) == Prefixed(done + layer, rest)
  {
    if rest.Some? {
      assert done + (layer + rest.value) == done + layer + rest.value;
    }
  }

  /** Deleting the listed layer and its edges is what `Peel` does. */
  lemma Deletion(g: Graph, layer: seq<RequestId>)
    requires Lists(Ready(g), layer)
    ensures Peel(g) == map id | id in g && id !in layer :: g[id] - Ready(g)
  {
  }

  /** Takes the ready nodes out of the graph, and out of every remaining edge set. */
  method TakeLayer(g: Graph) returns (layer: seq<RequestId>, rest: Graph)
    ensures layer == Sorted(Ready(g)) && rest == Peel(g)
    ensures |layer| == |Ready(g)|
  {
    layer := Sorted(Ready(g));
    SortedListsSet(Ready(g));
    Deletion(g, layer);
    rest := map id | id in g && id !in layer :: g[id] - Ready(g);
  }

  method TopologicalOrder(jobs: seq<Job>) returns (r: Result<seq<RequestId>, GraphError>)
    ensures r == OrderOf(jobs)
  {
    var dependencies := DependencyMap(jobs);
    if dependencies.Err? {
      return Err(dependencies.error);
    }
    var remaining := dependencies.value;
    var ordered := [];
    assert Order(remaining).Some? ==> ordered + Order(remaining).value == Order(remaining).value;
    while remaining != map[]
      invariant Order(dependencies.value) == Prefixed(ordered, Order(remaining))
      decreases |remaining|
    {
      var ready, rest := TakeLayer(remaining);
      if ready == [] {
        return Err(Cycle);
      }
      OneLayer(remaining, ordered);
      ordered := ordered + ready;
      remaining := rest;
    }
    assert ordered + [] == ordered;
    return Ok(ordered);
  }
}
