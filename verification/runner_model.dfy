/** The durable document of the two-gate runner, every single-save step on it, and the steps of
    what surrounds it: the publisher, the artifacts, and their re-validation. A run is the list
    of states; a crash between two saves is a run that goes on with a `Crash` there, and a later
    call continues it. */
module RunnerModel {
  import opened Wrappers
  import opened SortedSets
  import opened Artifacts
  import opened Texts
  import opened JobGraph

  /** The digest of a job's canonical form, modelled by the job itself: the hash is
      taken to be injective. */
  datatype JobDigest = JobDigest(job: Job)

  datatype Policy = Policy(allowedEndpoints: set<string>, episodeCap: int, monthCap: int, publicationEnabled: bool)

  datatype Scheduler = Scheduler(providerConcurrency: nat, cpuConcurrency: nat)

  datatype Binding = Binding(requestId: RequestId, jobSha256: JobDigest, supersededBy: Option<RequestId>)

  datatype Verdict =
    | Pass(resultSha256: Sha256, reviewer: string, subject: string, issuer: string)
    | Fail(codes: seq<string>)

  datatype Media = Media(path: Path, sha256: Sha256)

  datatype Gate = Gate(path: Path, sha256: Sha256, approved: bool, reviewer: string)

  /** The fields of a publication package that vary from call to call. */
  datatype Package = Package(thumbnailSha256: Sha256, videoSha256: Sha256)

  datatype TechnicalQa = TechnicalQa(approved: bool, mode: Mode, subject: string)

  datatype State = Ready | Running | Rejected | MediaPending | WaitingThumbnail | WaitingVideo
                 | ReadyToPublish | PublishIntent | Published

  datatype Document = Document(packet: Sha256, jobs: seq<Binding>, specs: seq<Job>, scheduler: Scheduler,
                               qa: map<RequestId, Verdict>, media: map<Kind, Media>, delivery: map<Kind, Sha256>,
                               technicalQa: Option<TechnicalQa>, gates: map<Kind, Gate>,
                               publicationIntent: Option<Package>, state: State)

  datatype RunnerError =
    | NotStarted | StartConflict | EmptyStart | BadGraph(graphError: GraphError)
    | PolicyDenied | SuccessorConflict | UnknownPredecessor | SceneMismatch | WrongPredecessorVerdict
    | SchedulerChanged | JobsMismatch | StaleQa | TaskFailed | NoReusableVerdict | UnresolvedDependency
    | StagingOutOfOrder | StagingRejected | ArtifactUnusable | GateOutOfOrder | GateRefused
    | AmbiguousPublish | PublisherFailed

  // ---------- Documents ----------

  predicate Approved(qa: map<RequestId, Verdict>, id: RequestId) {
    id in qa && qa[id].Pass?
  }

  predicate Refused(qa: map<RequestId, Verdict>, id: RequestId) {
    id in qa && qa[id].Fail?
  }

  predicate AllApproved(qa: map<RequestId, Verdict>, ids: set<RequestId>) {
    forall id :: id in ids ==> Approved(qa, id)
  }

  predicate HasRefused(qa: map<RequestId, Verdict>, ids: set<RequestId>) {
    exists id :: id in ids && Refused(qa, id)
  }

  function BindingOf(job: Job): Binding {
    Binding(job.requestId, JobDigest(job), None)
  }

  function Bindings(jobs: seq<Job>): (bs: seq<Binding>)
    ensures |bs| == |jobs|
    ensures forall i :: 0 <= i < |jobs| ==> bs[i] == BindingOf(jobs[i])
  {
    seq(|jobs|, i requires 0 <= i < |jobs| => BindingOf(jobs[i]))
  }

  /** Every job no successor has replaced is approved. */
  predicate ActiveApproved(jobs: seq<Binding>, qa: map<RequestId, Verdict>) {
    forall i :: 0 <= i < |jobs| && jobs[i].supersededBy.None? ==> Approved(qa, jobs[i].requestId)
  }

  predicate ActiveRefused(d: Document) {
    exists i :: 0 <= i < |d.jobs| && d.jobs[i].supersededBy.None? && Refused(d.qa, d.jobs[i].requestId)
  }

  /** The document shows that it can never be completed: an active job is refused, or a job
      without a verdict depends on a refused one. */
  predicate RefusalSeen(d: Document) {
    || ActiveRefused(d)
    || exists i :: 0 <= i < |d.specs| && d.specs[i].requestId !in d.qa && HasRefused(d.qa, DependencySet(d.specs[i]))
  }

  /** Every approved verdict has its artifact among these. */
  predicate AllIntact(qa: map<RequestId, Verdict>, intact: set<RequestId>) {
    forall id :: id in qa && qa[id].Pass? ==> id in intact
  }

  function ApprovedIds(qa: map<RequestId, Verdict>): set<RequestId> {
    set id | id in qa && qa[id].Pass?
  }

  predicate AllJudged(specs: seq<Job>, qa: map<RequestId, Verdict>) {
    forall i :: 0 <= i < |specs| ==> specs[i].requestId in qa
  }

  function TotalCost(jobs: seq<Job>): int {
    if jobs == [] then 0 else TotalCost(jobs[..|jobs| - 1]) + jobs[|jobs| - 1].cost
  }

  /** `authorize_paid` with no spend so far. */
  predicate Authorized(policy: Policy, job: Job) {
    job.endpoint in policy.allowedEndpoints && 0 < job.cost <= policy.episodeCap && job.cost <= policy.monthCap
  }

  // ---------- Start ----------

  ghost function StartDocument(policy: Policy, packet: Sha256, jobs: seq<Job>, scheduler: Scheduler)
    : Result<Document, RunnerError>
  {
    if jobs == [] then Err(EmptyStart)
    else if OrderOf(jobs).Err? then Err(BadGraph(OrderOf(jobs).error))
    else if exists i :: 0 <= i < |jobs| && (jobs[i].mode != Test || !Authorized(policy, jobs[i])) then Err(PolicyDenied)
    else if TotalCost(jobs) > policy.episodeCap then Err(PolicyDenied)
    else Ok(Document(packet, Bindings(jobs), jobs, scheduler, map[], map[], map[], None, map[], None, Ready))
  }

  // ---------- Successors ----------

  /** A position of a request id among the jobs, or their number when it is not there. */
  ghost function IndexOf(jobs: seq<Job>, id: RequestId): (k: nat)
    ensures k <= |jobs|
    ensures k < |jobs| ==> jobs[k].requestId == id
    ensures k == |jobs| ==> forall i :: 0 <= i < |jobs| ==> jobs[i].requestId != id
  {
    if i :| 0 <= i < |jobs| && jobs[i].requestId == id then i else |jobs|
  }

  /** The verdict a successor's category demands of its predecessor. */
  predicate PredecessorAllows(qa: map<RequestId, Verdict>, predecessor: Job, category: Category) {
    match category
    case Hero => Approved(qa, predecessor.requestId) && predecessor.category == First
    case Alternative | Correction | HeroRetry => Refused(qa, predecessor.requestId)
    case First | OtherCategory => false
  }

  /** One turn of the loop in `add_successors`. */
  ghost function AddSuccessor(policy: Policy, d: Document, job: Job): Result<Document, RunnerError>
    requires Aligned(d)
  {
    var k := IndexOf(d.specs, job.requestId);
    if k < |d.specs| then
      if d.jobs[k].jobSha256 != JobDigest(job) then Err(SuccessorConflict) else Ok(d)
    else if job.mode != Test || job.predecessor.None? then Err(PolicyDenied)
    else
      var p := IndexOf(d.specs, job.predecessor.value);
      if p == |d.specs| then Err(UnknownPredecessor)
      else if job.scene != d.specs[p].scene then Err(SceneMismatch)
      else if !PredecessorAllows(d.qa, d.specs[p], job.category) then Err(WrongPredecessorVerdict)
      else if !Authorized(policy, job) then Err(PolicyDenied)
      else if TotalCost(d.specs) + job.cost > policy.episodeCap then Err(PolicyDenied)
      else Ok(Append(d, p, job))
  }

  /** The new job at the end, its predecessor marked as superseded. */
  function Append(d: Document, p: nat, job: Job): Document
    requires p < |d.jobs|
  {
    d.(jobs := d.jobs[p := d.jobs[p].(supersededBy := Some(job.requestId))] + [BindingOf(job)],
       specs := d.specs + [job])
  }

  ghost predicate Aligned(d: Document) {
    && |d.jobs| == |d.specs|
    && (forall i :: 0 <= i < |d.jobs| ==>
          d.jobs[i].requestId == d.specs[i].requestId && d.jobs[i].jobSha256 == JobDigest(d.specs[i]))
    && Distinct(Ids(d.specs))
  }

  lemma AppendAligned(d: Document, p: nat, job: Job)
    requires Aligned(d) && p < |d.jobs| && IndexOf(d.specs, job.requestId) == |d.specs|
    ensures Aligned(Append(d, p, job))
  {
  }

  lemma AddSuccessorAligned(policy: Policy, d: Document, job: Job)
    requires Aligned(d)
    ensures AddSuccessor(policy, d, job).Ok? ==> Aligned(AddSuccessor(policy, d, job).value)
  {
    if AddSuccessor(policy, d, job).Ok? && IndexOf(d.specs, job.requestId) == |d.specs| {
      AppendAligned(d, IndexOf(d.specs, job.predecessor.value), job);
    }
  }

  ghost function AddSuccessors(policy: Policy, d: Document, jobs: seq<Job>): (r: Result<Document, RunnerError>)
    requires Aligned(d)
    ensures r.Ok? ==> Aligned(r.value)
    decreases |jobs|
  {
    if jobs == [] then Ok(d)
    else
      var before := AddSuccessors(policy, d, jobs[..|jobs| - 1]);
      if before.Err? then before
      else
        AddSuccessorAligned(policy, before.value, jobs[|jobs| - 1]);
        AddSuccessor(policy, before.value, jobs[|jobs| - 1])
  }

  /** What `add_successors` saves once at least one job is new. */
  function Invalidate(d: Document): Document {
    d.(media := map[], delivery := map[], technicalQa := None, gates := map[], state := Running)
  }

  // ---------- Steps ----------

  /** The publisher call of the process that holds the lock. */
  datatype Publisher = Idle | Armed(package: Package) | Returned(package: Package)

  /** The re-validation of approved artifacts under way: those it found intact, and the changed
      one that ended it. */
  datatype Check = Check(verified: set<RequestId>, stale: Option<RequestId>)

  const UNCHECKED := Check({}, None)

  /** `doc` is what a crash leaves; `publisher` and `check` are lost with the process;
      `published` and `escapes` count what has happened outside; `intact` are the artifacts
      that would verify at this moment, which anything outside may change at any moment. */
  datatype World = World(policy: Policy, doc: Option<Document>, publisher: Publisher, published: seq<Package>,
                         escapes: nat, intact: set<RequestId>, check: Check)

  /** One save of the document. */
  datatype Save =
    | Extend(successors: seq<Job>)
    | Begin
    | Record(id: RequestId, verdict: Verdict)
    | Reject
    | Finish
    | Escape(stale: RequestId)
    | Stage(media: map<Kind, Media>, qa: TechnicalQa)
    | StageReject
    | Decide(kind: Kind, reviewer: string, approved: bool)
    | Intend

  datatype Step =
    | Start(packet: Sha256, jobs: seq<Job>, scheduler: Scheduler)
    | Do(save: Save)
    | Disturb(intact: set<RequestId>)
    | Look
    | Inspect(id: RequestId)
    | Detect(id: RequestId)
    | Call
    | Confirm
    | Crash

  /** A verdict names a reviewer other than the generator whenever it approves. */
  predicate Independent(v: Verdict) {
    v.Pass? ==> !Blank(v.reviewer) && !Blank(v.subject) && !Blank(v.issuer) && v.subject != "generator"
  }

  function Expects(kind: Kind): State {
    match kind case Thumbnail => WaitingThumbnail case Video => WaitingVideo
  }

  function AfterApproval(kind: Kind): State {
    match kind case Thumbnail => WaitingVideo case Video => ReadyToPublish
  }

  predicate GatesApproved(gates: map<Kind, Gate>) {
    Thumbnail in gates && Video in gates && gates[Thumbnail].approved && gates[Video].approved
  }

  function PackageOf(gates: map<Kind, Gate>): Package
    requires Thumbnail in gates && Video in gates
  {
    Package(gates[Thumbnail].sha256, gates[Video].sha256)
  }

  /** The job with this id has no verdict, and all it depends on is approved. */
  ghost predicate MayRecord(d: Document, id: RequestId) {
    var k := IndexOf(d.specs, id);
    k < |d.specs| && id !in d.qa && AllApproved(d.qa, DependencySet(d.specs[k]))
  }

  ghost predicate Enabled(s: Step, w: World) {
    match s
    case Start(packet, jobs, scheduler) =>
      w.publisher.Idle? && w.doc.None? && StartDocument(w.policy, packet, jobs, scheduler).Ok?
    case Do(save) =>
      w.publisher.Idle? && w.doc.Some? && MaySave(save, w.policy, w.doc.value) && CheckAllows(save, w.doc.value, w.check)
    case Disturb(_) => true
    case Look => w.publisher.Idle? && w.doc.Some?
    case Inspect(id) => MayInspect(w, id) && id in w.intact
    case Detect(id) => MayInspect(w, id) && id !in w.intact
    case Call => w.publisher.Armed?
    case Confirm => w.publisher.Returned? && w.doc.Some?
    case Crash => true
  }

  /** The check goes through the approved verdicts until it finds a changed artifact. */
  ghost predicate MayInspect(w: World, id: RequestId) {
    w.publisher.Idle? && w.doc.Some? && Approved(w.doc.value.qa, id) && w.check.stale.None?
  }

  /** What a save needs of the check before it: the end of the scheduler that every approved
      artifact was found intact, an escape that this one was not, and a refusal either a changed
      artifact or a refused verdict. */
  ghost predicate CheckAllows(s: Save, d: Document, check: Check) {
    match s
    case Finish => AllIntact(d.qa, check.verified)
    case Escape(stale) => check.stale == Some(stale)
    case Reject => RefusalSeen(d) || check.stale.Some?
    case Extend(_) | Begin | Record(_, _) | Stage(_, _) | StageReject | Decide(_, _, _) | Intend => true
  }

  /** The scheduler works only on a running document whose jobs have an order. */
  ghost predicate MayWork(d: Document) {
    d.state == Running && OrderOf(d.specs).Ok?
  }

  ghost predicate MaySave(s: Save, policy: Policy, d: Document) {
    match s
    case Extend(jobs) =>
      && d.state !in {Published, PublishIntent}
      && Aligned(d)
      && AddSuccessors(policy, d, jobs).Ok?
      && |AddSuccessors(policy, d, jobs).value.jobs| > |d.jobs|
    case Begin => d.state in {Ready, Running}
    case Record(id, v) => MayWork(d) && MayRecord(d, id) && Independent(v)
    case Reject => MayWork(d)
    case Finish => MayWork(d) && AllJudged(d.specs, d.qa) && ActiveApproved(d.jobs, d.qa)
    case Escape(stale) => d.state !in {Ready, Running} && Approved(d.qa, stale)
    case Stage(media, qa) => d.state == MediaPending && media.Keys == {Thumbnail, Video}
    case StageReject => d.state == MediaPending
    case Decide(kind, reviewer, approved) => d.state == Expects(kind) && kind in d.media && !Blank(reviewer)
    case Intend => policy.publicationEnabled && d.state == ReadyToPublish && GatesApproved(d.gates)
  }

  ghost function Saved(s: Save, policy: Policy, d: Document): Document
    requires MaySave(s, policy, d)
  {
    match s
    case Extend(jobs) => Invalidate(AddSuccessors(policy, d, jobs).value)
    case Begin => d.(state := Running)
    case Record(id, v) => d.(qa := d.qa[id := v])
    case Reject => d.(state := Rejected)
    case Finish => d.(state := MediaPending)
    case Escape(_) => d.(state := Rejected)
    case Stage(media, qa) => Staged(d, media, qa)
    case StageReject => d.(state := Rejected)
    case Decide(kind, reviewer, approved) => Decided(d, kind, reviewer, approved)
    case Intend => d.(state := PublishIntent, publicationIntent := Some(PackageOf(d.gates)))
  }

  function Staged(d: Document, media: map<Kind, Media>, qa: TechnicalQa): Document {
    d.(media := media, delivery := map k | k in media :: media[k].sha256, technicalQa := Some(qa),
       state := WaitingThumbnail)
  }

  function Decided(d: Document, kind: Kind, reviewer: string, approved: bool): Document
    requires kind in d.media
  {
    d.(gates := d.gates[kind := Gate(d.media[kind].path, d.media[kind].sha256, approved, reviewer)],
       state := if approved then AfterApproval(kind) else Rejected)
  }

  /** Arms the publisher when the save is the intent of this process. */
  function PublisherAfter(s: Save, d': Document): Publisher {
    if s.Intend? && d'.publicationIntent.Some? then Armed(d'.publicationIntent.value) else Idle
  }

  /** A publication is intended or confirmed. */
  predicate Committed(d: Document) {
    d.state in {PublishIntent, Published}
  }

  /** A terminal document was thrown away although publication had been committed. */
  function EscapesBy(s: Save, d: Document): nat {
    if s.Escape? && Committed(d) then 1 else 0
  }

  ghost function Effect(s: Step, w: World): World
    requires Enabled(s, w)
  {
    match s
    case Start(packet, jobs, scheduler) => w.(doc := Some(StartDocument(w.policy, packet, jobs, scheduler).value))
    case Do(save) =>
      var d' := Saved(save, w.policy, w.doc.value);
      World(w.policy, Some(d'), PublisherAfter(save, d'), w.published, w.escapes + EscapesBy(save, w.doc.value),
            w.intact, UNCHECKED)
    case Disturb(intact) => w.(intact := intact)
    case Look => w.(check := UNCHECKED)
    case Inspect(id) => w.(check := w.check.(verified := w.check.verified + {id}))
    case Detect(id) => w.(check := w.check.(stale := Some(id)))
    case Call => w.(publisher := Returned(w.publisher.package), published := w.published + [w.publisher.package])
    case Confirm => w.(publisher := Idle, doc := Some(w.doc.value.(state := Published)))
    case Crash => w.(publisher := Idle, check := UNCHECKED)
  }

  ghost predicate Init(w: World) {
    w.doc.None? && w.publisher.Idle? && w.published == [] && w.escapes == 0 && w.check == UNCHECKED
  }

  ghost predicate Next(w: World, w': World) {
    exists s: Step :: Enabled(s, w) && w' == Effect(s, w)
  }
}
