/** The billing status snapshot over two independent stores: a marker file is published before
    either store changes, and every write is a step of its own. */
module BillingModel {
  import opened Wrappers
  import Runs

  type Id = string

  datatype Mode = TestMode | LiveMode

  datatype JobStatus = IntentStatus | Prepared | Submitted | Complete

  /** The executor's record of a request; `provider` is its remote id once one is known. */
  datatype JobRecord = JobRecord(endpoint: string, mode: Mode, authScope: string, provider: Option<string>,
                                 status: JobStatus, generation: nat)

  datatype ClaimState = Reserved | Unknown | Settled

  /** The ledger's claim of a request. */
  datatype ClaimRecord = ClaimRecord(episode: string, endpoint: string, mode: Mode, cap: nat, authScope: string,
                                     experiment: bool, provider: Option<string>, state: ClaimState,
                                     actual: Option<nat>, generation: nat)

  /** A canonical settlement receipt; a `fixture` is the test authority's, good for test claims
      only. */
  datatype Settlement = Settlement(request: Id, endpoint: string, provider: string, authScope: string, mode: Mode,
                                   fixture: bool, actual: nat)

  /** The snapshot file. A missing one counts as generation 0. */
  datatype Snapshot =
    | Missing
    | InProgress(request: Id, generation: nat)
    | Current(request: Id, generation: nat, job: JobRecord, claim: ClaimRecord, settlement: Option<Settlement>)

  /** What the process that holds the snapshot's lock is doing. */
  datatype Phase = Idle | Writing(request: Id, generation: nat)

  /** The ledger keeps claims and settlement receipts in one database. */
  datatype World = World(snapshot: Snapshot, jobs: map<Id, JobRecord>, claims: map<Id, ClaimRecord>,
                         settlements: map<Id, Settlement>, phase: Phase)

  datatype Step =
    | Mark(request: Id)
    | WriteJob(job: JobRecord)
    | WriteClaim(claim: ClaimRecord)
    | Settle(receipt: Settlement)
    | Publish(settlement: Option<Settlement>)
    | Leave

  function Generation(s: Snapshot): nat {
    if s.Missing? then 0 else s.generation
  }

  /** `_current`: both records carry the generation and name the same remote request. */
  predicate Coherent(job: JobRecord, claim: ClaimRecord, generation: nat) {
    && job.generation == generation && claim.generation == generation
    && claim.endpoint == job.endpoint && claim.authScope == job.authScope && claim.provider == job.provider
  }

  /** A remote id, once known, and a settled amount are final. */
  predicate KeepsJob(jobs: map<Id, JobRecord>, r: Id, job: JobRecord) {
    r in jobs ==>
      && job.endpoint == jobs[r].endpoint && job.mode == jobs[r].mode && job.authScope == jobs[r].authScope
      && (jobs[r].provider.Some? ==> job.provider == jobs[r].provider)
  }

  predicate KeepsClaim(claims: map<Id, ClaimRecord>, r: Id, claim: ClaimRecord) {
    r in claims ==>
      && claim.episode == claims[r].episode && claim.cap == claims[r].cap && claim.endpoint == claims[r].endpoint
      && claim.mode == claims[r].mode && claim.authScope == claims[r].authScope && claim.experiment == claims[r].experiment
      && (claims[r].provider.Some? ==> claim.provider == claims[r].provider)
      && (claims[r].actual.Some? ==> claim.actual == claims[r].actual && claim.state == claims[r].state)
  }

  /** Only a settlement gives a claim its amount. */
  predicate KeepsAmount(claims: map<Id, ClaimRecord>, r: Id, claim: ClaimRecord) {
    claim.actual == if r in claims then claims[r].actual else None
  }

  /** The receipt is about the very request the claim is for. */
  predicate Fits(s: Settlement, c: ClaimRecord) {
    && s.endpoint == c.endpoint && Some(s.provider) == c.provider && s.authScope == c.authScope && s.mode == c.mode
    && (s.fixture ==> c.mode == TestMode)
  }

  predicate Enabled(s: Step, w: World) {
    match s
    case Mark(_) => w.phase == Idle
    case WriteJob(job) =>
      w.phase.Writing? && job.generation == w.phase.generation && KeepsJob(w.jobs, w.phase.request, job)
    case WriteClaim(claim) =>
      && w.phase.Writing? && claim.generation == w.phase.generation
      && KeepsClaim(w.claims, w.phase.request, claim) && KeepsAmount(w.claims, w.phase.request, claim)
    case Settle(s) =>
      && w.phase.Writing? && s.request == w.phase.request && s.request in w.claims && s.request !in w.settlements
      && Fits(s, w.claims[s.request]) && w.claims[s.request].actual == None
    case Publish(settlement) =>
      && w.phase.Writing? && w.phase.request in w.jobs && w.phase.request in w.claims
      && Coherent(w.jobs[w.phase.request], w.claims[w.phase.request], w.phase.generation)
      && (settlement.Some? ==> w.phase.request in w.settlements && w.settlements[w.phase.request] == settlement.value)
    case Leave => true
  }

  function Effect(s: Step, w: World): World
    requires Enabled(s, w)
  {
    match s
    case Mark(r) =>
      var g := Generation(w.snapshot) + 1;
      w.(snapshot := InProgress(r, g), phase := Writing(r, g))
    case WriteJob(job) => w.(jobs := w.jobs[w.phase.request := job])
    case WriteClaim(claim) => w.(claims := w.claims[w.phase.request := claim])
    case Settle(s) =>
      w.(settlements := w.settlements[s.request := s],
         claims := w.claims[s.request := w.claims[s.request].(state := Settled, actual := Some(s.actual),
                                                              generation := w.phase.generation)])
    case Publish(settlement) =>
      var r := w.phase.request;
      w.(snapshot := Current(r, w.phase.generation, w.jobs[r], w.claims[r], settlement), phase := Idle)
    case Leave => w.(phase := Idle)
  }

  predicate Init(w: World) {
    w == World(Missing, map[], map[], map[], Idle)
  }

  ghost predicate Next(w: World, w': World) {
    exists s: Step :: Enabled(s, w) && w' == Effect(s, w)
  }

  ghost predicate IsBillingRun(run: seq<World>) {
    Runs.IsRun(Init, Next, run)
  }

  // ---------- The invariant ----------

  /** A CURRENT snapshot tells the truth about both stores; nothing is written without a marker. */
  ghost predicate Inv(w: World) {
    && (w.phase.Writing? ==> w.snapshot == InProgress(w.phase.request, w.phase.generation))
    && (w.snapshot.Current? ==>
          && w.snapshot.request in w.jobs && w.jobs[w.snapshot.request] == w.snapshot.job
          && w.snapshot.request in w.claims && w.claims[w.snapshot.request] == w.snapshot.claim
          && Coherent(w.snapshot.job, w.snapshot.claim, w.snapshot.generation)
          && (w.snapshot.settlement.Some? ==>
                w.snapshot.request in w.settlements && w.settlements[w.snapshot.request] == w.snapshot.settlement.value))
    && SettlementsMatch(w)
    && (forall r :: r in w.jobs ==> w.jobs[r].generation <= Generation(w.snapshot))
    && (forall r :: r in w.claims ==> w.claims[r].generation <= Generation(w.snapshot))
  }

  /** Every stored settlement is that of its claim: same request, endpoint, remote id, scope and
      mode; and the claim is settled at its amount. A claim has an amount only that way. */
  ghost predicate SettlementsMatch(w: World) {
    && (forall r :: r in w.settlements ==>
          && r in w.claims && w.settlements[r].request == r
          && w.claims[r].endpoint == w.settlements[r].endpoint && w.claims[r].provider == Some(w.settlements[r].provider)
          && w.claims[r].authScope == w.settlements[r].authScope && w.claims[r].mode == w.settlements[r].mode
          && w.claims[r].state == Settled && w.claims[r].actual == Some(w.settlements[r].actual)
          && (w.settlements[r].fixture ==> w.claims[r].mode == TestMode))
    && (forall r :: r in w.claims && w.claims[r].actual.Some? ==> r in w.settlements)
  }

  lemma StepKeepsSettlements(s: Step, w: World)
    requires Enabled(s, w) && SettlementsMatch(w)
    ensures SettlementsMatch(Effect(s, w))
  {
  }

  lemma StepKeepsInv(w: World, w': World)
    requires Inv(w) && Next(w, w')
    ensures Inv(w')
  {
    hide SettlementsMatch;
    var s: Step :| Enabled(s, w) && w' == Effect(s, w);
    StepKeepsSettlements(s, w);
  }

  lemma HoldsAt(run: seq<World>, i: nat)
    requires IsBillingRun(run) && i < |run|
    ensures Inv(run[i])
  {
    forall w, w' | Inv(w) && Next(w, w') ensures Inv(w') {
      StepKeepsInv(w, w');
    }
    Runs.InvariantAt(Init, Next, Inv, run, i);
  }

  // ---------- Whole runs ----------

  /** At every crash point a CURRENT snapshot for a request implies that both stores carry its
      generation, name the same remote request, and equal the copies in the snapshot. */
  lemma CurrentIsCoherent(run: seq<World>, i: nat)
    requires IsBillingRun(run) && i < |run| && run[i].snapshot.Current?
    ensures var s := run[i].snapshot;
      && s.request in run[i].jobs && run[i].jobs[s.request] == s.job
      && s.request in run[i].claims && run[i].claims[s.request] == s.claim
      && s.job.generation == s.generation == s.claim.generation && s.job.provider == s.claim.provider
    ensures run[i].phase == Idle
  {
    HoldsAt(run, i);
  }

  /** Generations never fall, and each belongs to one CURRENT snapshot at most. */
  ghost predicate Advances(s: Snapshot, later: Snapshot) {
    && Generation(s) <= Generation(later)
    && (s.Current? && Generation(later) == Generation(s) ==> later == s)
  }

  lemma StepAdvances(w: World, w': World)
    requires Inv(w) && Next(w, w')
    ensures Advances(w.snapshot, w'.snapshot)
  {
  }

  lemma {:induction false} SnapshotsAdvance(run: seq<World>, i: nat, j: nat)
    requires IsBillingRun(run) && i <= j < |run|
    ensures Advances(run[i].snapshot, run[j].snapshot)
    decreases j
  {
    if i < j {
      SnapshotsAdvance(run, i, j - 1);
      HoldsAt(run, j - 1);
      Runs.StepAt(Init, Next, run, j - 1);
      StepAdvances(run[j - 1], run[j]);
    }
  }

  /** At every point of every run a stored settlement is that of its claim. */
  lemma SettlementsHold(run: seq<World>, i: nat, r: Id)
    requires IsBillingRun(run) && i < |run| && r in run[i].settlements
    ensures var s := run[i].settlements[r];
      && s.request == r && r in run[i].claims
      && var c := run[i].claims[r];
         && c.endpoint == s.endpoint && c.provider == Some(s.provider) && c.authScope == s.authScope && c.mode == s.mode
         && c.actual == Some(s.actual) && c.state == Settled
  {
    HoldsAt(run, i);
  }

  predicate Publishes(run: seq<World>, k: nat) {
    k + 1 < |run| && run[k].phase.Writing? && run[k + 1].snapshot.Current?
  }

  /** Published generations strictly increase over operations, crashes and restarts. */
  lemma PublishedGenerationsIncrease(run: seq<World>, k: nat, l: nat)
    requires IsBillingRun(run) && k < l && Publishes(run, k) && Publishes(run, l)
    ensures Generation(run[k + 1].snapshot) < Generation(run[l + 1].snapshot)
  {
    HoldsAt(run, l);
    SnapshotsAdvance(run, k + 1, l);
    Runs.StepAt(Init, Next, run, l);
    StepAdvances(run[l], run[l + 1]);
  }

  /** The later job is of the same endpoint, mode and scope, and of the same remote request once
      that is known. */
  predicate SameJob(job: JobRecord, later: JobRecord) {
    && later.endpoint == job.endpoint && later.mode == job.mode && later.authScope == job.authScope
    && (job.provider != None ==> later.provider == job.provider)
  }

  /** And the later claim is the same liability, with the same remote request once that is known
      and the same amount once it is settled. */
  predicate SameClaim(claim: ClaimRecord, later: ClaimRecord) {
    && later.episode == claim.episode && later.endpoint == claim.endpoint && later.mode == claim.mode
    && later.cap == claim.cap && later.authScope == claim.authScope && later.experiment == claim.experiment
    && (claim.provider != None ==> later.provider == claim.provider)
    && (claim.actual != None ==> later.actual == claim.actual && later.state == claim.state)
  }

  /** Remote ids, settled amounts and settlement receipts are final over every run. */
  ghost predicate Final(w: World, later: World) {
    && (forall r :: r in w.jobs ==> r in later.jobs && SameJob(w.jobs[r], later.jobs[r]))
    && (forall r :: r in w.claims ==> r in later.claims && SameClaim(w.claims[r], later.claims[r]))
    && (forall r :: r in w.settlements ==> r in later.settlements && later.settlements[r] == w.settlements[r])
  }

  lemma JobStepIsFinal(s: Step, w: World, r: Id)
    requires Enabled(s, w) && r in w.jobs
    ensures r in Effect(s, w).jobs && SameJob(w.jobs[r], Effect(s, w).jobs[r])
  {
    hide Coherent, Fits, KeepsClaim, KeepsAmount;
  }

  lemma ClaimStepIsFinal(s: Step, w: World, r: Id)
    requires Enabled(s, w) && r in w.claims
    ensures r in Effect(s, w).claims && SameClaim(w.claims[r], Effect(s, w).claims[r])
  {
    hide Coherent, Fits, KeepsJob, KeepsAmount;
  }

  lemma StepIsFinal(w: World, w': World)
    requires Next(w, w')
    ensures Final(w, w')
  {
    var s: Step :| Enabled(s, w) && w' == Effect(s, w);
    forall r | r in w.jobs ensures r in w'.jobs && SameJob(w.jobs[r], w'.jobs[r]) {
      JobStepIsFinal(s, w, r);
    }
    forall r | r in w.claims ensures r in w'.claims && SameClaim(w.claims[r], w'.claims[r]) {
      ClaimStepIsFinal(s, w, r);
    }
    hide Coherent, Fits, KeepsJob, KeepsClaim, KeepsAmount, SameJob, SameClaim;
  }

  lemma {:induction false} IdentitiesAreFinal(run: seq<World>, i: nat, j: nat)
    requires IsBillingRun(run) && i <= j < |run|
    ensures Final(run[i], run[j])
    decreases j
  {
    if i < j {
      IdentitiesAreFinal(run, i, j - 1);
      Runs.StepAt(Init, Next, run, j - 1);
      StepIsFinal(run[j - 1], run[j]);
    }
  }
}
