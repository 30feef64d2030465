/** The billing snapshot coordinator: the only writer of the snapshot and of the records pinned
    to it. The ghost field `saves` is the run so far, one entry per committed write. */
module Billing {
  import opened Wrappers
  import opened BillingModel
  import Runs

  /** A new request: what the executor and the ledger each say about admitting it. */
  datatype Admission = Admission(endpoint: string, mode: Mode, authScope: string, episode: string, cap: nat,
                                 experiment: bool, executorAdmits: bool, ledgerAdmits: bool)

  ghost predicate Recorded(saves: seq<World>, world: World) {
    saves != [] && IsBillingRun(saves) && saves[|saves| - 1] == world
  }

  /** The two records name the same remote request, whatever they are pinned to. */
  predicate Agree(job: JobRecord, claim: ClaimRecord) {
    claim.endpoint == job.endpoint && claim.authScope == job.authScope && claim.provider == job.provider
  }

  class BillingSnapshotCoordinator {
    var snapshot: Snapshot
    var jobs: map<Id, JobRecord>
    var claims: map<Id, ClaimRecord>

    /** The ledger's settlement receipts. */
    var settlements: map<Id, Settlement>

    ghost var saves: seq<World>
    ghost var world: World

    ghost predicate Durable(phase: Phase)
      reads this
    {
      Recorded(saves, world) && world == World(snapshot, jobs, claims, settlements, phase)
    }

    ghost predicate Valid()
      reads this
    {
      Durable(Idle)
    }

    /** A coordinator over whatever a crashed one left at any point of its run. */
    constructor (snapshot: Snapshot, jobs: map<Id, JobRecord>, claims: map<Id, ClaimRecord>,
                 settlements: map<Id, Settlement>, ghost history: seq<World>)
      requires history != [] && IsBillingRun(history)
      requires history[|history| - 1] == World(snapshot, jobs, claims, settlements, history[|history| - 1].phase)
      ensures Valid() && this.snapshot == snapshot && this.jobs == jobs && this.claims == claims
      ensures this.settlements == settlements
    {
      this.snapshot, this.jobs, this.claims, this.settlements := snapshot, jobs, claims, settlements;
      ghost var w := history[|history| - 1];
      Runs.Continue(Init, Next, history, Effect(Leave, w));
      saves, world := history + [Effect(Leave, w)], Effect(Leave, w);
    }

    lemma WorldIsSound()
      requires Recorded(saves, world)
      ensures Inv(world)
    {
      HoldsAt(saves, |saves| - 1);
    }

    ghost method Take(s: Step)
      requires Recorded(saves, world) && Enabled(s, world)
      modifies this`saves, this`world
      ensures Recorded(saves, world) && world == Effect(s, old(world))
    {
      Runs.Continue(Init, Next, saves, Effect(s, world));
      world := Effect(s, world);
      saves := saves + [world];
    }

    /** Publishes the marker of the next generation. */
    method BeginWrite(r: Id) returns (generation: nat)
      requires Valid()
      modifies this`snapshot, this`saves, this`world
      ensures generation == Generation(old(snapshot)) + 1
      ensures snapshot == InProgress(r, generation) && Durable(Writing(r, generation))
      ensures r in jobs ==> jobs[r].generation < generation
      ensures r in claims ==> claims[r].generation < generation
    {
      WorldIsSound();
      generation := Generation(snapshot) + 1;
      Take(Mark(r));
      snapshot := InProgress(r, generation);
    }

    method PutJob(r: Id, generation: nat, job: JobRecord)
      requires Durable(Writing(r, generation)) && job.generation == generation && KeepsJob(jobs, r, job)
      modifies this`jobs, this`saves, this`world
      ensures Durable(Writing(r, generation)) && jobs == old(jobs)[r := job]
    {
      Take(WriteJob(job));
      jobs := jobs[r := job];
    }

    method PutClaim(r: Id, generation: nat, claim: ClaimRecord)
      requires Durable(Writing(r, generation)) && claim.generation == generation
      requires KeepsClaim(claims, r, claim) && KeepsAmount(claims, r, claim)
      modifies this`claims, this`saves, this`world
      ensures Durable(Writing(r, generation)) && claims == old(claims)[r := claim]
    {
      Take(WriteClaim(claim));
      claims := claims[r := claim];
    }

    /** An error leaves the marker on disk. */
    method Abandon(r: Id, generation: nat)
      requires Durable(Writing(r, generation))
      modifies this`saves, this`world
      ensures Valid()
    {
      Take(Leave);
    }

    /** Reads both stores back and publishes them when they are coherently pinned. */
    method PublishCurrent(r: Id, generation: nat, settlement: Option<Settlement>) returns (ok: bool)
      requires Durable(Writing(r, generation)) && snapshot == InProgress(r, generation)
      requires settlement.Some? ==> r in settlements && settlements[r] == settlement.value
      modifies this`snapshot, this`saves, this`world
      ensures Valid()
      ensures ok <==> r in jobs && r in claims && Coherent(jobs[r], claims[r], generation)
      ensures snapshot == if ok then Current(r, generation, jobs[r], claims[r], settlement) else InProgress(r, generation)
    {
      if r !in jobs || r !in claims || !Coherent(jobs[r], claims[r], generation) {
        Take(Leave);
        return false;
      }
      Take(Publish(settlement));
      snapshot := Current(r, generation, jobs[r], claims[r], settlement);
      return true;
    }

    /** What every operation leaves on disk: its own CURRENT snapshot, or its marker. */
    ghost predicate Finished(r: Id, before: Snapshot, ok: bool)
      reads this
    {
      && (if ok then snapshot.Current? else snapshot.InProgress?)
      && snapshot.request == r && Generation(snapshot) == Generation(before) + 1
    }

    /** Prepares the executor, reserves the ledger, publishes. It succeeds exactly for a request
        that neither store knows and both admit: a replay finds records pinned to an older
        generation, and only leaves its marker. */
    method PrepareAndReserve(r: Id, a: Admission) returns (ok: bool)
      requires Valid()
      modifies this
      ensures Valid() && settlements == old(settlements) && Finished(r, old(snapshot), ok)
      ensures ok <==> r !in old(jobs) && r !in old(claims) && a.executorAdmits && a.ledgerAdmits
      ensures var g := Generation(snapshot);
        ok ==>
          && jobs == old(jobs)[r := JobRecord(a.endpoint, a.mode, a.authScope, None, Prepared, g)]
          && claims == old(claims)[r := ClaimRecord(a.episode, a.endpoint, a.mode, a.cap, a.authScope, a.experiment,
                                                    None, Reserved, None, g)]
      ensures r in old(jobs) ==> jobs == old(jobs)
      ensures r in old(claims) ==> claims == old(claims)
    {
      hide Recorded;
      var g := BeginWrite(r);
      var prepared := PrepareIntent(r, g, a);
      if !prepared {
        Abandon(r, g);
        return false;
      }
      var reserved := Reserve(r, g, a, jobs[r].authScope);
      if !reserved {
        Abandon(r, g);
        return false;
      }
      ok := PublishCurrent(r, g, None);
    }

    /** The executor's intent: two commits for a new request, none for a known one. */
    method PrepareIntent(r: Id, g: nat, a: Admission) returns (ok: bool)
      requires Durable(Writing(r, g))
      modifies this`jobs, this`saves, this`world
      ensures Durable(Writing(r, g))
      ensures r in old(jobs) ==> jobs == old(jobs) && (ok <==> jobs[r].status != Submitted)
      ensures r !in old(jobs) ==> ok == a.executorAdmits
      ensures r !in old(jobs) ==>
        jobs == if ok then old(jobs)[r := JobRecord(a.endpoint, a.mode, a.authScope, None, Prepared, g)] else old(jobs)
    {
      hide Recorded;
      if r in jobs {
        return jobs[r].status != Submitted;
      }
      if !a.executorAdmits {
        return false;
      }
      PutJob(r, g, JobRecord(a.endpoint, a.mode, a.authScope, None, IntentStatus, g));
      PutJob(r, g, jobs[r].(status := Prepared));
      assert jobs == old(jobs)[r := JobRecord(a.endpoint, a.mode, a.authScope, None, Prepared, g)];
      return true;
    }

    /** The ledger's reservation: a known claim is returned as it is. */
    method Reserve(r: Id, g: nat, a: Admission, authScope: string) returns (ok: bool)
      requires Durable(Writing(r, g))
      modifies this`claims, this`saves, this`world
      ensures Durable(Writing(r, g))
      ensures r in old(claims) ==> claims == old(claims)
      ensures r in old(claims) ==>
        var known := claims[r];
        ok <==>
          && known.episode == a.episode && known.endpoint == a.endpoint && known.mode == a.mode && known.cap == a.cap
          && known.authScope == authScope && known.experiment == a.experiment && known.provider == None
      ensures r !in old(claims) ==> ok == a.ledgerAdmits
      ensures r !in old(claims) ==> claims == if ok then old(claims)[r := NewClaim(a, authScope, g)] else old(claims)
    {
      hide Recorded;
      if r in claims {
        var row := claims[r];
        return row.episode == a.episode && row.endpoint == a.endpoint && row.cap == a.cap && row.experiment == a.experiment
          && row.authScope == authScope && row.mode == a.mode && row.provider == None;
      }
      if !a.ledgerAdmits {
        return false;
      }
      PutClaim(r, g, NewClaim(a, authScope, g));
      return true;
    }

    /** Binds the remote id in both stores. It succeeds exactly once for a request, when neither
        store knows an id. A replay, also one after a crash between the two stores, leaves both
        bound but publishes nothing, because a store that knows the id is not pinned again. */
    method CheckpointProviderBinding(r: Id, provider: string) returns (ok: bool)
      requires Valid()
      modifies this
      ensures Valid() && settlements == old(settlements) && Finished(r, old(snapshot), ok)
      ensures ok <==>
        && ValidProvider(provider) && r in old(jobs) && r in old(claims)
        && old(jobs)[r].provider == None && Agree(old(jobs)[r], old(claims)[r])
      ensures var g := Generation(snapshot);
        ok ==>
          && jobs == old(jobs)[r := old(jobs)[r].(provider := Some(provider), status := Submitted, generation := g)]
          && claims == old(claims)[r := old(claims)[r].(provider := Some(provider), generation := g)]
      ensures ValidProvider(provider) && r in old(jobs) && r in old(claims)
              && old(jobs)[r].provider in {None, Some(provider)} && old(claims)[r].provider in {None, Some(provider)} ==>
        r in jobs && r in claims && jobs[r].provider == Some(provider) == claims[r].provider
    {
      hide Recorded;
      var g := BeginWrite(r);
      if provider == "" || |provider| > 512 || r !in jobs || jobs[r].provider !in {None, Some(provider)} {
        Abandon(r, g);
        return false;
      }
      if jobs[r].provider == None {
        PutJob(r, g, jobs[r].(provider := Some(provider), status := Submitted, generation := g));
      }
      if provider == "UNASSIGNED" || r !in claims || claims[r].provider !in {None, Some(provider)} {
        Abandon(r, g);
        return false;
      }
      if claims[r].provider == None {
        PutClaim(r, g, claims[r].(provider := Some(provider), generation := g));
      }
      ok := PublishCurrent(r, g, None);
    }

    /** Keeps an ambiguous liability. It also publishes what an interrupted operation left
        unpublished, as soon as both stores name the same remote request. */
    method MarkUnknown(r: Id) returns (ok: bool)
      requires Valid()
      modifies this
      ensures Valid() && settlements == old(settlements) && Finished(r, old(snapshot), ok)
      ensures ok <==> r in old(jobs) && r in old(claims) && old(claims)[r].actual == None && Agree(old(jobs)[r], old(claims)[r])
      ensures jobs == if r in old(jobs) then old(jobs)[r := old(jobs)[r].(generation := Generation(snapshot))] else old(jobs)
      ensures ok ==> claims == old(claims)[r := old(claims)[r].(state := Unknown, generation := Generation(snapshot))]
      ensures !ok && (r in old(claims) ==> old(claims)[r].actual.Some?) ==> claims == old(claims)
    {
      hide Recorded;
      var g := BeginWrite(r);
      if r !in jobs {
        Abandon(r, g);
        return false;
      }
      PutJob(r, g, jobs[r].(generation := g));
      if r !in claims || claims[r].actual.Some? {
        Abandon(r, g);
        return false;
      }
      PutClaim(r, g, claims[r].(state := Unknown, generation := g));
      ok := PublishCurrent(r, g, None);
    }

    /** Settles the claim by a verified receipt, once; a replay of the same receipt pins both
        stores again and publishes, any other receipt is refused. A receipt that is not about
        the claim's own endpoint, remote request, scope and mode changes no claim and is not
        kept. */
    method SettleVerifiedReceipt(s: Settlement, canonical: bool) returns (ok: bool)
      requires Valid()
      modifies this
      ensures Valid() && Finished(s.request, old(snapshot), ok)
      ensures ok <==>
        && canonical && s.request in old(jobs) && s.request in old(claims)
        && (s.request in old(settlements) ==> old(settlements)[s.request] == s)
        && var job, claim := old(jobs)[s.request], old(claims)[s.request];
           && claim.endpoint == s.endpoint && claim.provider == Some(s.provider)
           && claim.authScope == s.authScope && claim.mode == s.mode && (s.fixture ==> claim.mode == TestMode)
           && job.endpoint == s.endpoint && job.provider == Some(s.provider) && job.authScope == s.authScope
      ensures ok ==> settlements == old(settlements)[s.request := s]
      ensures ok ==>
        claims == old(claims)[s.request := old(claims)[s.request].(state := Settled, actual := Some(s.actual),
                                                                   generation := Generation(snapshot))]
      ensures s.request !in old(claims) ==> claims == old(claims)
      ensures s.request in old(claims)
              && (old(claims)[s.request].endpoint != s.endpoint || old(claims)[s.request].provider != Some(s.provider)
                  || old(claims)[s.request].authScope != s.authScope || old(claims)[s.request].mode != s.mode) ==>
        !ok && claims == old(claims) && settlements == old(settlements)
      ensures jobs == if s.request in old(jobs)
                      then old(jobs)[s.request := old(jobs)[s.request].(generation := Generation(snapshot))] else old(jobs)
      ensures forall r :: r in old(settlements) ==> r in settlements && settlements[r] == old(settlements)[r]
    {
      hide Recorded;
      var r := s.request;
      var g := BeginWrite(r);
      if r !in jobs {
        Abandon(r, g);
        return false;
      }
      PutJob(r, g, jobs[r].(generation := g));
      var settled := canonical && r in claims;
      if settled {
        settled := SettleClaim(g, s);
      }
      if !settled {
        Abandon(r, g);
        return false;
      }
      PutClaim(r, g, claims[r].(generation := g));
      ok := PublishCurrent(r, g, Some(s));
    }

    /** The ledger's transaction: receipt and claim in one commit, or nothing. */
    method SettleClaim(g: nat, s: Settlement) returns (ok: bool)
      requires Durable(Writing(s.request, g)) && s.request in claims
      modifies this`claims, this`settlements, this`saves, this`world
      ensures Durable(Writing(s.request, g))
      ensures var claim := old(claims)[s.request];
        ok <==>
          && (s.request in old(settlements) ==> old(settlements)[s.request] == s)
          && claim.endpoint == s.endpoint && claim.provider == Some(s.provider)
          && claim.authScope == s.authScope && claim.mode == s.mode && (s.fixture ==> claim.mode == TestMode)
      ensures !ok ==> claims == old(claims) && settlements == old(settlements)
      ensures ok ==> settlements == old(settlements)[s.request := s]
      ensures ok && s.request in old(settlements) ==>
        claims == old(claims) && claims[s.request].state == Settled && claims[s.request].actual == Some(s.actual)
      ensures ok && s.request !in old(settlements) ==>
        claims == old(claims)[s.request := old(claims)[s.request].(state := Settled, actual := Some(s.actual), generation := g)]
    {
      hide Recorded, Coherent;
      WorldIsSound();
      var r := s.request;
      var row := claims[r];
      if row.endpoint != s.endpoint || row.provider != Some(s.provider) || row.authScope != s.authScope || row.mode != s.mode
         || (s.fixture && row.mode != TestMode) {
        return false;
      }
      if r in settlements {
        return settlements[r] == s && row.actual == Some(s.actual) && row.state == Settled;
      }
      if row.actual != None {
        return false;
      }
      Take(Settle(s));
      settlements := settlements[r := s];
      claims := claims[r := row.(state := Settled, actual := Some(s.actual), generation := g)];
      return true;
    }
  }

  predicate ValidProvider(provider: string) {
    provider != "" && provider != "UNASSIGNED" && |provider| <= 512
  }

  function NewClaim(a: Admission, authScope: string, g: nat): ClaimRecord {
    ClaimRecord(a.episode, a.endpoint, a.mode, a.cap, authScope, a.experiment, None, Reserved, None, g)
  }
}
