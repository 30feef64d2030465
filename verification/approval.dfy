/** The inbound service that turns one authenticated reply into one human approval. The ghost
    field `saves` is the run so far, one entry per durable write, so every prefix is what a
    crash would leave and the theorems on approval runs apply to it. */
module Approval {
  import opened Wrappers
  import opened Artifacts
  import opened Texts
  import opened Receipts
  import opened InboundJournal
  import opened ApprovalModel
  import opened ApprovalRuns
  import Runs

  datatype ApprovalError = NotBound | NoAuthority | NotPending

  datatype Response =
    | Unauthorized | Rejected | UnknownDelivery
    | NotApproved(error: ApprovalError) | Inconsistent
    | Acknowledged | Recovered | Approved

  predicate Succeeded(r: Response) {
    r in {Acknowledged, Recovered, Approved}
  }

  ghost predicate Recorded(s: Settings, saves: seq<World>, world: World) {
    saves != [] && IsApprovalRun(s, saves) && saves[|saves| - 1] == world
  }

  lemma RecordStep(s: Settings, saves: seq<World>, world: World, step: Step)
    requires Recorded(s, saves, world) && Enabled(s, step, world)
    ensures Recorded(s, saves + [Effect(s, step, world)], Effect(s, step, world))
  {
    Runs.Continue(Init, (w, w') => Next(s, w, w'), saves, Effect(s, step, world));
  }

  /** The delivery receipt of a gate binds this file, as it is now, to the configured chat. */
  predicate BindsDelivery(s: Settings, delivered: map<SlotKey, DeliveryReceipt>, key: SlotKey, path: Path, files: Files) {
    && key in delivered
    && var d := delivered[key];
       && d.intent.episode == key.episode && d.intent.approval.kind == key.kind && d.messageId > 0
       && d.intent.chatId == s.chatId && Verifies(d.intent.approval, files) && path == d.intent.approval.path
  }

  /** With an approval already stored, or a journaled command, the delivery can be confirmed. */
  ghost predicate Confirmable(s: Settings, w: World, key: SlotKey, path: Path, files: Files) {
    && BindsDelivery(s, w.delivered, key, path, files)
    && (key in w.approvals || CommandJournaled(s, w, w.delivered[key].messageId, key))
  }

  /** The reply that a claim or a recovery finds, and whether it is the command. */
  lemma JournaledReply(s: Settings, w: World, key: SlotKey, m: nat, now: nat)
    requires JournalSound(s, w) && m > 0
    ensures var claimed := Claimed(s, w.rows, s.chatId, m, now).1;
      var reply := if claimed.Some? then claimed else Consumed(s, w.rows, s.chatId, m);
      && (Authority(s, key, m, reply) <==> CommandJournaled(s, w, m, key))
      && (claimed.Some? ==> Consumed(s, Claimed(s, w.rows, s.chatId, m, now).0, s.chatId, m) == claimed)
  {
    if Claimed(s, w.rows, s.chatId, m, now).1.Some? {
      ClaimKeeps(s, w.rows, s.chatId, m, now);
      ClaimedOnce(s, w.rows, Claimed(s, w.rows, s.chatId, m, now).0, s.chatId, m, now, now);
    }
  }

  class ApprovalService {
    const adapter: Adapter
    var delivered: map<SlotKey, DeliveryReceipt>
    var deliveries: map<nat, Record>
    var approvals: map<SlotKey, ApprovalReceipt>
    var states: map<Episode, Lifecycle>
    var outcomes: map<nat, Outcome>
    var outbox: map<Episode, Eligibility>
    ghost var saves: seq<World>
    ghost var world: World

    ghost predicate Valid()
      reads this, adapter
    {
      && adapter.Valid() && adapter.settings.secret != ""
      && Recorded(adapter.settings, saves, world)
      && world == World(adapter.rows, delivered, deliveries, approvals, states, outcomes, outbox, world.granted, world.advances)
    }

    /** A service over whatever crashed processes left at any point of their run. */
    constructor (adapter: Adapter, delivered: map<SlotKey, DeliveryReceipt>, deliveries: map<nat, Record>,
                 approvals: map<SlotKey, ApprovalReceipt>, states: map<Episode, Lifecycle>,
                 outcomes: map<nat, Outcome>, outbox: map<Episode, Eligibility>, ghost history: seq<World>)
      requires adapter.Valid() && adapter.settings.secret != ""
      requires history != [] && IsApprovalRun(adapter.settings, history)
      requires history[|history| - 1] == World(adapter.rows, delivered, deliveries, approvals, states, outcomes, outbox,
                                               history[|history| - 1].granted, history[|history| - 1].advances)
      ensures Valid() && this.adapter == adapter && saves == history
    {
      this.adapter := adapter;
      this.delivered, this.deliveries, this.approvals := delivered, deliveries, approvals;
      this.states, this.outcomes, this.outbox := states, outcomes, outbox;
      saves, world := history, history[|history| - 1];
    }

    lemma WorldIsSound()
      requires Valid()
      ensures Inv(adapter.settings, world)
    {
      HoldsAt(adapter.settings, saves, |saves| - 1);
    }

    ghost method Take(step: Step)
      requires Recorded(adapter.settings, saves, world) && Enabled(adapter.settings, step, world)
      modifies this`saves, this`world
      ensures Recorded(adapter.settings, saves, world) && world == Effect(adapter.settings, step, old(world))
    {
      RecordStep(adapter.settings, saves, world, step);
      world := Effect(adapter.settings, step, world);
      saves := saves + [world];
    }

    // ---------- The approval controller ----------

    /** Takes the fresh reply to a delivery, or the one an interrupted approval has taken. */
    method ClaimOrRecover(key: SlotKey, m: nat, now: nat) returns (reply: Option<Reply>)
      requires Valid() && m > 0
      modifies this`saves, this`world, adapter
      ensures Valid() && world == old(world).(rows := adapter.rows, granted := world.granted)
      ensures Authority(adapter.settings, key, m, reply) <==> CommandJournaled(adapter.settings, old(world), m, key)
      ensures reply.Some? ==> Consumed(adapter.settings, adapter.rows, adapter.settings.chatId, m) == reply
    {
      hide Recorded, Claimed, Consumed, Authority, CommandJournaled, Validated;
      WorldIsSound();
      JournaledReply(adapter.settings, world, key, m, now);
      reply := adapter.ClaimVerifiedReply(adapter.settings.chatId, m, now);
      if reply.Some? {
        Take(Claim(m, now));
        return;
      }
      UnclaimedChangesNothing(adapter.settings, old(adapter.rows), m, now);
      reply := adapter.ReadConsumedReply(adapter.settings.chatId, m);
    }

    static lemma UnclaimedChangesNothing(s: Settings, rows: Rows, m: nat, now: nat)
      ensures Claimed(s, rows, s.chatId, m, now).1.None? ==> Claimed(s, rows, s.chatId, m, now).0 == rows
    {
    }

    /** Persists a receipt when the journaled reply is the command for the delivered bytes, or
        revalidates the stored one. */
    method ConfirmDelivery(key: SlotKey, path: Path, files: Files, now: nat)
        returns (r: Result<ApprovalReceipt, ApprovalError>)
      requires Valid()
      modifies this`approvals, this`saves, this`world, adapter
      ensures Valid()
      ensures world == old(world).(rows := adapter.rows, granted := world.granted, approvals := approvals)
      ensures r.Ok? <==> Confirmable(adapter.settings, old(world), key, path, files)
      ensures r.Ok? ==> r.value.path == path && path in files && r.value.sha256 == files[path]
      ensures r.Ok? ==> approvals == if key in old(approvals) then old(approvals) else old(approvals)[key := r.value]
      ensures r.Ok? ==> key in approvals && approvals[key] == r.value
      ensures r.Ok? && key !in old(approvals) ==> r.value.approvedAt == now
      ensures r.Err? ==> approvals == old(approvals)
    {
      hide Recorded, Claimed, Consumed, Authority, CommandJournaled, Inv;
      if !BindsDelivery(adapter.settings, delivered, key, path, files) {
        return Err(NotBound);
      }
      var d := delivered[key];
      if key in approvals {
        r := Revalidate(key, path, files);
        return;
      }
      var m: nat := d.messageId;
      var reply := ClaimOrRecover(key, m, now);
      if !Authority(adapter.settings, key, m, reply) {
        return Err(NoAuthority);
      }
      assert reply.Some? by {
        AuthorityNeedsReply(adapter.settings, key, m, reply);
      }
      var receipt := ApprovalReceipt(key.kind, path, files[path], "TELEGRAM:" + reply.value.senderId, now, reply);
      Take(SaveApproval(key, receipt));
      approvals := approvals[key := receipt];
      return Ok(receipt);
    }

    static lemma AuthorityNeedsReply(s: Settings, key: SlotKey, m: nat, reply: Option<Reply>)
      requires Authority(s, key, m, reply)
      ensures reply.Some?
    {
    }

    /** A stored approval of intact bytes always revalidates. */
    method Revalidate(key: SlotKey, path: Path, files: Files) returns (r: Result<ApprovalReceipt, ApprovalError>)
      requires Valid() && key in approvals && BindsDelivery(adapter.settings, delivered, key, path, files)
      ensures r == Ok(approvals[key])
      ensures r.Ok? ==> r.value.path == path && path in files && r.value.sha256 == files[path]
    {
      WorldIsSound();
      assert ApprovalStands(adapter.settings, world, key, approvals[key]);
      var receipt := approvals[key];
      if !Verifies(receipt, files) || receipt.kind != key.kind || receipt.path != path || receipt.inbound.None? {
        assert false;
      }
      var reply := adapter.RevalidateReply(receipt.inbound.value);
      if !Authority(adapter.settings, key, delivered[key].messageId, reply) {
        assert false;
      }
      return Ok(receipt);
    }

    // ---------- The Director ----------

    /** Confirms the delivery of the open gate and advances the episode. */
    method ConfirmDeliveredArtifact(key: SlotKey, path: Path, files: Files, now: nat)
        returns (r: Result<ApprovalReceipt, ApprovalError>)
      requires Valid()
      modifies this`approvals, this`states, this`saves, this`world, adapter
      ensures Valid()
      ensures outcomes == old(outcomes) && outbox == old(outbox) && world.deliveries == old(world).deliveries
      ensures r.Ok? <==>
        && StateOf(old(states), key.episode) == Expected(key.kind)
        && Confirmable(adapter.settings, old(world), key, path, files)
      ensures r.Ok? ==> r.value.path == path && path in files && r.value.sha256 == files[path]
      ensures r.Ok? ==> approvals == if key in old(approvals) then old(approvals) else old(approvals)[key := r.value]
      ensures r.Ok? ==> key in approvals && approvals[key] == r.value && Kept(old(approvals), approvals)
      ensures r.Ok? && key !in old(approvals) ==> r.value.approvedAt == now
      ensures r.Err? ==> approvals == old(approvals)
      ensures states == if r.Ok? then old(states)[key.episode := NextState(key.kind)] else old(states)
      ensures world.advances == old(world).advances + if r.Ok? then [key] else []
    {
      hide Recorded, Confirmable;
      if StateOf(states, key.episode) != Expected(key.kind) {
        return Err(NotPending);
      }
      r := ConfirmDelivery(key, path, files, now);
      if r.Err? {
        return;
      }
      Take(Advance(key));
      states := states[key.episode := NextState(key.kind)];
    }

    // ---------- The service ----------

    /** One transaction: the result row and, for a thumbnail, the outbox row. */
    method PersistOutcome(m: nat) returns (ok: bool)
      requires Valid() && m in deliveries && deliveries[m].key in approvals
      requires StateOf(states, deliveries[m].key.episode) == NextState(deliveries[m].key.kind)
      modifies this`outcomes, this`outbox, this`saves, this`world
      ensures Valid()
      ensures world == old(world).(outcomes := outcomes, outbox := outbox)
      ensures var r := deliveries[m];
        var outcome := OutcomeOf(old(world), r.key);
        && (ok <==> NoConflict(old(world), r) && (m in old(outcomes) ==> old(outcomes)[m] == outcome))
        && outcomes == (if ok then old(outcomes)[m := outcome] else old(outcomes))
        && outbox == (if ok && r.key.kind == Thumbnail then old(outbox)[r.key.episode := EligibilityOf(r)] else old(outbox))
    {
      hide Recorded;
      var r := deliveries[m];
      var receipt := approvals[r.key];
      var outcome := Outcome(r.key, receipt.sha256, receipt, StateOf(states, r.key.episode));
      if m in outcomes && outcomes[m] != outcome {
        return false;
      }
      if r.key.kind == Thumbnail && r.key.episode in outbox && outbox[r.key.episode] != EligibilityOf(r) {
        return false;
      }
      Take(Commit(m));
      outcomes := outcomes[m := outcome];
      if r.key.kind == Thumbnail {
        outbox := outbox[r.key.episode := EligibilityOf(r)];
      }
      return true;
    }

    /** The state of a gate that its stored approval has passed, if all of it still holds. */
    method RevalidateCompleted(m: nat, files: Files) returns (state: Option<Lifecycle>)
      requires Valid() && m in deliveries
      ensures var r := deliveries[m];
        state == if r.key in approvals && StateOf(states, r.key.episode) == NextState(r.key.kind)
                    && BindsDelivery(adapter.settings, delivered, r.key, r.path, files)
                 then Some(NextState(r.key.kind)) else None
    {
      hide Recorded;
      var r := deliveries[m];
      if r.key !in approvals || StateOf(states, r.key.episode) != NextState(r.key.kind)
         || !BindsDelivery(adapter.settings, delivered, r.key, r.path, files) {
        return None;
      }
      var receipt := Revalidate(r.key, r.path, files);
      assert receipt.value.sha256 == r.sha256 by {
        WorldIsSound();
      }
      return Some(StateOf(states, r.key.episode));
    }

    /** Commits the result of a gate that has been passed; only an outbox row with other bytes
        stands in the way. */
    method Complete(m: nat) returns (ok: bool)
      requires Valid() && m in deliveries && deliveries[m].key in approvals
      requires StateOf(states, deliveries[m].key.episode) == NextState(deliveries[m].key.kind)
      modifies this`outcomes, this`outbox, this`saves, this`world
      ensures Valid() && world == old(world).(outcomes := outcomes, outbox := outbox)
      ensures ok <==> NoConflict(old(world), deliveries[m])
      ensures ok ==> Done(world, m)
      ensures !ok ==> world == old(world)
    {
      hide Recorded, ApprovalsSound, JournalSound, GrantsSound;
      WorldIsSound();
      ApprovalBindsRecord(adapter.settings, world, m);
      ok := PersistOutcome(m);
    }

    /** Takes the gate of one delivered message as far as authority and state allow. It ends
        approved exactly when a replay can succeed, from whatever a crash has left; then the
        receipt that was there is kept, and receipt, state, result and outbox row are all
        there. Otherwise no result is committed. */
    method ProcessRecord(m: nat, files: Files, now: nat) returns (response: Response)
      requires Valid() && m in deliveries
      modifies this, adapter
      ensures Valid() && deliveries == old(deliveries)
      ensures Replays(adapter.settings, old(world), world, m, files, Succeeded(response))
      ensures response == Acknowledged ==> world.advances == old(world).advances
      ensures response in {Recovered, Approved} ==> world.advances == old(world).advances + [deliveries[m].key]
      ensures response in {Acknowledged, Recovered} ==> approvals == old(approvals)
      ensures response == Approved ==> deliveries[m].key !in old(approvals) && approvals[deliveries[m].key].approvedAt == now
    {
      hide Recorded, Done, Completable, Confirmable, Verifies, BindsDelivery;
      var r := deliveries[m];
      var recovering := r.key in approvals;
      CompletableCases(adapter.settings, m, files);
      var completed := RevalidateCompleted(m, files);
      if completed.Some? {
        var ok := Complete(m);
        return if ok then Acknowledged else Inconsistent;
      }
      var receipt := ConfirmDeliveredArtifact(r.key, r.path, files, now);
      if receipt.Err? {
        return NotApproved(receipt.error);
      }
      // The service's own comparison of the two hashes never fails.
      assert receipt.value.sha256 == r.sha256 by {
        WorldIsSound();
        ApprovalBindsRecord(adapter.settings, world, m);
      }
      var ok := Complete(m);
      if !ok {
        return Inconsistent;
      }
      return if recovering then Recovered else Approved;
    }

    /** The two ways a replay can succeed, as the code finds them. */
    lemma CompletableCases(s: Settings, m: nat, files: Files)
      requires Valid() && m in deliveries && s == adapter.settings
      ensures var r := deliveries[m];
        Completable(s, world, m, files) <==>
          && NoConflict(world, r)
          && ((StateOf(states, r.key.episode) == NextState(r.key.kind) && r.key in approvals
               && BindsDelivery(s, delivered, r.key, r.path, files))
              || (StateOf(states, r.key.episode) == Expected(r.key.kind) && Confirmable(s, world, r.key, r.path, files)))
    {
      hide Recorded, OutcomesSound, GrantsSound, CommandJournaled, ApprovalsSound;
      WorldIsSound();
      if deliveries[m].key in approvals {
        ApprovedWasJournaled(s, world, deliveries[m].key, m);
      }
    }

    // ---------- Deliveries and webhooks ----------

    /** Binds the message of a durable delivery receipt to its media; idempotent. */
    method RegisterDelivery(key: SlotKey, files: Files) returns (ok: bool)
      requires Valid() && key in delivered
      modifies this`deliveries, this`saves, this`world
      ensures Valid() && world == old(world).(deliveries := deliveries)
      ensures ok <==>
        && Registrable(adapter.settings, delivered, key, files)
        && (delivered[key].messageId in old(deliveries) ==>
              old(deliveries)[delivered[key].messageId] == RecordOf(key, delivered[key]))
      ensures deliveries ==
        if ok then old(deliveries)[delivered[key].messageId := RecordOf(key, delivered[key])] else old(deliveries)
    {
      hide Recorded;
      var d := delivered[key];
      if d.messageId <= 0 || d.intent.chatId != adapter.settings.chatId || !Verifies(d.intent.approval, files) {
        return false;
      }
      if d.messageId in deliveries {
        return deliveries[d.messageId] == RecordOf(key, d);
      }
      Take(Register(key));
      deliveries := deliveries[d.messageId := RecordOf(key, d)];
      return true;
    }

    /** Authenticates and journals one update, finds its delivery, and processes the gate. The
        delivery is found exactly when it is registered or a durable receipt can be registered
        now; then the answer is approved exactly when the approval can be completed. */
    method HandleWebhook(body: Option<Json>, header: Option<string>, files: Files, now: nat) returns (response: Response)
      requires Valid()
      modifies this, adapter
      ensures Valid()
      ensures header != Some(adapter.settings.secret) ==> response == Unauthorized && world == old(world)
      ensures header == Some(adapter.settings.secret) ==>
        var claims := ClaimsFrom(adapter.settings, body);
        && (claims.None? ==> response == Rejected && world == old(world))
        && (claims.Some? ==>
              var (rows, admitted) := Ingested(adapter.settings.secret, old(adapter.rows), claims.value);
              var m := claims.value.replyTo;
              var journaled := old(world).(rows := rows);
              && (!admitted ==> response == Rejected && world == journaled)
              && (admitted ==> LocatesDelivery(adapter.settings, old(deliveries), old(delivered), deliveries, m, files))
              && (admitted && m !in deliveries ==> response == UnknownDelivery && world == journaled)
              && (admitted && m in deliveries ==>
                    Replays(adapter.settings, journaled.(deliveries := deliveries), world, m, files, Succeeded(response))))
      ensures header == Some(adapter.settings.secret) ==>
        var claims := ClaimsFrom(adapter.settings, body);
        claims.Some? && Awaits(adapter.settings, old(world), claims.value, files) ==>
          var r := old(deliveries)[claims.value.replyTo];
          && (Succeeded(response) <==> claims.value.text == (if r.key.kind == Thumbnail then "APROVAR THUMBNAIL " else "APROVAR V\U{CD}DEO ")
                                                             + Decimal(r.key.episode))
          && (Succeeded(response) ==> ApprovedFor(world, claims.value.replyTo, r))
    {
      hide Recorded, Replays;
      if header != Some(adapter.settings.secret) {
        return Unauthorized;
      }
      WorldIsSound();
      var admitted := adapter.IngestWebhook(body, header);
      var claims := ClaimsFrom(adapter.settings, body);
      if claims.None? {
        return Rejected;
      }
      Take(Ingest(claims.value));
      if !admitted {
        return Rejected;
      }
      var m := claims.value.replyTo;
      if m !in deliveries {
        var found := RecoverDelivery(m, files);
        if !found {
          return UnknownDelivery;
        }
      }
      ghost var before := world;
      response := ProcessRecord(m, files, now);
      if Awaits(adapter.settings, old(world), claims.value, files) {
        CommandDecides(adapter.settings, old(world), before, world, claims.value, files, Succeeded(response));
      }
    }

    /** Finds a durable delivery receipt that an interrupted delivery did not register, and
        passes over receipts of another chat and those whose bytes have changed. */
    method RecoverDelivery(m: nat, files: Files) returns (found: bool)
      requires Valid() && m !in deliveries
      modifies this`deliveries, this`saves, this`world
      ensures Valid() && world == old(world).(deliveries := deliveries)
      ensures found <==> m in deliveries
      ensures LocatesDelivery(adapter.settings, old(deliveries), delivered, deliveries, m, files)
    {
      hide Recorded;
      if exists key :: key in delivered && delivered[key].messageId == m && Registrable(adapter.settings, delivered, key, files) {
        var key :| key in delivered && delivered[key].messageId == m && Registrable(adapter.settings, delivered, key, files);
        found := RegisterDelivery(key, files);
        return;
      }
      return false;
    }
  }

  /** The durable receipt of this slot describes a delivery to the configured chat whose bytes
      are still there. */
  predicate Registrable(s: Settings, delivered: map<SlotKey, DeliveryReceipt>, key: SlotKey, files: Files) {
    && key in delivered && delivered[key].messageId > 0
    && delivered[key].intent.chatId == s.chatId && Verifies(delivered[key].intent.approval, files)
  }

  /** How the registry looks after message `m` was looked up: unchanged when it was there,
      extended by one matching receipt when there is one, unchanged otherwise. */
  predicate LocatesDelivery(s: Settings, before: map<nat, Record>, delivered: map<SlotKey, DeliveryReceipt>,
                            after: map<nat, Record>, m: nat, files: Files)
  {
    if m in before then after == before
    else if m in after then
      exists key :: key in delivered && delivered[key].messageId == m && Registrable(s, delivered, key, files)
                    && after == before[m := RecordOf(key, delivered[key])]
    else
      && after == before
      && forall key :: key in delivered && delivered[key].messageId == m ==> !Registrable(s, delivered, key, files)
  }

  /** Nothing stands in the way of an approval but the text of this reply: it is the first to a
      registered message whose bytes and delivery receipt are intact and whose gate is open. */
  ghost predicate Awaits(s: Settings, w: World, c: Claims, files: Files) {
    && c.updateId !in w.rows
    && (forall k :: k in w.rows ==>
          && w.rows[k].claims.messageId != c.messageId
          && !(w.rows[k].claims.chatId == c.chatId && w.rows[k].claims.replyTo == c.replyTo))
    && c.replyTo in w.deliveries
    && var r := w.deliveries[c.replyTo];
       && r.path in files && files[r.path] == r.sha256
       && r.key in w.delivered && w.delivered[r.key].intent.chatId == s.chatId
       && w.delivered[r.key].intent.episode == r.key.episode && w.delivered[r.key].intent.approval.kind == r.key.kind
       && r.key.episode in w.states
       && w.states[r.key.episode] == (if r.key.kind == Thumbnail then WaitingThumbnail else WaitingVideo)
       && (r.key.kind == Thumbnail && r.key.episode in w.outbox ==>
             w.outbox[r.key.episode] == Eligibility(r.path, r.sha256))
  }

  /** All an approval leaves behind, for the bytes of the delivered message. */
  ghost predicate ApprovedFor(w: World, m: nat, r: Record) {
    && r.key in w.approvals && w.approvals[r.key].sha256 == r.sha256
    && r.key.episode in w.states
    && w.states[r.key.episode] == (if r.key.kind == Thumbnail then WaitingVideo else WaitingFinal)
    && m in w.outcomes && w.outcomes[m] == Outcome(r.key, r.sha256, w.approvals[r.key], w.states[r.key.episode])
    && (r.key.kind == Thumbnail ==> r.key.episode in w.outbox && w.outbox[r.key.episode] == Eligibility(r.path, r.sha256))
  }

  /** Then the text decides: exactly one approves, and all that an approval leaves is there. */
  lemma CommandDecides(s: Settings, w: World, journaled: World, w': World, c: Claims, files: Files, ok: bool)
    requires Inv(s, w) && Awaits(s, w, c, files) && c.chatId == s.chatId
    requires journaled == w.(rows := Ingested(s.secret, w.rows, c).0)
    requires Replays(s, journaled, w', c.replyTo, files, ok)
    ensures var key := w.deliveries[c.replyTo].key;
      ok <==> c.text == (if key.kind == Thumbnail then "APROVAR THUMBNAIL " else "APROVAR V\U{CD}DEO ") + Decimal(key.episode)
    ensures ok ==> ApprovedFor(w', c.replyTo, w.deliveries[c.replyTo])
  {
    hide Inv, Awaits, Ingested, Completable, Done, Kept, Decimal, ApprovedFor;
    AwaitsMessage(s, w, c, files);
    CommandCompletes(s, w, journaled, c, files);
    if ok {
      DoneIsApprovedFor(w', c.replyTo);
    }
  }

  lemma AwaitsMessage(s: Settings, w: World, c: Claims, files: Files)
    requires Awaits(s, w, c, files)
    ensures c.replyTo in w.deliveries
  {
  }

  lemma CommandCompletes(s: Settings, w: World, journaled: World, c: Claims, files: Files)
    requires Inv(s, w) && Awaits(s, w, c, files) && c.chatId == s.chatId
    requires journaled == w.(rows := Ingested(s.secret, w.rows, c).0)
    ensures var key := w.deliveries[c.replyTo].key;
      Completable(s, journaled, c.replyTo, files) <==>
        c.text == (if key.kind == Thumbnail then "APROVAR THUMBNAIL " else "APROVAR V\U{CD}DEO ") + Decimal(key.episode)
  {
    hide Decimal, OutcomesSound, GrantsSound, ApprovalsSound, JournalSound, Ingested, RowFor;
    FirstReplyIsFound(s, w, journaled, c, files);
  }

  lemma DoneIsApprovedFor(w: World, m: nat)
    requires Done(w, m)
    ensures ApprovedFor(w, m, w.deliveries[m])
  {
  }

  /** The reply just journaled is the row of its delivery. */
  lemma FirstReplyIsFound(s: Settings, w: World, journaled: World, c: Claims, files: Files)
    requires Awaits(s, w, c, files) && c.chatId == s.chatId
    requires journaled == w.(rows := Ingested(s.secret, w.rows, c).0)
    ensures RowFor(journaled.rows, s.chatId, c.replyTo) == Some(c.updateId)
    ensures journaled.rows[c.updateId].claims == c
  {
    assert Answers(journaled.rows[c.updateId], s.chatId, c.replyTo);
    var k := RowFor(journaled.rows, s.chatId, c.replyTo);
    assert k.Some? && Answers(journaled.rows[k.value], s.chatId, c.replyTo);
  }

  lemma ApprovalBindsRecord(s: Settings, w: World, m: nat)
    requires Inv(s, w) && m in w.deliveries && w.deliveries[m].key in w.approvals
    ensures w.approvals[w.deliveries[m].key].sha256 == w.deliveries[m].sha256
    ensures m in w.outcomes ==> w.outcomes[m] == OutcomeOf(w, w.deliveries[m].key)
  {
    assert ApprovalStands(s, w, w.deliveries[m].key, w.approvals[w.deliveries[m].key]);
  }

  /** A stored approval rests on the journaled command. */
  lemma ApprovedWasJournaled(s: Settings, w: World, key: SlotKey, m: nat)
    requires Inv(s, w) && key in w.approvals && key in w.delivered && w.delivered[key].messageId == m
    ensures CommandJournaled(s, w, m, key)
  {
    assert ApprovalStands(s, w, key, w.approvals[key]);
  }
}
