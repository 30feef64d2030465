/** Human approval of delivered artifacts: everything durable that one approval touches, and
    every single durable write, so that a crash falls between any two of them. */
module ApprovalModel {
  import opened Wrappers
  import opened Artifacts
  import opened Texts
  import opened Receipts
  import opened InboundJournal
  import Runs

  /** The states of an episode that the approval gates read; all others are `Elsewhere`. */
  datatype Lifecycle = WaitingThumbnail | WaitingVideo | WaitingFinal | Elsewhere

  /** A registered delivery: which media a message of the chat carried. */
  datatype Record = Record(key: SlotKey, path: Path, sha256: Sha256)

  /** A committed result. The hash of the approval file is modelled by the file's content. */
  datatype Outcome = Outcome(key: SlotKey, sha256: Sha256, receipt: ApprovalReceipt, state: Lifecycle)

  /** The binding of an outbox row; its status does not concern approvals. */
  datatype Eligibility = Eligibility(path: Path, sha256: Sha256)

  /** `rows` is the journal, `delivered` and `approvals` are files, the rest are tables and the
      episode's state file. Ghost history: the replies claimed and the gates advanced. */
  datatype World = World(rows: Rows, delivered: map<SlotKey, DeliveryReceipt>, deliveries: map<nat, Record>,
                         approvals: map<SlotKey, ApprovalReceipt>, states: map<Episode, Lifecycle>,
                         outcomes: map<nat, Outcome>, outbox: map<Episode, Eligibility>,
                         granted: seq<Reply>, advances: seq<SlotKey>)

  datatype Step =
    | Deliver(key: SlotKey, receipt: DeliveryReceipt)
    | Register(key: SlotKey)
    | Ingest(claims: Claims)
    | Claim(replyTo: nat, now: nat)
    | SaveApproval(key: SlotKey, approval: ApprovalReceipt)
    | Advance(key: SlotKey)
    | Commit(messageId: nat)
    | Move(episode: Episode, state: Lifecycle)
    | EnqueueElsewhere(episode: Episode, eligibility: Eligibility)

  function Expected(kind: Kind): Lifecycle {
    match kind case Thumbnail => WaitingThumbnail case Video => WaitingVideo
  }

  function NextState(kind: Kind): Lifecycle {
    match kind case Thumbnail => WaitingVideo case Video => WaitingFinal
  }

  function StateOf(states: map<Episode, Lifecycle>, e: Episode): Lifecycle {
    if e in states then states[e] else Elsewhere
  }

  /** `approval_command`: the only text that approves a gate. */
  function Command(key: SlotKey): string {
    "APROVAR " + (match key.kind case Thumbnail => "THUMBNAIL " case Video => "V\U{CD}DEO ") + Decimal(key.episode)
  }

  /** No text approves two gates. */
  lemma CommandsDiffer(key: SlotKey, other: SlotKey)
    requires Command(key) == Command(other)
    ensures key == other
  {
    assert Command(key)[8] == if key.kind == Thumbnail then 'T' else 'V';
    assert Command(other)[8] == if other.kind == Thumbnail then 'T' else 'V';
    assert Command(key)[if key.kind == Thumbnail then 18 else 14..] == Decimal(key.episode);
    assert Command(other)[if other.kind == Thumbnail then 18 else 14..] == Decimal(other.episode);
    DecimalInjective(key.episode, other.episode);
  }

  function RecordOf(key: SlotKey, d: DeliveryReceipt): Record {
    Record(key, d.intent.approval.path, d.intent.approval.sha256)
  }

  /** What a valid approval of a delivery looks like: hash-bound, resting on the reply. */
  function ReceiptFor(key: SlotKey, d: DeliveryReceipt, reply: Reply, now: nat): ApprovalReceipt {
    ApprovalReceipt(key.kind, d.intent.approval.path, d.intent.approval.sha256, "TELEGRAM:" + reply.senderId, now, Some(reply))
  }

  /** `_require_authority`. */
  predicate Authority(s: Settings, key: SlotKey, messageId: int, reply: Option<Reply>) {
    && reply.Some? && reply.value.chatId == s.chatId && reply.value.senderId in s.senders
    && reply.value.replyTo == messageId && reply.value.text == Command(key)
  }

  /** The approval stored for a gate rests on the delivery and on the consumed reply to it. */
  ghost predicate ApprovalStands(s: Settings, w: World, key: SlotKey, receipt: ApprovalReceipt) {
    && key in w.delivered && w.delivered[key].messageId > 0 && receipt.inbound.Some?
    && receipt == ReceiptFor(key, w.delivered[key], receipt.inbound.value, receipt.approvedAt)
    && Authority(s, key, w.delivered[key].messageId, receipt.inbound)
    && Consumed(s, w.rows, s.chatId, w.delivered[key].messageId) == receipt.inbound
  }

  function OutcomeOf(w: World, key: SlotKey): Outcome
    requires key in w.approvals
  {
    Outcome(key, w.approvals[key].sha256, w.approvals[key], NextState(key.kind))
  }

  function EligibilityOf(r: Record): Eligibility {
    Eligibility(r.path, r.sha256)
  }

  /** The outbox does not contradict this delivery. */
  predicate NoConflict(w: World, r: Record) {
    r.key.kind == Thumbnail && r.key.episode in w.outbox ==> w.outbox[r.key.episode] == EligibilityOf(r)
  }

  ghost predicate Enabled(s: Settings, step: Step, w: World) {
    match step
    case Deliver(key, d) =>
      key !in w.delivered && d.intent.episode == key.episode && d.intent.approval.kind == key.kind && d.messageId > 0
    case Register(key) =>
      && key in w.delivered && w.delivered[key].messageId > 0
      && w.delivered[key].intent.chatId == s.chatId && w.delivered[key].messageId !in w.deliveries
    case Ingest(c) =>
      c.updateId > 0 && c.messageId > 0 && c.replyTo > 0 && c.senderId in s.senders && c.chatId == s.chatId
    case Claim(replyTo, now) => Claimed(s, w.rows, s.chatId, replyTo, now).1.Some?
    case SaveApproval(key, receipt) => key !in w.approvals && ApprovalStands(s, w, key, receipt)
    case Advance(key) => key in w.approvals && StateOf(w.states, key.episode) == Expected(key.kind)
    case Commit(m) =>
      && m in w.deliveries && w.deliveries[m].key in w.approvals && NoConflict(w, w.deliveries[m])
      && StateOf(w.states, w.deliveries[m].key.episode) == NextState(w.deliveries[m].key.kind)
    case Move(e, state) => true
    case EnqueueElsewhere(e, _) => e !in w.outbox
  }

  ghost function Effect(s: Settings, step: Step, w: World): World
    requires Enabled(s, step, w)
  {
    match step
    case Deliver(key, d) => w.(delivered := w.delivered[key := d])
    case Register(key) => w.(deliveries := w.deliveries[w.delivered[key].messageId := RecordOf(key, w.delivered[key])])
    case Ingest(c) => w.(rows := Ingested(s.secret, w.rows, c).0)
    case Claim(replyTo, now) =>
      var claimed := Claimed(s, w.rows, s.chatId, replyTo, now);
      w.(rows := claimed.0, granted := w.granted + [claimed.1.value])
    case SaveApproval(key, receipt) => w.(approvals := w.approvals[key := receipt])
    case Advance(key) =>
      w.(states := w.states[key.episode := NextState(key.kind)], advances := w.advances + [key])
    case Commit(m) =>
      var r := w.deliveries[m];
      w.(outcomes := w.outcomes[m := OutcomeOf(w, r.key)],
         outbox := if r.key.kind == Thumbnail then w.outbox[r.key.episode := EligibilityOf(r)] else w.outbox)
    case Move(e, state) => w.(states := w.states[e := state])
    case EnqueueElsewhere(e, eligibility) => w.(outbox := w.outbox[e := eligibility])
  }

  ghost predicate Init(w: World) {
    && w.rows == map[] && w.delivered == map[] && w.deliveries == map[] && w.approvals == map[]
    && w.outcomes == map[] && w.outbox == map[] && w.granted == [] && w.advances == []
  }

  ghost predicate Next(s: Settings, w: World, w': World) {
    exists step: Step :: Enabled(s, step, w) && w' == Effect(s, step, w)
  }

  ghost predicate IsApprovalRun(s: Settings, run: seq<World>) {
    Runs.IsRun(Init, (w, w') => Next(s, w, w'), run)
  }

  // ---------- The invariant ----------

  ghost predicate JournalSound(s: Settings, w: World) {
    Table(w.rows) && Authentic(s, w.rows)
  }

  ghost predicate DeliveriesSound(w: World) {
    && (forall key :: key in w.delivered ==> w.delivered[key].messageId > 0)
    && (forall m :: m in w.deliveries ==>
          var key := w.deliveries[m].key;
          key in w.delivered && w.delivered[key].messageId == m && w.deliveries[m] == RecordOf(key, w.delivered[key]))
  }

  ghost predicate ApprovalsSound(s: Settings, w: World) {
    forall key :: key in w.approvals ==> ApprovalStands(s, w, key, w.approvals[key])
  }

  /** A committed result is bound to its delivery and to the approval, and the one for a
      thumbnail never stands without the outbox row of the same bytes. */
  ghost predicate OutcomesSound(w: World) {
    forall m :: m in w.outcomes ==>
      && m in w.deliveries
      && var r := w.deliveries[m];
         && r.key in w.approvals && w.outcomes[m] == OutcomeOf(w, r.key)
         && (r.key.kind == Thumbnail ==> r.key.episode in w.outbox && w.outbox[r.key.episode] == EligibilityOf(r))
  }

  /** A claimed reply is the one every recovery returns. */
  ghost predicate GrantsSound(s: Settings, w: World) {
    && (forall i :: 0 <= i < |w.granted| ==> Consumed(s, w.rows, s.chatId, w.granted[i].replyTo) == Some(w.granted[i]))
    && (forall i, j :: 0 <= i < j < |w.granted| ==> w.granted[i].replyTo != w.granted[j].replyTo)
  }

  ghost predicate Inv(s: Settings, w: World) {
    JournalSound(s, w) && DeliveriesSound(w) && ApprovalsSound(s, w) && OutcomesSound(w) && GrantsSound(s, w)
  }

  lemma StepKeepsJournal(s: Settings, step: Step, w: World)
    requires Enabled(s, step, w) && JournalSound(s, w)
    ensures JournalSound(s, Effect(s, step, w)) && OnlyConsumes(s.secret, w.rows, Effect(s, step, w).rows)
  {
    if step.Ingest? {
      IngestKeeps(s, w.rows, step.claims);
    } else if step.Claim? {
      ClaimKeeps(s, w.rows, s.chatId, step.replyTo, step.now);
    }
  }

  lemma StepKeepsConsumed(s: Settings, step: Step, w: World, replyTo: nat)
    requires Enabled(s, step, w) && JournalSound(s, w) && Consumed(s, w.rows, s.chatId, replyTo).Some?
    ensures Consumed(s, Effect(s, step, w).rows, s.chatId, replyTo) == Consumed(s, w.rows, s.chatId, replyTo)
  {
    StepKeepsJournal(s, step, w);
    ConsumedIsStable(s, w.rows, Effect(s, step, w).rows, s.chatId, replyTo);
  }

  lemma StepKeepsDeliveries(s: Settings, step: Step, w: World)
    requires Enabled(s, step, w) && DeliveriesSound(w)
    ensures DeliveriesSound(Effect(s, step, w))
  {
  }

  lemma StepKeepsApproval(s: Settings, step: Step, w: World, key: SlotKey)
    requires Enabled(s, step, w) && JournalSound(s, w) && ApprovalsSound(s, w)
    requires key in Effect(s, step, w).approvals
    ensures ApprovalStands(s, Effect(s, step, w), key, Effect(s, step, w).approvals[key])
  {
    hide Consumed, Claimed, Ingested, Authentic, Table;
    var receipt := Effect(s, step, w).approvals[key];
    assert ApprovalStands(s, w, key, receipt);
    StepKeepsConsumed(s, step, w, w.delivered[key].messageId);
  }

  lemma StepKeepsApprovals(s: Settings, step: Step, w: World)
    requires Enabled(s, step, w) && JournalSound(s, w) && ApprovalsSound(s, w)
    ensures ApprovalsSound(s, Effect(s, step, w))
  {
    forall key | key in Effect(s, step, w).approvals
      ensures ApprovalStands(s, Effect(s, step, w), key, Effect(s, step, w).approvals[key])
    {
      StepKeepsApproval(s, step, w, key);
    }
  }

  lemma StepKeepsOutcomes(s: Settings, step: Step, w: World)
    requires Enabled(s, step, w) && OutcomesSound(w) && DeliveriesSound(w)
    ensures OutcomesSound(Effect(s, step, w))
  {
    hide Consumed, Claimed, Ingested, ApprovalStands;
    if step.Commit? {
      CommitKeepsOutcomes(s, step.messageId, w);
    }
  }

  lemma CommitKeepsOutcomes(s: Settings, m: nat, w: World)
    requires Enabled(s, Commit(m), w) && OutcomesSound(w) && DeliveriesSound(w)
    ensures OutcomesSound(Effect(s, Commit(m), w))
  {
    var w' := Effect(s, Commit(m), w);
    forall n | n in w'.outcomes
      ensures n in w'.deliveries
      ensures var r := w'.deliveries[n];
        && r.key in w'.approvals && w'.outcomes[n] == OutcomeOf(w', r.key)
        && (r.key.kind == Thumbnail ==> r.key.episode in w'.outbox && w'.outbox[r.key.episode] == EligibilityOf(r))
    {
      if n != m {
        assert n in w.outcomes;
      }
    }
  }

  lemma ClaimKeepsGrants(s: Settings, replyTo: nat, now: nat, w: World)
    requires Enabled(s, Claim(replyTo, now), w) && JournalSound(s, w) && GrantsSound(s, w)
    ensures GrantsSound(s, Effect(s, Claim(replyTo, now), w))
  {
    hide Claimed, Consumed, Authentic, Table, OnlyConsumes;
    ClaimedWasFresh(s, w.rows, s.chatId, replyTo, now);
    var w' := Effect(s, Claim(replyTo, now), w);
    StepKeepsJournal(s, Claim(replyTo, now), w);
    ClaimedOnce(s, w.rows, w'.rows, s.chatId, replyTo, now, now);
    forall i | 0 <= i < |w.granted|
      ensures Consumed(s, w'.rows, s.chatId, w.granted[i].replyTo) == Some(w.granted[i])
      ensures w.granted[i].replyTo != replyTo
    {
      StepKeepsConsumed(s, Claim(replyTo, now), w, w.granted[i].replyTo);
    }
  }

  lemma StepKeepsGrants(s: Settings, step: Step, w: World)
    requires Enabled(s, step, w) && JournalSound(s, w) && GrantsSound(s, w)
    ensures GrantsSound(s, Effect(s, step, w))
  {
    if step.Claim? {
      ClaimKeepsGrants(s, step.replyTo, step.now, w);
    } else {
      forall i | 0 <= i < |w.granted|
        ensures Consumed(s, Effect(s, step, w).rows, s.chatId, w.granted[i].replyTo) == Some(w.granted[i])
      {
        StepKeepsConsumed(s, step, w, w.granted[i].replyTo);
      }
    }
  }

  lemma StepKeepsInv(s: Settings, w: World, w': World)
    requires Inv(s, w) && Next(s, w, w')
    ensures Inv(s, w')
  {
    hide JournalSound, DeliveriesSound, ApprovalsSound, OutcomesSound, GrantsSound, Consumed, Claimed, Ingested;
    var step: Step :| Enabled(s, step, w) && w' == Effect(s, step, w);
    StepKeepsJournal(s, step, w);
    StepKeepsDeliveries(s, step, w);
    StepKeepsApprovals(s, step, w);
    StepKeepsOutcomes(s, step, w);
    StepKeepsGrants(s, step, w);
  }

  lemma InitIsSound(s: Settings, w: World)
    requires Init(w)
    ensures Inv(s, w)
  {
  }

  lemma HoldsAt(s: Settings, run: seq<World>, i: nat)
    requires IsApprovalRun(s, run) && i < |run|
    ensures Inv(s, run[i])
  {
    forall w | Init(w) ensures Inv(s, w) {
      InitIsSound(s, w);
    }
    forall w, w' | Inv(s, w) && Next(s, w, w') ensures Inv(s, w') {
      StepKeepsInv(s, w, w');
    }
    Runs.InvariantAt(Init, (w, w') => Next(s, w, w'), w => Inv(s, w), run, i);
  }
}
