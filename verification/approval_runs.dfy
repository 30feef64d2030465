/** Theorems about whole runs of human approval, crashes included. */
module ApprovalRuns {
  import opened Wrappers
  import opened Artifacts
  import opened Texts
  import opened Receipts
  import opened InboundJournal
  import opened ApprovalModel
  import Runs

  // ---------- What is written stays ----------

  ghost predicate Kept<K, V>(m: map<K, V>, later: map<K, V>) {
    forall k :: k in m ==> k in later && later[k] == m[k]
  }

  /** Receipts, approvals, results and outbox bindings are immutable; the journal only marks
      rows as consumed; no claim is forgotten. */
  ghost predicate Permanent(s: Settings, w: World, later: World) {
    && Kept(w.delivered, later.delivered) && Kept(w.deliveries, later.deliveries)
    && Kept(w.approvals, later.approvals) && Kept(w.outcomes, later.outcomes) && Kept(w.outbox, later.outbox)
    && OnlyConsumes(s.secret, w.rows, later.rows)
    && w.granted <= later.granted
  }

  lemma CommitIsPermanent(s: Settings, m: nat, w: World)
    requires OutcomesSound(w) && Enabled(s, Commit(m), w)
    ensures Permanent(s, w, Effect(s, Commit(m), w))
  {
  }

  lemma StepIsPermanent(s: Settings, step: Step, w: World)
    requires Inv(s, w) && Enabled(s, step, w)
    ensures Permanent(s, w, Effect(s, step, w))
  {
    hide ApprovalStands, Authentic, Table, Consumed, OnlyConsumes, Ingested, Claimed, DeliveriesSound, GrantsSound;
    StepKeepsJournal(s, step, w);
    if step.Commit? {
      CommitIsPermanent(s, step.messageId, w);
    } else {
      assert Effect(s, step, w).outcomes == w.outcomes;
    }
  }

  lemma PermanentTransitive(s: Settings, a: World, b: World, c: World)
    requires Permanent(s, a, b) && Permanent(s, b, c)
    ensures Permanent(s, a, c)
  {
    OnlyConsumesTransitive(s.secret, a.rows, b.rows, c.rows);
  }

  lemma PermanentReflexive(s: Settings, w: World)
    ensures Permanent(s, w, w)
  {
  }

  lemma {:induction false} RecordsArePermanent(s: Settings, run: seq<World>, i: nat, j: nat)
    requires IsApprovalRun(s, run) && i <= j < |run|
    ensures Permanent(s, run[i], run[j])
    decreases j
  {
    hide Permanent, Inv, Init, Enabled, Effect;
    if i < j {
      RecordsArePermanent(s, run, i, j - 1);
      HoldsAt(s, run, j - 1);
      Runs.StepAt(Init, (w, w') => Next(s, w, w'), run, j - 1);
      var step: Step :| Enabled(s, step, run[j - 1]) && run[j] == Effect(s, step, run[j - 1]);
      StepIsPermanent(s, step, run[j - 1]);
      PermanentTransitive(s, run[i], run[j - 1], run[j]);
    } else {
      PermanentReflexive(s, run[i]);
    }
  }

  // ---------- One reply, one approval ----------

  /** At most one reply is ever claimed for a delivered message, and from then on every
      recovery returns exactly that reply. */
  lemma OneClaimPerDelivery(s: Settings, run: seq<World>, i: nat, j: nat, k: nat)
    requires IsApprovalRun(s, run) && i <= j < |run| && k < |run[i].granted|
    ensures k < |run[j].granted| && run[j].granted[k] == run[i].granted[k]
    ensures forall l :: 0 <= l < |run[j].granted| && run[j].granted[l].replyTo == run[i].granted[k].replyTo ==> l == k
    ensures Consumed(s, run[j].rows, s.chatId, run[i].granted[k].replyTo) == Some(run[i].granted[k])
  {
    RecordsArePermanent(s, run, i, j);
    HoldsAt(s, run, j);
  }

  /** In every document of every run, a stored approval is of the delivered bytes and rests on a
      reply of a trusted sender in the configured chat, to the message that delivered them, whose
      text approves this kind of artifact of this episode. */
  lemma ApprovalSaysSo(s: Settings, run: seq<World>, i: nat, key: SlotKey)
    requires IsApprovalRun(s, run) && i < |run| && key in run[i].approvals
    ensures var a := run[i].approvals[key];
      && a.inbound.Some? && a.kind == key.kind
      && (key.kind == Thumbnail ==> a.inbound.value.text == "APROVAR THUMBNAIL " + Decimal(key.episode))
      && (key.kind == Video ==> a.inbound.value.text == "APROVAR V\U{CD}DEO " + Decimal(key.episode))
      && a.inbound.value.chatId == s.chatId && a.inbound.value.senderId in s.senders
      && a.approver == "TELEGRAM:" + a.inbound.value.senderId
      && key in run[i].delivered
      && var d := run[i].delivered[key];
         && a.inbound.value.replyTo == d.messageId
         && a.path == d.intent.approval.path && a.sha256 == d.intent.approval.sha256
  {
    hide Decimal, OutcomesSound, GrantsSound, JournalSound, DeliveriesSound, Consumed, IsApprovalRun;
    HoldsAt(s, run, i);
    assert ApprovalStands(s, run[i], key, run[i].approvals[key]);
  }

  /** No reply approves two gates. */
  lemma OneGatePerReply(s: Settings, run: seq<World>, i: nat, key: SlotKey, other: SlotKey)
    requires IsApprovalRun(s, run) && i < |run|
    requires key in run[i].approvals && other in run[i].approvals
    requires run[i].approvals[key].inbound == run[i].approvals[other].inbound
    ensures key == other
  {
    HoldsAt(s, run, i);
    assert ApprovalStands(s, run[i], key, run[i].approvals[key]);
    assert ApprovalStands(s, run[i], other, run[i].approvals[other]);
    CommandsDiffer(key, other);
  }

  /** A committed result always has its approval, and one for a thumbnail its outbox row, all
      bound to the same bytes. */
  lemma OutcomeIsComplete(s: Settings, run: seq<World>, i: nat, m: nat)
    requires IsApprovalRun(s, run) && i < |run| && m in run[i].outcomes
    ensures m in run[i].deliveries
    ensures var r, w := run[i].deliveries[m], run[i];
      && r.key in w.approvals && w.approvals[r.key].sha256 == r.sha256 == w.outcomes[m].sha256
      && w.outcomes[m].receipt == w.approvals[r.key]
      && (r.key.kind == Thumbnail ==> r.key.episode in w.outbox && w.outbox[r.key.episode] == EligibilityOf(r))
  {
    HoldsAt(s, run, i);
    assert ApprovalStands(s, run[i], run[i].deliveries[m].key, run[i].approvals[run[i].deliveries[m].key]);
  }

  /** The first admitted reply decides: if it is not the exact command, the delivered artifact
      is never approved, whatever is replied or replayed later. */
  lemma WrongReplyIsFinal(s: Settings, run: seq<World>, i: nat, j: nat, key: SlotKey, m: nat)
    requires IsApprovalRun(s, run) && i <= j < |run|
    requires key in run[i].delivered && run[i].delivered[key].messageId == m
    requires RowFor(run[i].rows, s.chatId, m).Some? && !CommandJournaled(s, run[i], m, key)
    ensures key !in run[j].approvals
  {
    hide JournalSound, DeliveriesSound, OutcomesSound, GrantsSound, ReceiptFor;
    HoldsAt(s, run, i);
    HoldsAt(s, run, j);
    RecordsArePermanent(s, run, i, j);
    ConsumedNamesJournal(s, run[i], run[j], m);
    assert key in run[j].approvals ==> ApprovalStands(s, run[j], key, run[j].approvals[key]);
  }

  // ---------- Convergence after a crash ----------

  /** A reply that carries the command was journaled for this delivery, consumed or not. */
  ghost predicate CommandJournaled(s: Settings, w: World, m: nat, key: SlotKey) {
    var k := RowFor(w.rows, s.chatId, m);
    k.Some? && w.rows[k.value].claims.text == Command(key)
  }

  /** What recovery returns is the reply that was journaled first. */
  lemma ConsumedNamesJournal(s: Settings, w: World, later: World, m: nat)
    requires Inv(s, w) && Inv(s, later) && Permanent(s, w, later) && RowFor(w.rows, s.chatId, m).Some?
    ensures var reply := Consumed(s, later.rows, s.chatId, m);
      reply.Some? ==> reply.value == ReplyOf(w.rows[RowFor(w.rows, s.chatId, m).value].claims)
  {
    hide DeliveriesSound, OutcomesSound, GrantsSound, ApprovalsSound, Authentic;
    RowForIsStable(s, w.rows, later.rows, s.chatId, m);
  }

  /** The delivery's files are as they were, and it went to the configured chat. */
  ghost predicate DeliveryIntact(s: Settings, w: World, r: Record, files: Files) {
    && r.key in w.delivered && w.delivered[r.key].intent.chatId == s.chatId
    && w.delivered[r.key].intent.episode == r.key.episode && w.delivered[r.key].intent.approval.kind == r.key.kind
    && Verifies(w.delivered[r.key].intent.approval, files)
  }

  /** The gate of the delivery is open, or has been passed by its own approval. */
  predicate GateReachable(w: World, key: SlotKey) {
    || StateOf(w.states, key.episode) == Expected(key.kind)
    || (StateOf(w.states, key.episode) == NextState(key.kind) && key in w.approvals)
  }

  /** The video gate has been passed as well, so a thumbnail is no longer asked about. There is
      no such state for a video: the state after its own gate is still completable. */
  predicate PastNextGate(w: World, key: SlotKey) {
    key.kind == Thumbnail && StateOf(w.states, key.episode) == WaitingFinal
  }

  /** What a replay of the webhook for message `m` needs in order to end approved. */
  ghost predicate Completable(s: Settings, w: World, m: nat, files: Files) {
    && m in w.deliveries
    && var r := w.deliveries[m];
       GateReachable(w, r.key) && DeliveryIntact(s, w, r, files) && CommandJournaled(s, w, m, r.key) && NoConflict(w, r)
  }

  /** The end of an approval: receipt, state, result and, for a thumbnail, outbox row. */
  ghost predicate Done(w: World, m: nat) {
    && m in w.deliveries && m in w.outcomes
    && var r := w.deliveries[m];
       && r.key in w.approvals && w.approvals[r.key].sha256 == r.sha256
       && StateOf(w.states, r.key.episode) == NextState(r.key.kind)
       && w.outcomes[m] == OutcomeOf(w, r.key)
       && (r.key.kind == Thumbnail ==> r.key.episode in w.outbox && w.outbox[r.key.episode] == EligibilityOf(r))
  }

  /** Steps that take the episode away from the approval protocol. */
  predicate Disturbs(step: Step, e: Episode) {
    (step.Move? && step.episode == e) || (step.EnqueueElsewhere? && step.episode == e)
  }

  ghost predicate QuietNext(s: Settings, w: World, w': World, e: Episode) {
    exists step: Step :: Enabled(s, step, w) && w' == Effect(s, step, w) && !Disturbs(step, e)
  }

  ghost predicate Quiet(s: Settings, run: seq<World>, i: nat, j: nat, e: Episode) {
    forall k :: i <= k < j && k + 1 < |run| ==> QuietNext(s, run[k], run[k + 1], e)
  }

  lemma StatesMoveByAdvance(s: Settings, step: Step, w: World, e: Episode)
    requires Enabled(s, step, w) && !Disturbs(step, e)
    ensures StateOf(Effect(s, step, w).states, e) ==
      if step.Advance? && step.key.episode == e then NextState(step.key.kind) else StateOf(w.states, e)
    ensures step.Advance? && step.key.episode == e ==> StateOf(w.states, e) == Expected(step.key.kind)
  {
    hide ApprovalStands, Claimed, Ingested;
  }

  lemma QuietStepKeepsReachable(s: Settings, step: Step, w: World, key: SlotKey)
    requires Enabled(s, step, w) && !Disturbs(step, key.episode)
    requires GateReachable(w, key) && Permanent(s, w, Effect(s, step, w))
    ensures GateReachable(Effect(s, step, w), key) || PastNextGate(Effect(s, step, w), key)
  {
    hide ApprovalStands, Claimed, Ingested, OnlyConsumes;
    StatesMoveByAdvance(s, step, w, key.episode);
    if step.Advance? && step.key.episode == key.episode {
      assert step.key.kind == key.kind ==> step.key == key;
    }
  }

  /** Only the commit of the same delivery can queue its episode. */
  lemma QuietStepKeepsNoConflict(s: Settings, step: Step, w: World, m: nat)
    requires DeliveriesSound(w) && Enabled(s, step, w) && m in w.deliveries && w.deliveries[m].key.kind == Thumbnail
    requires !Disturbs(step, w.deliveries[m].key.episode) && NoConflict(w, w.deliveries[m])
    ensures NoConflict(Effect(s, step, w), w.deliveries[m])
  {
    hide ApprovalStands, Claimed, Ingested;
    var r := w.deliveries[m];
    if step.Commit? && w.deliveries[step.messageId].key.episode == r.key.episode
       && w.deliveries[step.messageId].key.kind == Thumbnail {
      assert w.deliveries[step.messageId].key == r.key;
    }
  }

  /** A crash anywhere leaves the approval completable: every single write of every process
      keeps what a replay needs. Only for a thumbnail this ends, once the video gate is passed. */
  lemma QuietStepKeepsCompletable(s: Settings, step: Step, w: World, m: nat, files: Files)
    requires Inv(s, w) && Completable(s, w, m, files) && Enabled(s, step, w)
    requires !Disturbs(step, w.deliveries[m].key.episode)
    ensures var w' := Effect(s, step, w);
      && m in w'.deliveries && w'.deliveries[m] == w.deliveries[m]
      && (Completable(s, w', m, files) || PastNextGate(w', w.deliveries[m].key))
  {
    hide Enabled, Effect, OutcomesSound, GrantsSound, ApprovalsSound, Authentic, Table, NoConflict, GateReachable, OnlyConsumes;
    var r, w' := w.deliveries[m], Effect(s, step, w);
    StepIsPermanent(s, step, w);
    StepKeepsJournal(s, step, w);
    QuietStepKeepsReachable(s, step, w, r.key);
    if r.key.kind == Thumbnail {
      QuietStepKeepsNoConflict(s, step, w, m);
    } else {
      VideoHasNoConflict(w', r);
    }
    RowForIsStable(s, w.rows, w'.rows, s.chatId, m);
  }

  lemma VideoHasNoConflict(w: World, r: Record)
    requires r.key.kind == Video
    ensures NoConflict(w, r)
  {
  }

  lemma {:induction false} CrashLeavesCompletable(s: Settings, run: seq<World>, i: nat, j: nat, m: nat, files: Files)
    requires IsApprovalRun(s, run) && i <= j < |run| && Completable(s, run[i], m, files)
    requires Quiet(s, run, i, j, run[i].deliveries[m].key.episode)
    ensures m in run[j].deliveries && run[j].deliveries[m] == run[i].deliveries[m]
    ensures Completable(s, run[j], m, files) || PastNextGate(run[j], run[i].deliveries[m].key)
    ensures run[i].deliveries[m].key.kind == Video ==> Completable(s, run[j], m, files)
    decreases j
  {
    hide Enabled, Effect, Inv, Init, CommandJournaled, DeliveryIntact, GateReachable, NoConflict;
    if i < j {
      CrashLeavesCompletable(s, run, i, j - 1, m, files);
      HoldsAt(s, run, j - 1);
      var e := run[i].deliveries[m].key.episode;
      assert QuietNext(s, run[j - 1], run[j], e);
      var step: Step :| Enabled(s, step, run[j - 1]) && run[j] == Effect(s, step, run[j - 1]) && !Disturbs(step, e);
      if Completable(s, run[j - 1], m, files) {
        QuietStepKeepsCompletable(s, step, run[j - 1], m, files);
      } else {
        FinalStaysFinal(s, step, run[j - 1], m, e);
      }
    }
  }

  lemma FinalStaysFinal(s: Settings, step: Step, w: World, m: nat, e: Episode)
    requires Inv(s, w) && Enabled(s, step, w) && !Disturbs(step, e)
    requires StateOf(w.states, e) == WaitingFinal && m in w.deliveries
    ensures StateOf(Effect(s, step, w).states, e) == WaitingFinal
    ensures m in Effect(s, step, w).deliveries && Effect(s, step, w).deliveries[m] == w.deliveries[m]
  {
    hide Inv, Enabled, Effect;
    StatesMoveByAdvance(s, step, w, e);
    StepIsPermanent(s, step, w);
  }

  // ---------- One gate advance ----------

  function Level(state: Lifecycle): nat {
    match state case WaitingThumbnail => 0 case WaitingVideo => 1 case WaitingFinal => 2 case Elsewhere => 3
  }

  function Advances(w: World, key: SlotKey): nat {
    multiset(w.advances)[key]
  }

  /** The advances of a gate count exactly the passages of its episode through it. */
  ghost predicate CountsPassage(w: World, w': World, key: SlotKey) {
    var before, after := Level(StateOf(w.states, key.episode)), Level(StateOf(w'.states, key.episode));
    && before <= after && (before == 3 || after <= 2)
    && Advances(w', key) == Advances(w, key) + if before <= Level(Expected(key.kind)) < after <= 2 then 1 else 0
  }

  lemma QuietStepCounts(s: Settings, step: Step, w: World, key: SlotKey)
    requires Enabled(s, step, w) && !Disturbs(step, key.episode)
    ensures CountsPassage(w, Effect(s, step, w), key)
  {
    hide ApprovalStands, Claimed, Ingested;
    StatesMoveByAdvance(s, step, w, key.episode);
    if step.Advance? {
      assert multiset(w.advances + [step.key]) == multiset(w.advances) + multiset{step.key};
    }
  }

  /** Without a rejection or another move of the episode, each gate is advanced at most once,
      and exactly once when the run takes the episode from the gate's state to the next. */
  lemma {:induction false} GateAdvancesOnce(s: Settings, run: seq<World>, i: nat, j: nat, key: SlotKey)
    requires IsApprovalRun(s, run) && i <= j < |run| && Quiet(s, run, i, j, key.episode)
    ensures CountsPassage(run[i], run[j], key)
    decreases j
  {
    hide Enabled, Effect, Init;
    if i < j {
      GateAdvancesOnce(s, run, i, j - 1, key);
      assert QuietNext(s, run[j - 1], run[j], key.episode);
      var step: Step :|
        Enabled(s, step, run[j - 1]) && run[j] == Effect(s, step, run[j - 1]) && !Disturbs(step, key.episode);
      QuietStepCounts(s, step, run[j - 1], key);
    }
  }

  // ---------- Convergence ----------

  /** What one processing of the webhook for message `m` does; `ok` is whether it answers
      approved. The service's method is proved to do exactly this. */
  ghost predicate Replays(s: Settings, w: World, w': World, m: nat, files: Files, ok: bool)
    requires m in w.deliveries
  {
    var key := w.deliveries[m].key;
    && w'.deliveries == w.deliveries && Kept(w.approvals, w'.approvals)
    && (ok <==> Completable(s, w, m, files))
    && (ok ==> Done(w', m))
    && (ok ==> w'.advances == w.advances + if StateOf(w.states, key.episode) == Expected(key.kind) then [key] else [])
    && (!ok ==> w'.outcomes == w.outcomes && w'.outbox == w.outbox)
  }

  /** Crash convergence: from any point at which an approval can be completed, let any process
      go on in any way and crash anywhere, but nobody else move the episode. A replay of the
      webhook then ends approved, with receipt, state, result and outbox row all there and
      bound; with every receipt that was durable at any point in between; and with exactly one
      advance of the gate over the whole time, if the gate was still open at the beginning. */
  lemma ReplayConverges(s: Settings, run: seq<World>, i: nat, j: nat, m: nat, files: Files, w': World, ok: bool)
    requires IsApprovalRun(s, run) && i <= j < |run| && Completable(s, run[i], m, files)
    requires Quiet(s, run, i, j, run[i].deliveries[m].key.episode)
    requires !PastNextGate(run[j], run[i].deliveries[m].key)
    requires m in run[j].deliveries && Replays(s, run[j], w', m, files, ok)
    ensures var key := run[i].deliveries[m].key;
      && ok && Done(w', m) && w'.deliveries[m].key == key
      && (forall k :: i <= k <= j && key in run[k].approvals ==> key in w'.approvals && w'.approvals[key] == run[k].approvals[key])
      && Advances(w', key) == Advances(run[i], key) + if StateOf(run[i].states, key.episode) == Expected(key.kind) then 1 else 0
  {
    hide IsApprovalRun, Quiet, Completable, Done, Inv, DeliveryIntact, CommandJournaled, NoConflict;
    CompletableIsReachable(s, run[i], m, files);
    var key := run[i].deliveries[m].key;
    CrashLeavesCompletable(s, run, i, j, m, files);
    GateAdvancesOnce(s, run, i, j, key);
    CompletableIsReachable(s, run[j], m, files);
    forall k | i <= k <= j && key in run[k].approvals
      ensures key in w'.approvals && w'.approvals[key] == run[k].approvals[key]
    {
      RecordsArePermanent(s, run, k, j);
    }
    AdvancesAppend(run[j], w', key);
  }

  lemma CompletableIsReachable(s: Settings, w: World, m: nat, files: Files)
    requires Completable(s, w, m, files)
    ensures m in w.deliveries && GateReachable(w, w.deliveries[m].key)
  {
  }

  lemma AdvancesAppend(w: World, w': World, key: SlotKey)
    ensures w'.advances == w.advances + [key] ==> Advances(w', key) == Advances(w, key) + 1
    ensures w'.advances == w.advances + [] ==> Advances(w', key) == Advances(w, key)
  {
    assert w.advances + [] == w.advances;
    assert multiset(w.advances + [key]) == multiset(w.advances) + multiset{key};
  }
}
