/** Delivery of review artifacts: the two files of each delivery slot, the outbox rows, the
    calls of the messenger, and every single step any number of processes can take. */
module DeliveryModel {
  import opened Wrappers
  import opened Artifacts
  import opened Receipts
  import opened Runs

  /** The intent file and the receipt file, both replaced atomically. */
  datatype Slot = Slot(attempt: Option<Intent>, receipt: Option<DeliveryReceipt>)

  datatype Status = Pending | Blocked | Unknown | Delivered

  datatype Row = Row(thumbnailPath: Path, thumbnailSha256: Sha256, status: Status)

  /** What the process that holds a slot's lock has done since it wrote the intent. */
  datatype Sender = Sending(intent: Intent) | Acknowledged(intent: Intent, messageId: int)

  /** `rows` and `slots` are durable, `senders` die with their process, `sent` is the list of
      all calls of the messenger. */
  datatype World = World(rows: map<Episode, Row>, slots: map<SlotKey, Slot>,
                         senders: map<SlotKey, Sender>, sent: seq<SlotKey>)

  datatype Step =
    | Enqueue(episode: Episode, path: Path, sha256: Sha256)
    | Mark(episode: Episode, status: Status)
    | WriteIntent(key: SlotKey, intent: Intent)
    | Call(key: SlotKey, answer: Option<int>)
    | WriteReceipt(key: SlotKey)
    | Lose(key: SlotKey)

  function SlotOf(slots: map<SlotKey, Slot>, key: SlotKey): Slot {
    if key in slots then slots[key] else Slot(None, None)
  }

  predicate HasReceipt(slots: map<SlotKey, Slot>, key: SlotKey) {
    SlotOf(slots, key).receipt.Some?
  }

  /** A row leaves PENDING only, and reaches DELIVERED only behind a video receipt. */
  predicate MayMark(w: World, episode: Episode, status: Status) {
    && episode in w.rows && w.rows[episode].status == Pending && status != Pending
    && (status == Delivered ==> HasReceipt(w.slots, SlotKey(episode, Video)))
  }

  predicate MayIntend(w: World, key: SlotKey, intent: Intent) {
    && key !in w.senders && SlotOf(w.slots, key) == Slot(None, None)
    && intent.episode == key.episode && intent.approval.kind == key.kind
    && (key.kind == Video ==> HasReceipt(w.slots, SlotKey(key.episode, Thumbnail)))
  }

  predicate Enabled(s: Step, w: World) {
    match s
    case Enqueue(e, _, _) => e !in w.rows
    case Mark(e, status) => MayMark(w, e, status)
    case WriteIntent(key, intent) => MayIntend(w, key, intent)
    case Call(key, _) => key in w.senders && w.senders[key].Sending?
    case WriteReceipt(key) => key in w.senders && w.senders[key].Acknowledged? && w.senders[key].messageId > 0
    case Lose(key) => key in w.senders
  }

  function Effect(s: Step, w: World): World
    requires Enabled(s, w)
  {
    match s
    case Enqueue(e, path, sha256) => w.(rows := w.rows[e := Row(path, sha256, Pending)])
    case Mark(e, status) => w.(rows := w.rows[e := w.rows[e].(status := status)])
    case WriteIntent(key, intent) =>
      w.(slots := w.slots[key := Slot(Some(intent), None)], senders := w.senders[key := Sending(intent)])
    case Call(key, answer) =>
      w.(sent := w.sent + [key],
         senders := if answer.Some? then w.senders[key := Acknowledged(w.senders[key].intent, answer.value)]
                    else w.senders - {key})
    case WriteReceipt(key) =>
      var a := w.senders[key];
      w.(slots := w.slots[key := Slot(Some(a.intent), Some(DeliveryReceipt(a.intent, a.messageId)))],
         senders := w.senders - {key})
    case Lose(key) => w.(senders := w.senders - {key})
  }

  ghost predicate Init(w: World) {
    w == World(map[], map[], map[], [])
  }

  ghost predicate Next(w: World, w': World) {
    exists s: Step :: Enabled(s, w) && w' == Effect(s, w)
  }

  ghost predicate IsDeliveryRun(run: seq<World>) {
    IsRun(Init, Next, run)
  }

  // ---------- The invariant ----------

  function Sends(w: World, key: SlotKey): nat {
    multiset(w.sent)[key]
  }

  /** The intent file fences the call of the messenger: at most one call per slot, none
      before the intent, exactly one behind a receipt. */
  ghost predicate SlotFenced(w: World, key: SlotKey) {
    var slot := SlotOf(w.slots, key);
    && Sends(w, key) <= 1
    && (slot.attempt.None? ==> Sends(w, key) == 0)
    && (slot.receipt.Some? ==> slot.attempt == Some(slot.receipt.value.intent) && Sends(w, key) == 1)
    && (slot.attempt.Some? ==>
          slot.attempt.value.episode == key.episode && slot.attempt.value.approval.kind == key.kind &&
          (key.kind == Video ==> HasReceipt(w.slots, SlotKey(key.episode, Thumbnail))))
    && (key in w.senders ==>
          slot == Slot(Some(w.senders[key].intent), None) &&
          Sends(w, key) == if w.senders[key].Sending? then 0 else 1)
  }

  ghost predicate Inv(w: World) {
    && (forall key :: SlotFenced(w, key))
    && (forall e :: e in w.rows && w.rows[e].status == Delivered ==> HasReceipt(w.slots, SlotKey(e, Video)))
  }

  lemma StepKeepsReceipts(s: Step, w: World, key: SlotKey)
    requires Enabled(s, w) && SlotFenced(w, key) && HasReceipt(w.slots, key)
    ensures SlotOf(Effect(s, w).slots, key) == SlotOf(w.slots, key)
  {
  }

  lemma StepKeepsFence(s: Step, w: World, key: SlotKey)
    requires Enabled(s, w) && forall k :: SlotFenced(w, k)
    ensures SlotFenced(Effect(s, w), key)
  {
    var thumbnail := SlotKey(key.episode, Thumbnail);
    assert SlotFenced(w, key) && SlotFenced(w, thumbnail);
    if HasReceipt(w.slots, thumbnail) {
      StepKeepsReceipts(s, w, thumbnail);
    }
    if s.Call? {
      assert multiset(w.sent + [s.key]) == multiset(w.sent) + multiset{s.key};
    }
  }

  lemma StepKeepsInv(w: World, w': World)
    requires Inv(w) && Next(w, w')
    ensures Inv(w')
  {
    var s: Step :| Enabled(s, w) && w' == Effect(s, w);
    forall key ensures SlotFenced(w', key) {
      StepKeepsFence(s, w, key);
    }
    forall e | e in w'.rows && w'.rows[e].status == Delivered ensures HasReceipt(w'.slots, SlotKey(e, Video)) {
      assert SlotFenced(w, SlotKey(e, Video));
      if HasReceipt(w.slots, SlotKey(e, Video)) {
        StepKeepsReceipts(s, w, SlotKey(e, Video));
      }
    }
  }

  // ---------- Whole runs ----------

  lemma HoldsAt(run: seq<World>, i: nat)
    requires IsDeliveryRun(run) && i < |run|
    ensures Inv(run[i])
  {
    forall w, w' | Inv(w) && Next(w, w') ensures Inv(w') {
      StepKeepsInv(w, w');
    }
    InvariantAt(Init, Next, Inv, run, i);
  }

  /** Over any interleaving of drains, direct deliveries, cancellations, crashes and restarts
      the messenger is called at most once per slot; a DELIVERED row has a durable video
      receipt; a video was sent only after the thumbnail's receipt was durable. */
  lemma AtMostOneSend(run: seq<World>, i: nat, key: SlotKey)
    requires IsDeliveryRun(run) && i < |run|
    ensures Sends(run[i], key) <= 1
    ensures HasReceipt(run[i].slots, key) ==> Sends(run[i], key) == 1
    ensures key.kind == Video && Sends(run[i], key) > 0 ==> HasReceipt(run[i].slots, SlotKey(key.episode, Thumbnail))
    ensures key.episode in run[i].rows && run[i].rows[key.episode].status == Delivered ==>
      HasReceipt(run[i].slots, SlotKey(key.episode, Video)) && Sends(run[i], SlotKey(key.episode, Video)) == 1
  {
    HoldsAt(run, i);
    assert SlotFenced(run[i], key) && SlotFenced(run[i], SlotKey(key.episode, Video));
  }

  /** A row keeps its binding for ever and leaves PENDING at most once; a receipt is final. */
  ghost predicate Settles(w: World, w': World) {
    && (forall e :: e in w.rows ==>
          && e in w'.rows
          && w'.rows[e].thumbnailPath == w.rows[e].thumbnailPath
          && w'.rows[e].thumbnailSha256 == w.rows[e].thumbnailSha256
          && (w.rows[e].status != Pending ==> w'.rows[e] == w.rows[e]))
    && (forall key :: HasReceipt(w.slots, key) ==> SlotOf(w'.slots, key) == SlotOf(w.slots, key))
  }

  lemma StepSettles(w: World, w': World)
    requires Inv(w) && Next(w, w')
    ensures Settles(w, w')
  {
    var s: Step :| Enabled(s, w) && w' == Effect(s, w);
    forall key | HasReceipt(w.slots, key) ensures SlotOf(w'.slots, key) == SlotOf(w.slots, key) {
      assert SlotFenced(w, key);
      StepKeepsReceipts(s, w, key);
    }
  }

  lemma {:induction false} RowsSettleOnce(run: seq<World>, i: nat, j: nat)
    requires IsDeliveryRun(run) && i <= j < |run|
    ensures Settles(run[i], run[j])
    decreases j
  {
    if i < j {
      RowsSettleOnce(run, i, j - 1);
      HoldsAt(run, j - 1);
      StepAt(Init, Next, run, j - 1);
      StepSettles(run[j - 1], run[j]);
    }
  }
}
