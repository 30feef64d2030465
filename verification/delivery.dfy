/** Delivery of review artifacts, as the code performs it: the protocol around one send, the
    Director's choice of artifact, and the consumer of the outbox. The ghost field `saves` is
    the run so far, so the theorems on all runs apply to whatever a crash leaves. */
module Delivery {
  import opened Wrappers
  import opened SortedSets
  import opened Artifacts
  import opened Texts
  import opened Receipts
  import opened DeliveryModel
  import Runs

  datatype DeliveryError =
    | WrongDestination | NoActiveGate | NotAFile | BytesChanged | PathChanged
    | ThumbnailNotApproved | ReceiptMismatch | Unsupported | IntentMismatch | Ambiguous
    | NoMessageId | CallbackFailed | Cancelled

  /** How one call of the messenger ends. */
  datatype Answer = Answers(messageId: int) | Fails | Interrupted

  /** How the callback ends that runs once a new receipt is durable. */
  datatype Callback = Returns | Raises | Cancels

  /** What one delivery meets outside: the messenger, the callback, and the files on disk
      before and after the call. */
  datatype Post = Post(supported: bool, answer: Answer, callback: Callback, before: Files, after: Files)

  /** What one delivery leaves behind and returns. */
  datatype Sent = Sent(slot: Slot, called: bool, result: Result<DeliveryReceipt, DeliveryError>)

  // ---------- One send ----------

  /** `_recover_receipt`: a durable receipt stands in for a send of the same media. */
  function Recover(receipt: DeliveryReceipt, want: Intent, files: Files): Result<DeliveryReceipt, DeliveryError> {
    if receipt.intent != want || receipt.messageId <= 0 then Err(ReceiptMismatch)
    else if !Verifies(want.approval, files) then Err(BytesChanged)
    else Ok(receipt)
  }

  /** What the messenger's answer leaves in the slot of a fresh intent. */
  function Posted(want: Intent, post: Post): Sent {
    match post.answer
    case Fails => Sent(Slot(Some(want), None), true, Err(Ambiguous))
    case Interrupted => Sent(Slot(Some(want), None), true, Err(Cancelled))
    case Answers(id) =>
      if id <= 0 then Sent(Slot(Some(want), None), true, Err(NoMessageId))
      else
        var receipt := DeliveryReceipt(want, id);
        var recovered := Recover(receipt, want, post.after);
        Sent(Slot(Some(want), Some(receipt)), true,
             if recovered.Err? || post.callback.Returns? then recovered
             else Err(if post.callback.Raises? then CallbackFailed else Cancelled))
  }

  function SendResult(slot: Slot, want: Intent, post: Post): Sent {
    if slot.receipt.Some? then Sent(slot, false, Recover(slot.receipt.value, want, post.before))
    else if !post.supported then Sent(slot, false, Err(Unsupported))
    else if slot.attempt.Some? then Sent(slot, false, Err(if slot.attempt.value != want then IntentMismatch else Ambiguous))
    else Posted(want, post)
  }

  /** Exactly when a send returns a receipt: a durable one of the same intent with a message id,
      for bytes that are still there; or the one of a fresh call that was answered with a message
      id, whose bytes are still there afterwards, and whose callback returned. */
  lemma SendReturns(slot: Slot, want: Intent, post: Post)
    ensures var r := SendResult(slot, want, post).result;
      var path, sha256 := want.approval.path, want.approval.sha256;
      && (r.Ok? <==>
            if slot.receipt.Some? then
              && slot.receipt.value.intent == want && slot.receipt.value.messageId > 0
              && path in post.before && post.before[path] == sha256
            else
              && post.supported && slot.attempt.None? && post.answer.Answers? && post.answer.messageId > 0
              && path in post.after && post.after[path] == sha256 && post.callback == Returns)
      && (r.Ok? ==> r.value == if slot.receipt.Some? then slot.receipt.value else DeliveryReceipt(want, post.answer.messageId))
      && SendResult(slot, want, post).called == (slot.receipt.None? && slot.attempt.None? && post.supported)
  {
  }

  /** The messenger is called on an empty slot only, and leaves it fenced for every later
      call, whatever that call wants to send. */
  lemma SecondSendIsSilent(slot: Slot, want: Intent, post: Post, want': Intent, post': Post)
    requires slot.receipt.Some? ==> slot.attempt.Some?
    ensures SendResult(slot, want, post).called ==> slot == Slot(None, None)
    ensures SendResult(slot, want, post).called ==> !SendResult(SendResult(slot, want, post).slot, want', post').called
  {
  }

  /** A delivery that returned a receipt returns the same one again, without a call, while
      the bytes are intact. A delivery that failed after the call can only be recovered when
      the failure came after the receipt. */
  lemma RepeatedSend(slot: Slot, want: Intent, post: Post, post': Post)
    requires Verifies(want.approval, post'.before) && slot == Slot(None, None) && SendResult(slot, want, post).called
    ensures var again := SendResult(SendResult(slot, want, post).slot, want, post');
      && again.slot == SendResult(slot, want, post).slot && !again.called
      && (SendResult(slot, want, post).result.Ok? ==> again.result == SendResult(slot, want, post).result)
      && (again.result.Ok? <==> post.answer.Answers? && post.answer.messageId > 0)
  {
  }

  // ---------- The Director's choice ----------

  datatype EpisodeState = WaitingThumbnailApproval | WaitingVideoApproval | OtherState

  /** What the Director reads of an episode besides the delivery slots. */
  datatype EpisodeView = EpisodeView(state: EpisodeState, videoPath: Path, thumbnailApproval: Option<ApprovalReceipt>)

  /** `delivery_identity`: the approval record of a durable receipt, or a fresh one. */
  function Identity(slot: Slot, kind: Kind, path: Path, files: Files, now: nat): Result<ApprovalReceipt, DeliveryError> {
    if slot.receipt.Some? then
      var approval := slot.receipt.value.intent.approval;
      if !Verifies(approval, files) then Err(BytesChanged)
      else if approval.path != path then Err(PathChanged)
      else Ok(approval)
    else if path !in files then Err(NotAFile)
    else Ok(ApprovalReceipt(kind, path, files[path], "delivery-preflight", now, None))
  }

  /** The stored human approval is of these very thumbnail bytes. */
  predicate ApprovesThumbnail(approval: Option<ApprovalReceipt>, thumbnail: ApprovalReceipt, files: Files) {
    && approval.Some? && Verifies(approval.value, files) && approval.value.kind == Thumbnail
    && approval.value.path == thumbnail.path && approval.value.sha256 == thumbnail.sha256
  }

  /** What the Director decides to send for the open gate, or why it refuses. */
  function Choice(slots: map<SlotKey, Slot>, episode: Episode, chatId: ChatId, thumbnailPath: Path,
                  view: EpisodeView, files: Files, now: nat): Result<Intent, DeliveryError>
  {
    var slot := SlotOf(slots, SlotKey(episode, Thumbnail));
    var thumbnail := Identity(slot, Thumbnail, thumbnailPath, files, now);
    var video := Identity(SlotOf(slots, SlotKey(episode, Video)), Video, view.videoPath, files, now);
    if Blank(chatId) then Err(WrongDestination)
    else if view.state.OtherState? then Err(NoActiveGate)
    else if thumbnail.Err? then Err(thumbnail.error)
    else if view.state.WaitingThumbnailApproval? then Ok(Intent(episode, thumbnail.value, chatId))
    else if !ApprovesThumbnail(view.thumbnailApproval, thumbnail.value, files) then Err(ThumbnailNotApproved)
    else if video.Err? then Err(video.error)
    else if slot.receipt.None? then Err(ReceiptMismatch)
    else
      match Recover(slot.receipt.value, Intent(episode, thumbnail.value, chatId), files)
      case Ok(_) => Ok(Intent(episode, video.value, chatId))
      case Err(e) => Err(e)
  }

  /** Every receipt describes the media of its own slot. */
  ghost predicate SlotsBound(slots: map<SlotKey, Slot>) {
    forall key :: HasReceipt(slots, key) ==>
      SlotOf(slots, key).receipt.value.intent.episode == key.episode &&
      SlotOf(slots, key).receipt.value.intent.approval.kind == key.kind
  }

  /** The two gates: the thumbnail's goes first, and a video is chosen only when a human
      approved the very thumbnail bytes whose delivery receipt is durable. */
  lemma VideoNeedsApprovedThumbnail(slots: map<SlotKey, Slot>, episode: Episode, chatId: ChatId, thumbnailPath: Path,
                                    view: EpisodeView, files: Files, now: nat)
    requires SlotsBound(slots)
    requires Choice(slots, episode, chatId, thumbnailPath, view, files, now).Ok?
    ensures var want := Choice(slots, episode, chatId, thumbnailPath, view, files, now).value;
      && want.episode == episode && want.chatId == chatId && Verifies(want.approval, files)
      && (want.approval.kind == Video <==> view.state == WaitingVideoApproval)
      && (want.approval.kind == Video ==>
            && HasReceipt(slots, SlotKey(episode, Thumbnail))
            && view.thumbnailApproval.Some?
            && var delivered := SlotOf(slots, SlotKey(episode, Thumbnail)).receipt.value.intent.approval;
               view.thumbnailApproval.value.sha256 == delivered.sha256 == files[thumbnailPath]
               && delivered.path == thumbnailPath)
  {
    assert HasReceipt(slots, SlotKey(episode, Video)) ==>
      SlotOf(slots, SlotKey(episode, Video)).receipt.value.intent.approval.kind == Video;
    assert HasReceipt(slots, SlotKey(episode, Thumbnail)) ==>
      SlotOf(slots, SlotKey(episode, Thumbnail)).receipt.value.intent.approval.kind == Thumbnail;
  }

  /** The artifact at this path can be sent: with a receipt in its slot, the received bytes are
      still at that very path; without one, there is a file. */
  predicate Sendable(slot: Slot, path: Path, files: Files) {
    && path in files
    && (slot.receipt.Some? ==>
          slot.receipt.value.intent.approval.path == path && slot.receipt.value.intent.approval.sha256 == files[path])
  }

  /** The human approved these very thumbnail bytes, and their delivery to this chat succeeded. */
  predicate ThumbnailPassed(slot: Slot, episode: Episode, chatId: ChatId, path: Path, view: EpisodeView, files: Files) {
    && path in files
    && view.thumbnailApproval.Some?
    && view.thumbnailApproval.value.kind == Thumbnail && view.thumbnailApproval.value.path == path
    && view.thumbnailApproval.value.sha256 == files[path]
    && slot.receipt.Some? && slot.receipt.value.messageId > 0
    && slot.receipt.value.intent.episode == episode && slot.receipt.value.intent.chatId == chatId
  }

  /** Exactly when the Director sends something, and which record it sends: the one received
      before, or a fresh one of the bytes now on disk. */
  lemma ChoiceIsGuarded(slots: map<SlotKey, Slot>, episode: Episode, chatId: ChatId, thumbnailPath: Path,
                        view: EpisodeView, files: Files, now: nat)
    requires SlotsBound(slots)
    ensures var r := Choice(slots, episode, chatId, thumbnailPath, view, files, now);
      var thumbnail, video := SlotOf(slots, SlotKey(episode, Thumbnail)), SlotOf(slots, SlotKey(episode, Video));
      var asksVideo := view.state == WaitingVideoApproval;
      var slot, path := if asksVideo then video else thumbnail, if asksVideo then view.videoPath else thumbnailPath;
      && (r.Ok? <==>
            && !Blank(chatId) && view.state != OtherState
            && Sendable(thumbnail, thumbnailPath, files)
            && (asksVideo ==>
                  && ThumbnailPassed(thumbnail, episode, chatId, thumbnailPath, view, files)
                  && Sendable(video, view.videoPath, files)))
      && (r.Ok? ==>
            && r.value.episode == episode && r.value.chatId == chatId
            && r.value.approval.kind == (if asksVideo then Video else Thumbnail)
            && r.value.approval.path == path && path in files && r.value.approval.sha256 == files[path]
            && r.value.approval == if slot.receipt.Some? then slot.receipt.value.intent.approval
                                   else r.value.approval.(approver := "delivery-preflight", approvedAt := now, inbound := None))
  {
    var key := SlotKey(episode, Thumbnail);
    assert HasReceipt(slots, key) ==> SlotOf(slots, key).receipt.value.intent.approval.kind == Thumbnail;
    var key' := SlotKey(episode, Video);
    assert HasReceipt(slots, key') ==> SlotOf(slots, key').receipt.value.intent.approval.kind == Video;
  }

  // ---------- The outbox consumer ----------

  /** What one drain meets outside. `thumbnail` are the files when the thumbnail is hashed,
      `marked` says that `mark_active_unknown` ran during the delivery, and the two `stored`
      flags whether the row updates reach the database. */
  datatype Drain = Drain(thumbnail: Files, authentic: bool, view: EpisodeView, now: nat, post: Post,
                         registered: bool, marked: bool, acknowledgementStored: bool, statusStored: bool)

  datatype Report = Idle | Reported(episode: Episode, status: Status) | Raised(episode: Episode)

  function PendingEpisodes(rows: map<Episode, Row>): set<Episode> {
    set e | e in rows && rows[e].status == Pending
  }

  /** `UPDATE ... WHERE episode_id = ? AND status = 'PENDING'`. */
  function Updated(rows: map<Episode, Row>, e: Episode, status: Status): map<Episode, Row> {
    if e in rows && rows[e].status == Pending then rows[e := rows[e].(status := status)] else rows
  }

  /** The thumbnail still has the approved bytes and an authenticated approval. */
  predicate Eligible(row: Row, d: Drain) {
    row.thumbnailPath in d.thumbnail && d.thumbnail[row.thumbnailPath] == row.thumbnailSha256 && d.authentic
  }

  /** The send that the Director makes for this episode, and the slot it works on. */
  function Attempt(slots: map<SlotKey, Slot>, e: Episode, chatId: ChatId, path: Path, view: EpisodeView,
                   now: nat, post: Post): (SlotKey, Sent)
  {
    match Choice(slots, e, chatId, path, view, post.before, now)
    case Err(error) => (SlotKey(e, Thumbnail), Sent(Slot(None, None), false, Err(error)))
    case Ok(want) =>
      var key := SlotKey(e, want.approval.kind);
      (key, SendResult(SlotOf(slots, key), want, post))
  }

  function SlotsAfter(slots: map<SlotKey, Slot>, attempt: (SlotKey, Sent)): map<SlotKey, Slot> {
    if attempt.1.called then slots[attempt.0 := attempt.1.slot] else slots
  }

  function CallsOf(attempt: (SlotKey, Sent)): seq<SlotKey> {
    if attempt.1.called then [attempt.0] else []
  }

  /** DELIVERED only behind a registered, acknowledged video receipt. */
  function StatusOf(receipt: Result<DeliveryReceipt, DeliveryError>, d: Drain): Status {
    if receipt.Ok? && d.registered && receipt.value.intent.approval.kind == Video && d.acknowledgementStored
    then Delivered
    else Unknown
  }

  /** The status a drain settles on; BLOCKED only before anything was attempted. */
  function Settled(slots: map<SlotKey, Slot>, chatId: ChatId, e: Episode, row: Row, d: Drain): Status {
    if !Eligible(row, d) then Blocked
    else StatusOf(Attempt(slots, e, chatId, row.thumbnailPath, d.view, d.now, d.post).1.result, d)
  }

  /** When a drain settles on which status: BLOCKED exactly when the thumbnail is gone, has other
      bytes than at the approval, or its approval is not authentic; DELIVERED exactly when
      otherwise a video receipt came back, was registered and acknowledged; else UNKNOWN. */
  lemma SettledStatus(slots: map<SlotKey, Slot>, chatId: ChatId, e: Episode, row: Row, d: Drain)
    ensures var status := Settled(slots, chatId, e, row, d);
      var approvedBytes := row.thumbnailPath in d.thumbnail && d.thumbnail[row.thumbnailPath] == row.thumbnailSha256;
      var result := Attempt(slots, e, chatId, row.thumbnailPath, d.view, d.now, d.post).1.result;
      && (status == Blocked <==> !(approvedBytes && d.authentic))
      && (status == Delivered <==>
            && approvedBytes && d.authentic && result.Ok? && result.value.intent.approval.kind == Video
            && d.registered && d.acknowledgementStored)
      && status in {Blocked, Delivered, Unknown}
  {
    hide Attempt;
  }

  /** The rows one drain of episode `e` leaves. */
  function RowsAfter(slots: map<SlotKey, Slot>, chatId: ChatId, rows: map<Episode, Row>, e: Episode, d: Drain)
    : map<Episode, Row>
    requires e in rows
  {
    var status := Settled(slots, chatId, e, rows[e], d);
    if d.marked && Eligible(rows[e], d) then Updated(rows, e, Unknown)
    else if status == Delivered || d.statusStored then Updated(rows, e, status)
    else rows
  }

  /** What one drain of episode `e` reports. */
  function ReportOf(slots: map<SlotKey, Slot>, chatId: ChatId, e: Episode, row: Row, d: Drain): Report {
    var status := Settled(slots, chatId, e, row, d);
    var cancelled :=
      Eligible(row, d) && Attempt(slots, e, chatId, row.thumbnailPath, d.view, d.now, d.post).1.result == Err(Cancelled);
    if !cancelled && (status == Delivered || d.statusStored) then Reported(e, status) else Raised(e)
  }

  /** Everything went well: the row was eligible, a video receipt came back and was registered,
      and its acknowledgement reached the database. */
  predicate FullyAcknowledged(slots: map<SlotKey, Slot>, chatId: ChatId, e: Episode, row: Row, d: Drain) {
    var result := Attempt(slots, e, chatId, row.thumbnailPath, d.view, d.now, d.post).1.result;
    && Eligible(row, d) && result.Ok? && result.value.intent.approval.kind == Video
    && d.registered && d.acknowledgementStored
  }

  /** A drain that reports at all reports the status the row has, except in one case:
      `mark_active_unknown` ran during a delivery in which everything then went well. The row
      stays UNKNOWN, the report says delivered. */
  lemma ReportMatchesRow(slots: map<SlotKey, Slot>, chatId: ChatId, rows: map<Episode, Row>, e: Episode, d: Drain)
    requires e in rows && rows[e].status == Pending
    ensures var r := ReportOf(slots, chatId, e, rows[e], d);
      r.Reported? ==>
        (RowsAfter(slots, chatId, rows, e, d)[e].status == r.status <==>
         !(d.marked && FullyAcknowledged(slots, chatId, e, rows[e], d)))
  {
  }

  // ---------- The desk ----------

  ghost predicate Recorded(saves: seq<World>, world: World) {
    saves != [] && IsDeliveryRun(saves) && saves[|saves| - 1] == world
  }

  lemma RecordStep(saves: seq<World>, world: World, s: Step)
    requires Recorded(saves, world) && Enabled(s, world)
    ensures Recorded(saves + [Effect(s, world)], Effect(s, world))
  {
    Runs.Continue(Init, Next, saves, Effect(s, world));
  }

  /** A crash of every process: the run goes on with no sender left. */
  lemma {:induction false} CrashAll(saves: seq<World>, world: World) returns (next: seq<World>)
    requires Recorded(saves, world)
    ensures Recorded(next, world.(senders := map[]))
    decreases |world.senders|
  {
    if world.senders == map[] {
      next := saves;
    } else {
      var key :| key in world.senders;
      RecordStep(saves, world, Lose(key));
      var w := Effect(Lose(key), world);
      assert w.senders.Keys == world.senders.Keys - {key};
      next := CrashAll(saves + [w], w);
    }
  }

  class DeliveryDesk {
    const chatId: ChatId
    var rows: map<Episode, Row>
    var slots: map<SlotKey, Slot>
    ghost var saves: seq<World>
    ghost var world: World

    ghost predicate Valid()
      reads this
    {
      Recorded(saves, world) && world == World(rows, slots, map[], world.sent)
    }

    constructor Create(chatId: ChatId)
      ensures Valid() && this.chatId == chatId && rows == map[] && slots == map[] && world.sent == []
    {
      this.chatId := chatId;
      rows, slots := map[], map[];
      world := World(map[], map[], map[], []);
      saves := [World(map[], map[], map[], [])];
    }

    /** A desk over whatever crashed processes left at any point of their run. */
    constructor Reopen(chatId: ChatId, rows: map<Episode, Row>, slots: map<SlotKey, Slot>, ghost history: seq<World>)
      requires history != [] && IsDeliveryRun(history)
      requires history[|history| - 1].rows == rows && history[|history| - 1].slots == slots
      ensures Valid() && this.chatId == chatId && this.rows == rows && this.slots == slots
      ensures world.sent == history[|history| - 1].sent
    {
      this.chatId := chatId;
      this.rows, this.slots := rows, slots;
      ghost var w := history[|history| - 1];
      ghost var next := CrashAll(history, w);
      world := w.(senders := map[]);
      saves := next;
    }

    lemma SlotIsFenced(key: SlotKey)
      requires Valid()
      ensures SlotFenced(world, key)
    {
      HoldsAt(saves, |saves| - 1);
    }

    lemma SlotsAreBound()
      requires Valid()
      ensures SlotsBound(slots)
    {
      forall key | HasReceipt(slots, key)
        ensures SlotOf(slots, key).receipt.value.intent.episode == key.episode
        ensures SlotOf(slots, key).receipt.value.intent.approval.kind == key.kind
      {
        SlotIsFenced(key);
      }
    }

    ghost method Take(s: Step)
      requires Recorded(saves, world) && Enabled(s, world)
      modifies this`saves, this`world
      ensures Recorded(saves, world) && world == Effect(s, old(world))
    {
      RecordStep(saves, world, s);
      world := Effect(s, world);
      saves := saves + [world];
    }

    /** `_send`, inside the lock of the slot: intent, call, receipt, read-back, callback. */
    method Send(key: SlotKey, want: Intent, post: Post) returns (r: Result<DeliveryReceipt, DeliveryError>)
      requires Valid() && want.episode == key.episode && want.approval.kind == key.kind
      requires key.kind == Video ==> HasReceipt(slots, SlotKey(key.episode, Thumbnail))
      modifies this`slots, this`saves, this`world
      ensures Valid()
      ensures var attempt := (key, SendResult(SlotOf(old(slots), key), want, post));
        && r == attempt.1.result && slots == SlotsAfter(old(slots), attempt)
        && world.sent == old(world.sent) + CallsOf(attempt)
    {
      SlotIsFenced(key);
      var slot := SlotOf(slots, key);
      if slot.receipt.Some? {
        return Recover(slot.receipt.value, want, post.before);
      }
      if !post.supported {
        return Err(Unsupported);
      }
      if slot.attempt.Some? {
        if slot.attempt.value != want {
          return Err(IntentMismatch);
        }
        return Err(Ambiguous);
      }
      r := PostFresh(key, want, post);
    }

    /** The part of a send from the intent file on. */
    method PostFresh(key: SlotKey, want: Intent, post: Post) returns (r: Result<DeliveryReceipt, DeliveryError>)
      requires Valid() && MayIntend(world, key, want)
      modifies this`slots, this`saves, this`world
      ensures Valid()
      ensures r == Posted(want, post).result && slots == old(slots)[key := Posted(want, post).slot]
      ensures world.sent == old(world.sent) + [key]
    {
      hide Recorded, Recover, SlotFenced;
      Take(WriteIntent(key, want));
      slots := slots[key := Slot(Some(want), None)];
      Take(Call(key, if post.answer.Answers? then Some(post.answer.messageId) else None));
      match post.answer {
        case Fails =>
          assert world.senders == map[];
          return Err(Ambiguous);
        case Interrupted =>
          assert world.senders == map[];
          return Err(Cancelled);
        case Answers(id) =>
          if id <= 0 {
            Take(Lose(key));
            assert world.senders == map[];
            return Err(NoMessageId);
          }
          var receipt := DeliveryReceipt(want, id);
          Take(WriteReceipt(key));
          assert world.senders == map[];
          slots := slots[key := Slot(Some(want), Some(receipt))];
          var persisted := Recover(receipt, want, post.after);
          if persisted.Ok? && post.callback.Raises? {
            return Err(CallbackFailed);
          }
          if persisted.Ok? && post.callback.Cancels? {
            return Err(Cancelled);
          }
          return persisted;
      }
    }

    /** Sends the one artifact the open gate asks for. */
    method DeliverForApproval(e: Episode, path: Path, view: EpisodeView, now: nat, post: Post)
        returns (r: Result<DeliveryReceipt, DeliveryError>)
      requires Valid()
      modifies this`slots, this`saves, this`world
      ensures Valid()
      ensures var attempt := Attempt(old(slots), e, chatId, path, view, now, post);
        && r == attempt.1.result && slots == SlotsAfter(old(slots), attempt)
        && world.sent == old(world.sent) + CallsOf(attempt)
    {
      SlotsAreBound();
      var choice := Choice(slots, e, chatId, path, view, post.before, now);
      if choice.Err? {
        return Err(choice.error);
      }
      VideoNeedsApprovedThumbnail(slots, e, chatId, path, view, post.before, now);
      r := Send(SlotKey(e, choice.value.approval.kind), choice.value, post);
    }

    // ---------- The outbox ----------

    /** Idempotent for the same binding; refuses another one. */
    method EnqueueVideo(e: Episode, path: Path, sha256: Sha256) returns (ok: bool)
      requires Valid()
      modifies this`rows, this`saves, this`world
      ensures Valid() && world.sent == old(world.sent)
      ensures rows == if e in old(rows) then old(rows) else old(rows)[e := Row(path, sha256, Pending)]
      ensures ok <==> rows[e].thumbnailPath == path && rows[e].thumbnailSha256 == sha256
    {
      if e in rows {
        return rows[e].thumbnailPath == path && rows[e].thumbnailSha256 == sha256;
      }
      Take(Enqueue(e, path, sha256));
      rows := rows[e := Row(path, sha256, Pending)];
      return true;
    }

    method UpdateRow(e: Episode, status: Status)
      requires Valid() && status != Pending
      requires status == Delivered ==> HasReceipt(slots, SlotKey(e, Video))
      modifies this`rows, this`saves, this`world
      ensures Valid() && world.sent == old(world.sent) && rows == Updated(old(rows), e, status)
    {
      if e in rows && rows[e].status == Pending {
        Take(Mark(e, status));
        rows := rows[e := rows[e].(status := status)];
      }
    }

    /** `_mark_unknown` and `_mark_blocked`, whose write may fail. */
    method MarkAndReport(e: Episode, status: Status, stored: bool) returns (r: Report)
      requires Valid() && status in {Blocked, Unknown}
      modifies this`rows, this`saves, this`world
      ensures Valid() && world.sent == old(world.sent)
      ensures rows == if stored then Updated(old(rows), e, status) else old(rows)
      ensures r == if stored then Reported(e, status) else Raised(e)
    {
      if !stored {
        return Raised(e);
      }
      UpdateRow(e, status);
      return Reported(e, status);
    }

    /** What the drain does with the outcome of the delivery. */
    method Settle(e: Episode, receipt: Result<DeliveryReceipt, DeliveryError>, d: Drain) returns (r: Report)
      requires Valid()
      requires receipt.Ok? && receipt.value.intent.approval.kind == Video ==> HasReceipt(slots, SlotKey(e, Video))
      modifies this`rows, this`saves, this`world
      ensures Valid() && world.sent == old(world.sent)
      ensures var status := StatusOf(receipt, d);
        && rows == (if status == Delivered || d.statusStored then Updated(old(rows), e, status) else old(rows))
        && r == if receipt != Err(Cancelled) && (status == Delivered || d.statusStored) then Reported(e, status)
                else Raised(e)
    {
      if receipt == Err(Cancelled) {
        r := MarkAndReport(e, Unknown, d.statusStored);
        return Raised(e);
      }
      if receipt.Err? || !d.registered || receipt.value.intent.approval.kind != Video {
        r := MarkAndReport(e, Unknown, d.statusStored);
        return;
      }
      if !d.acknowledgementStored {
        r := MarkAndReport(e, Unknown, d.statusStored);
        return;
      }
      UpdateRow(e, Delivered);
      return Reported(e, Delivered);
    }

    lemma ReturnedReceiptIsDurable(e: Episode, path: Path, view: EpisodeView, now: nat, post: Post,
                                   slots': map<SlotKey, Slot>)
      requires Valid()
      requires slots' == SlotsAfter(slots, Attempt(slots, e, chatId, path, view, now, post))
      ensures var r := Attempt(slots, e, chatId, path, view, now, post).1.result;
        r.Ok? ==> HasReceipt(slots', SlotKey(e, r.value.intent.approval.kind))
    {
      SlotsAreBound();
    }

    /** Takes the least pending episode through zero or one delivery. */
    method DrainOnce(d: Drain) returns (r: Report)
      requires Valid()
      modifies this
      ensures Valid()
      ensures PendingEpisodes(old(rows)) == {} ==> r == Idle && rows == old(rows) && slots == old(slots) && world == old(world)
      ensures PendingEpisodes(old(rows)) != {} ==>
        var e := Least(PendingEpisodes(old(rows)));
        var row := old(rows)[e];
        var attempt := Attempt(old(slots), e, chatId, row.thumbnailPath, d.view, d.now, d.post);
        && rows == RowsAfter(old(slots), chatId, old(rows), e, d)
        && r == ReportOf(old(slots), chatId, e, row, d)
        && slots == (if Eligible(row, d) then SlotsAfter(old(slots), attempt) else old(slots))
        && world.sent == old(world.sent) + (if Eligible(row, d) then CallsOf(attempt) else [])
      ensures forall e :: r == Reported(e, Delivered) ==> HasReceipt(slots, SlotKey(e, Video))
    {
      hide Choice, SendResult, Recorded, Least, SlotsBound, SlotsAfter, CallsOf;
      if PendingEpisodes(rows) == {} {
        return Idle;
      }
      var e := Least(PendingEpisodes(rows));
      var row := rows[e];
      if row.thumbnailPath !in d.thumbnail || d.thumbnail[row.thumbnailPath] != row.thumbnailSha256 || !d.authentic {
        r := MarkAndReport(e, Blocked, d.statusStored);
        return;
      }
      if d.marked {
        UpdateRow(e, Unknown);
      }
      ReturnedReceiptIsDurable(e, row.thumbnailPath, d.view, d.now, d.post,
        SlotsAfter(slots, Attempt(slots, e, chatId, row.thumbnailPath, d.view, d.now, d.post)));
      var receipt := DeliverForApproval(e, row.thumbnailPath, d.view, d.now, d.post);
      r := Settle(e, receipt, d);
    }

    /** The inner loop of the hosted worker: drains until idle, or until a drain raises. The
        number of pending rows falls on every turn, and at the end none is left unless a
        drain raised. */
    method DrainAll(drains: nat -> Drain) returns (r: Report)
      requires Valid()
      modifies this
      ensures Valid() && !r.Reported?
      ensures r.Idle? ==> PendingEpisodes(rows) == {}
      ensures rows.Keys == old(rows).Keys
      ensures forall e :: e in rows && old(rows)[e].status != Pending ==> rows[e] == old(rows)[e]
    {
      hide Recorded, Attempt, SlotsAfter, CallsOf;
      var k := 0;
      while true
        invariant Valid() && rows.Keys == old(rows).Keys
        invariant forall e :: e in rows && old(rows)[e].status != Pending ==> rows[e] == old(rows)[e]
        decreases PendingEpisodes(rows)
      {
        ghost var before := PendingEpisodes(rows);
        r := DrainOnce(drains(k));
        if !r.Reported? {
          return;
        }
        assert PendingEpisodes(rows) == before - {Least(before)};
        k := k + 1;
      }
    }
  }
}
