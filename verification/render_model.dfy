/** The compiled render of one episode: its three write-once evidence files, the video and the
    episode state on disk, every single write of the protocol, and a crash between any two. */
module RenderModel {
  import opened Wrappers
  import opened Artifacts
  import Runs

  /** Every mutable input of a render. Its hash is modelled by the contract itself. */
  datatype Contract = Contract(manifest: Sha256, audio: Sha256, scenes: seq<Sha256>, hold: int)

  datatype RendererReceipt = RendererReceipt(output: Sha256, subtitles: Option<Sha256>)

  datatype Intent = Intent(contract: Contract)

  datatype Completion = Completion(intent: Intent, contract: Contract, output: Sha256,
                                   renderer: RendererReceipt, rendererSha256: RendererReceipt)

  datatype DirectorReceipt = DirectorReceipt(intent: Intent, completion: Completion, contract: Contract,
                                             renderer: RendererReceipt)

  /** A file created exclusively and then written: a crash in between leaves it torn. */
  datatype File<T> = Absent | Torn | Whole(content: T)

  datatype State = PlanningAnimation | LocalAnimation | Assembling | FinalQa | OtherState

  datatype Disk = Disk(intent: File<Intent>, completion: File<Completion>, receipt: File<DirectorReceipt>,
                       video: Option<Sha256>, state: State)

  /** Where the process that holds the lock is. `Checked` has authenticated an earlier render;
      it looks at the video only then. */
  datatype Phase = Idle | CreatedIntent(contract: Contract) | Intended | Rendering | CreatedCompletion
                 | Checked(contract: Contract) | CreatedReceipt(contract: Contract)

  /** `renders` counts the calls of the renderer. */
  datatype World = World(disk: Disk, phase: Phase, renders: nat)

  predicate Bound(c: Completion, intent: Intent, contract: Contract, video: Option<Sha256>) {
    && c.intent == intent && c.contract == contract && c.rendererSha256 == c.renderer
    && c.renderer.output == c.output && video == Some(c.output)
  }

  /** `_compiled_render_recovery_evidence`: intent, completion and video fit the contract. */
  predicate Evidence(d: Disk, contract: Contract) {
    && d.intent == Whole(Intent(contract))
    && d.completion.Whole? && Bound(d.completion.content, Intent(contract), contract, d.video)
  }

  /** The receipt of an authenticated render is a function of what is on disk. */
  function ReceiptOf(d: Disk, contract: Contract): DirectorReceipt
    requires d.completion.Whole?
  {
    DirectorReceipt(Intent(contract), d.completion.content, contract, d.completion.content.renderer)
  }

  /** Nothing of an earlier render is there, and the episode waits for one. */
  predicate Fresh(d: Disk) {
    d.intent == Absent && d.completion == Absent && d.video == None && d.state == PlanningAnimation
  }

  predicate OnTheWay(state: State) {
    state in {PlanningAnimation, LocalAnimation, Assembling, FinalQa}
  }

  datatype Step =
    | CreateIntent(contract: Contract)
    | FillIntent
    | SaveState(state: State)
    | Invoke
    | PublishVideo(video: Sha256)
    | CreateCompletion
    | FillCompletion(completion: Completion)
    | Leave
    | Check(contract: Contract)
    | CreateReceipt
    | FillReceipt
    | SaveFinalQa
    | Crash
    | ReplaceVideo(bytes: Option<Sha256>)
    | Move(state: State)

  predicate Enabled(s: Step, w: World) {
    match s
    case CreateIntent(_) => w.phase == Idle && Fresh(w.disk)
    case FillIntent => w.phase.CreatedIntent?
    case SaveState(state) => w.phase == Intended && state in {LocalAnimation, Assembling}
    case Invoke => w.phase == Intended
    case PublishVideo(_) => w.phase == Rendering
    case CreateCompletion => w.phase == Rendering && w.disk.completion == Absent
    case FillCompletion(_) => w.phase == CreatedCompletion
    case Leave => w.phase == Rendering
    case Check(contract) => w.phase == Idle && Evidence(w.disk, contract)
    case CreateReceipt => w.phase.Checked? && w.disk.receipt == Absent
    case FillReceipt => w.phase.CreatedReceipt? && w.disk.completion.Whole?
    case SaveFinalQa =>
      && w.phase.Checked? && OnTheWay(w.disk.state)
      && w.disk.completion.Whole? && w.disk.receipt == Whole(ReceiptOf(w.disk, w.phase.contract))
    case Crash => true
    case ReplaceVideo(_) => true
    case Move(state) => w.phase == Idle && state != FinalQa
  }

  function Effect(s: Step, w: World): World
    requires Enabled(s, w)
  {
    var d := w.disk;
    match s
    case CreateIntent(contract) => World(d.(intent := Torn), CreatedIntent(contract), w.renders)
    case FillIntent => World(d.(intent := Whole(Intent(w.phase.contract))), Intended, w.renders)
    case SaveState(state) => w.(disk := d.(state := state))
    case Invoke => World(d, Rendering, w.renders + 1)
    case PublishVideo(video) => w.(disk := d.(video := Some(video)))
    case CreateCompletion => World(d.(completion := Torn), CreatedCompletion, w.renders)
    case FillCompletion(c) => World(d.(completion := Whole(c)), Rendering, w.renders)
    case Leave => w.(phase := Idle)
    case Check(contract) => w.(phase := Checked(contract))
    case CreateReceipt => World(d.(receipt := Torn), CreatedReceipt(w.phase.contract), w.renders)
    case FillReceipt => World(d.(receipt := Whole(ReceiptOf(d, w.phase.contract))), Checked(w.phase.contract), w.renders)
    case SaveFinalQa => World(d.(state := FinalQa), Idle, w.renders)
    case Crash => w.(phase := Idle)
    case ReplaceVideo(bytes) => w.(disk := d.(video := bytes))
    case Move(state) => w.(disk := d.(state := state))
  }

  predicate Init(w: World) {
    && w.phase == Idle && w.renders == 0
    && w.disk.intent == Absent && w.disk.completion == Absent && w.disk.receipt == Absent && w.disk.state != FinalQa
  }

  ghost predicate Next(w: World, w': World) {
    exists s: Step :: Enabled(s, w) && w' == Effect(s, w)
  }

  ghost predicate IsRenderRun(run: seq<World>) {
    Runs.IsRun(Init, Next, run)
  }

  // ---------- The invariant ----------

  /** The intent fences the renderer. */
  predicate RenderedOnce(w: World) {
    && w.renders <= 1
    && (w.renders == 1 ==> w.disk.intent.Whole?)
    && (w.phase.CreatedIntent? || w.phase == Intended ==> w.renders == 0)
    && (w.phase.CreatedIntent? ==> w.disk.intent == Torn)
    && (w.phase == Intended ==> w.disk.intent.Whole?)
    && (w.phase == Rendering || w.phase == CreatedCompletion ==> w.renders == 1)
    && (w.disk.completion != Absent ==> w.renders == 1)
  }

  /** A Director receipt rests on a whole intent and a whole completion bound to each other. */
  predicate ReceiptRests(d: Disk) {
    && d.intent.Whole? && d.completion.Whole?
    && Bound(d.completion.content, d.intent.content, d.intent.content.contract, Some(d.completion.content.output))
  }

  predicate ReceiptBound(w: World) {
    && (w.disk.receipt != Absent ==> ReceiptRests(w.disk))
    && (w.disk.receipt.Whole? ==> w.disk.receipt.content == ReceiptOf(w.disk, w.disk.intent.content.contract))
    && (w.phase.CreatedReceipt? ==> w.disk.receipt == Torn)
    && (w.phase.Checked? || w.phase.CreatedReceipt? ==> ReceiptRests(w.disk) && w.disk.intent == Whole(Intent(w.phase.contract)))
    && (w.phase in {Rendering, CreatedCompletion} || w.phase == Intended || w.phase.CreatedIntent? ==> w.disk.receipt == Absent)
    && (w.phase == CreatedCompletion ==> w.disk.completion == Torn)
    && (w.disk.state == FinalQa ==> w.disk.receipt.Whole?)
  }

  predicate Inv(w: World) {
    RenderedOnce(w) && ReceiptBound(w)
  }

  lemma StepKeepsInv(w: World, w': World)
    requires Inv(w) && Next(w, w')
    ensures Inv(w')
  {
  }

  lemma HoldsAt(run: seq<World>, i: nat)
    requires IsRenderRun(run) && i < |run|
    ensures Inv(run[i])
  {
    forall w, w' | Inv(w) && Next(w, w') ensures Inv(w') {
      StepKeepsInv(w, w');
    }
    Runs.InvariantAt(Init, Next, Inv, run, i);
  }

  // ---------- Whole runs ----------

  /** Over any calls, crashes and replacements of the video the renderer runs at most once, and
      FINAL_QA is only ever on disk beside a whole Director receipt bound to the whole intent
      and the whole completion. */
  lemma RendersOnce(run: seq<World>, i: nat)
    requires IsRenderRun(run) && i < |run|
    ensures run[i].renders <= 1
    ensures var d := run[i].disk;
      d.state == FinalQa ==>
        && ReceiptRests(d) && run[i].renders == 1
        && d.receipt == Whole(ReceiptOf(d, d.intent.content.contract))
  {
    HoldsAt(run, i);
  }

  // ---------- What FINAL_QA says about the video ----------

  predicate Authenticated(w: World, contract: Contract) {
    w.phase == Checked(contract) || w.phase == CreatedReceipt(contract)
  }

  /** Only a check authenticates, and an authenticated process leaves the completion alone. */
  lemma OnlyCheckAuthenticates(w: World, w': World, contract: Contract)
    requires Inv(w) && Next(w, w') && Authenticated(w', contract)
    ensures w'.disk.completion == w.disk.completion
    ensures Authenticated(w, contract) || Evidence(w.disk, contract)
  {
    hide Bound, Fresh;
  }

  /** A process that has checked an earlier render did so at one point of the run, has not
      crashed since, and found the completed video there. */
  lemma {:induction false} CheckHappened(run: seq<World>, j: nat, contract: Contract) returns (i: nat)
    requires IsRenderRun(run) && j < |run| && Authenticated(run[j], contract)
    ensures i < j && Evidence(run[i].disk, contract)
    ensures forall k :: i < k <= j ==> Authenticated(run[k], contract) && run[k].disk.completion == run[i].disk.completion
    decreases j
  {
    Runs.StartsWell(Init, Next, run);
    HoldsAt(run, j - 1);
    Runs.StepAt(Init, Next, run, j - 1);
    hide Inv, Next, Evidence, Init;
    OnlyCheckAuthenticates(run[j - 1], run[j], contract);
    if Authenticated(run[j - 1], contract) {
      i := CheckHappened(run, j - 1, contract);
    } else {
      i := j - 1;
    }
  }

  /** Whenever FINAL_QA is saved, the process had found the completed video at its check, which
      it made after it entered and did not repeat. At the save the video is the completed one
      exactly when it still has the bytes of the check; in particular when nothing replaced it
      in between. */
  lemma FinalQaSawTheVideo(run: seq<World>, j: nat) returns (i: nat, contract: Contract)
    requires IsRenderRun(run) && j + 1 < |run|
    requires run[j].disk.state != FinalQa && run[j + 1].disk.state == FinalQa
    ensures i < j && Evidence(run[i].disk, contract)
    ensures run[j + 1].disk.receipt == Whole(ReceiptOf(run[i].disk, contract))
    ensures Evidence(run[j + 1].disk, contract) <==> run[j + 1].disk.video == run[i].disk.video
    ensures (forall k :: i <= k <= j ==> !Replaced(run[k], run[k + 1])) ==> Evidence(run[j + 1].disk, contract)
  {
    HoldsAt(run, j);
    Runs.StepAt(Init, Next, run, j);
    var s: Step :| Enabled(s, run[j]) && run[j + 1] == Effect(s, run[j]);
    assert s.SaveFinalQa?;
    contract := run[j].phase.contract;
    i := CheckHappened(run, j, contract);
    if forall k :: i <= k <= j ==> !Replaced(run[k], run[k + 1]) {
      VideoStays(run, i, j + 1);
    }
  }

  predicate Replaced(w: World, w': World) {
    w'.disk.video != w.disk.video
  }

  lemma {:induction false} VideoStays(run: seq<World>, i: nat, j: nat)
    requires i <= j < |run| && forall k :: i <= k < j ==> !Replaced(run[k], run[k + 1])
    ensures run[j].disk.video == run[i].disk.video
    decreases j
  {
    if i < j {
      VideoStays(run, i, j - 1);
      assert !Replaced(run[j - 1], run[j]);
    }
  }

  lemma Take(run: seq<World>, s: Step) returns (next: seq<World>)
    requires IsRenderRun(run) && Enabled(s, run[|run| - 1])
    ensures next == run + [Effect(s, run[|run| - 1])] && IsRenderRun(next)
  {
    next := run + [Effect(s, run[|run| - 1])];
    Runs.Continue(Init, Next, run, Effect(s, run[|run| - 1]));
  }

  /** The replacement does matter: from every recoverable state FINAL_QA can be saved beside any
      bytes at all, when they arrive between the check and the save. */
  lemma FinalQaBesideOtherBytes(run: seq<World>, contract: Contract, bytes: Option<Sha256>) returns (next: seq<World>)
    requires IsRenderRun(run) && run[|run| - 1].phase == Idle && Recoverable(run[|run| - 1].disk, contract)
    ensures IsRenderRun(next) && next[|next| - 1].phase == Idle
    ensures next[|next| - 1].disk.state == FinalQa && next[|next| - 1].disk.video == bytes
  {
    next := Take(run, Check(contract));
    if run[|run| - 1].disk.receipt == Absent {
      next := Take(next, CreateReceipt);
      next := Take(next, FillReceipt);
    }
    next := Take(next, ReplaceVideo(bytes));
    next := Take(next, SaveFinalQa);
  }

  /** What a recoverable disk looks like: the intent of this contract; a completion of that
      intent and contract, with the receipt the renderer gave and its hash; the video it speaks
      of; no receipt yet, or the one of exactly these files; and an episode on its way. */
  lemma RecoverableMeans(d: Disk, contract: Contract)
    ensures Recoverable(d, contract) <==>
      && d.intent == Whole(Intent(contract)) && d.completion.Whole?
      && var c := d.completion.content;
         && c == Completion(Intent(contract), contract, c.output, c.renderer, c.renderer)
         && c.renderer == RendererReceipt(c.output, c.renderer.subtitles)
         && d.video == Some(c.output)
         && (d.receipt == Absent || d.receipt == Whole(DirectorReceipt(Intent(contract), c, contract, c.renderer)))
         && (d.state == PlanningAnimation || d.state == LocalAnimation || d.state == Assembling || d.state == FinalQa)
  {
  }

  /** Evidence files never change once they are whole. */
  predicate EvidenceKept(d: Disk, later: Disk) {
    && (d.intent != Absent ==> later.intent != Absent) && (d.intent.Whole? ==> later.intent == d.intent)
    && (d.completion != Absent ==> later.completion != Absent) && (d.completion.Whole? ==> later.completion == d.completion)
    && (d.receipt != Absent ==> later.receipt != Absent) && (d.receipt.Whole? ==> later.receipt == d.receipt)
  }

  lemma StepKeepsEvidence(w: World, w': World)
    requires Inv(w) && Next(w, w')
    ensures EvidenceKept(w.disk, w'.disk)
  {
  }

  lemma {:induction false} EvidenceIsPermanent(run: seq<World>, i: nat, j: nat)
    requires IsRenderRun(run) && i <= j < |run|
    ensures EvidenceKept(run[i].disk, run[j].disk)
    decreases j
  {
    if i < j {
      EvidenceIsPermanent(run, i, j - 1);
      HoldsAt(run, j - 1);
      Runs.StepAt(Init, Next, run, j - 1);
      StepKeepsEvidence(run[j - 1], run[j]);
    }
  }

  /** When a call may return the receipt of an earlier render: the evidence fits, the receipt
      file is not torn, and the episode has not moved past FINAL_QA. */
  predicate Recoverable(d: Disk, contract: Contract) {
    Evidence(d, contract) && OnTheWay(d.state) && (d.receipt == Absent || d.receipt == Whole(ReceiptOf(d, contract)))
  }

  /** With the completion durable, a later call recovers exactly when the video still has its
      bytes, the episode is where it was, and no crash has torn the Director's receipt; and
      whenever it does, the receipt is the same one. */
  lemma CompletedRenderRecovers(run: seq<World>, i: nat, j: nat, contract: Contract)
    requires IsRenderRun(run) && i <= j < |run| && Evidence(run[i].disk, contract)
    ensures run[j].disk.completion.Whole? && ReceiptOf(run[j].disk, contract) == ReceiptOf(run[i].disk, contract)
    ensures Recoverable(run[j].disk, contract) <==>
      run[j].disk.video == run[i].disk.video && OnTheWay(run[j].disk.state) && run[j].disk.receipt != Torn
    ensures !Fresh(run[j].disk)
  {
    EvidenceIsPermanent(run, i, j);
    HoldsAt(run, j);
  }

  predicate Stuck(w: World) {
    || (w.disk.receipt == Torn && !w.phase.CreatedReceipt?)
    || (w.phase == Idle && w.disk.intent != Absent && !(w.disk.intent.Whole? && w.disk.completion.Whole?))
  }

  lemma StuckStep(w: World, w': World)
    requires Inv(w) && Stuck(w) && Next(w, w')
    ensures Stuck(w') && w'.renders == w.renders && w'.disk.receipt == w.disk.receipt
  {
  }

  /** A crash before the completion is whole, or inside the write of the Director's receipt,
      is final: no later call renders or recovers, whatever its contract. */
  lemma {:induction false} InterruptedRenderIsFinal(run: seq<World>, i: nat, j: nat, contract: Contract)
    requires IsRenderRun(run) && i <= j < |run| && Stuck(run[i])
    ensures Stuck(run[j]) && run[j].renders == run[i].renders
    ensures !Fresh(run[j].disk) && !Recoverable(run[j].disk, contract)
    decreases j
  {
    HoldsAt(run, i);
    if i < j {
      InterruptedRenderIsFinal(run, i, j - 1, contract);
      HoldsAt(run, j - 1);
      Runs.StepAt(Init, Next, run, j - 1);
      StuckStep(run[j - 1], run[j]);
    }
    HoldsAt(run, j);
  }
}
