/** The Director's compiled render, as the code performs it under the episode's lock. The
    ghost field `saves` is the run so far, one entry per write. */
module Render {
  import opened Wrappers
  import opened Artifacts
  import opened RenderModel
  import Runs

  datatype RenderError = ContractChanged | InvalidHold | EvidenceMismatch | ReceiptMismatch | Quarantined | WrongState | RendererFailed

  /** What one call of the renderer does: the video it publishes, what it leaves of the
      completion file, and what it returns, if it returns. */
  datatype Rendering = Rendering(video: Option<Sha256>, completion: File<Completion>, returned: Option<RendererReceipt>)

  /** The disk after the renderer has run on this intent. */
  function Rendered(d: Disk, contract: Contract, r: Rendering): Disk {
    d.(intent := Whole(Intent(contract)), completion := r.completion, video := r.video, state := Assembling)
  }

  /** The renderer returned the receipt of a durable completion, without subtitles. */
  predicate Committed(d: Disk, contract: Contract, r: Rendering) {
    && r.returned.Some? && Evidence(Rendered(d, contract, r), contract)
    && r.returned.value == r.completion.content.renderer && r.returned.value.subtitles == None
  }

  /** The video once somebody else may have replaced it. */
  function VideoAfter(video: Option<Sha256>, meanwhile: Option<Option<Sha256>>): Option<Sha256> {
    if meanwhile.Some? then meanwhile.value else video
  }

  ghost predicate Recorded(saves: seq<World>, world: World) {
    saves != [] && IsRenderRun(saves) && saves[|saves| - 1] == world
  }

  class RenderDirectory {
    var intent: File<Intent>
    var completion: File<Completion>
    var receipt: File<DirectorReceipt>
    var video: Option<Sha256>
    var state: State
    ghost var saves: seq<World>
    ghost var world: World

    function OnDisk(): Disk
      reads this
    {
      Disk(intent, completion, receipt, video, state)
    }

    ghost predicate Valid()
      reads this
    {
      Recorded(saves, world) && world.disk == OnDisk() && world.phase == Idle
    }

    /** A directory as crashed processes left it at any point of their run. */
    constructor (disk: Disk, ghost history: seq<World>)
      requires history != [] && IsRenderRun(history) && history[|history| - 1].disk == disk
      ensures Valid() && OnDisk() == disk && world.renders == history[|history| - 1].renders
    {
      intent, completion, receipt, video, state := disk.intent, disk.completion, disk.receipt, disk.video, disk.state;
      ghost var w := history[|history| - 1];
      Runs.Continue(Init, Next, history, Effect(Crash, w));
      saves, world := history + [Effect(Crash, w)], Effect(Crash, w);
    }

    lemma WorldIsSound()
      requires Recorded(saves, world)
      ensures Inv(world)
    {
      HoldsAt(saves, |saves| - 1);
    }

    ghost method Take(s: Step)
      requires Recorded(saves, world) && Enabled(s, world)
      modifies this`saves, this`world
      ensures Recorded(saves, world) && world == Effect(s, old(world))
    {
      Runs.Continue(Init, Next, saves, Effect(s, world));
      world := Effect(s, world);
      saves := saves + [world];
    }

    /** Writes the intent and announces the work in the episode state. */
    method Announce(contract: Contract)
      requires Valid() && Fresh(OnDisk())
      modifies this
      ensures OnDisk() == old(OnDisk()).(intent := Whole(Intent(contract)), state := Assembling)
      ensures Recorded(saves, world) && world == World(OnDisk(), Intended, old(world).renders)
    {
      hide Recorded, Evidence, ReceiptOf;
      Take(CreateIntent(contract));
      intent := Torn;
      Take(FillIntent);
      intent := Whole(Intent(contract));
      Take(SaveState(LocalAnimation));
      state := LocalAnimation;
      Take(SaveState(Assembling));
      state := Assembling;
    }

    /** Calls the renderer, which publishes a video and commits its completion, or stops. */
    method CallRenderer(r: Rendering)
      requires Recorded(saves, world) && world == World(OnDisk(), Intended, world.renders)
      requires completion == Absent && video == None
      modifies this
      ensures Valid() && world.renders == old(world).renders + 1
      ensures OnDisk() == old(OnDisk()).(completion := r.completion, video := r.video)
    {
      hide Recorded, Evidence, ReceiptOf;
      Take(Invoke);
      if r.video.Some? {
        Take(PublishVideo(r.video.value));
      }
      video := r.video;
      if r.completion != Absent {
        Take(CreateCompletion);
      }
      if r.completion.Whole? {
        Take(FillCompletion(r.completion.content));
      }
      completion := r.completion;
      Take(if world.phase == Phase.Rendering then Leave else Crash);
    }

    /** Recovers an authenticated render: writes the Director's receipt unless it is there,
        then moves the episode to FINAL_QA. `meanwhile` are the bytes that replace the video
        after the check, if any do. */
    method Recover(contract: Contract, meanwhile: Option<Option<Sha256>>) returns (r: Result<DirectorReceipt, RenderError>)
      requires Valid() && Evidence(OnDisk(), contract)
      modifies this`receipt, this`state, this`video, this`saves, this`world
      ensures Valid() && world.renders == old(world).renders
      ensures video == VideoAfter(old(video), meanwhile)
      ensures r.Ok? <==> Recoverable(old(OnDisk()), contract)
      ensures r.Ok? ==> r.value == ReceiptOf(old(OnDisk()), contract) && receipt == Whole(r.value) && state == FinalQa
      ensures r.Err? ==> state == old(state)
      ensures r.Err? && old(receipt) != Absent ==> receipt == old(receipt)
    {
      hide Recorded, Bound;
      Take(Check(contract));
      if meanwhile.Some? {
        Take(ReplaceVideo(meanwhile.value));
        video := meanwhile.value;
      }
      var wanted := DirectorReceipt(Intent(contract), completion.content, contract, completion.content.renderer);
      var written := WriteReceipt(contract, wanted);
      if !written {
        Take(Crash);
        return Err(ReceiptMismatch);
      }
      if !OnTheWay(state) {
        Take(Crash);
        return Err(WrongState);
      }
      Take(SaveFinalQa);
      state := FinalQa;
      return Ok(wanted);
    }

    /** Writes the receipt of the checked render, unless it is there. */
    method WriteReceipt(contract: Contract, wanted: DirectorReceipt) returns (ok: bool)
      requires Recorded(saves, world) && world == World(OnDisk(), Checked(contract), world.renders)
      requires completion.Whole? && wanted == ReceiptOf(OnDisk(), contract)
      modifies this`receipt, this`saves, this`world
      ensures Recorded(saves, world) && world == World(OnDisk(), Checked(contract), old(world).renders)
      ensures ok <==> old(receipt) in {Absent, Whole(wanted)}
      ensures receipt == if ok then Whole(wanted) else old(receipt)
    {
      hide Recorded, Evidence;
      if receipt != Absent {
        return receipt == Whole(wanted);
      }
      Take(CreateReceipt);
      receipt := Torn;
      Take(FillReceipt);
      receipt := Whole(wanted);
      return true;
    }

    /** `_render_compiled_video_locked`. `inputs` are the contracts that the pipeline yields at
        the successive entries: the call that follows a render is the same method again, and it
        then finds the completion, so it calls itself at most once. */
    method RenderLocked(inputs: nat -> Contract, entry: nat, expected: Option<Contract>, rendering: Rendering,
                        meanwhile: Option<Option<Sha256>>)
        returns (r: Result<DirectorReceipt, RenderError>)
      requires Valid()
      modifies this
      ensures Valid()
      ensures var d, contract := old(OnDisk()), inputs(entry);
        var accepted := contract.hold in {3, 4, 5} && (expected.Some? ==> expected.value == contract);
        && world.renders == old(world).renders + (if accepted && Fresh(d) then 1 else 0)
        && (r.Ok? ==>
              && accepted && receipt == Whole(r.value) && state == FinalQa
              && var found := if Fresh(d) then Rendered(d, contract, rendering) else d;
                 && Evidence(found, contract) && r.value == ReceiptOf(found, contract)
                 && intent == found.intent && completion == found.completion && video == VideoAfter(found.video, meanwhile))
        && (!Fresh(d) ==> (r.Ok? <==> accepted && Recoverable(d, contract)))
        && (!Fresh(d) ==> intent == d.intent && completion == d.completion)
        && (accepted && Fresh(d) ==>
              (r.Ok? <==> Committed(d, contract, rendering) && inputs(entry + 1) == contract))
      decreases if completion == Absent then 1 else 0
    {
      hide Recorded;
      WorldIsSound();
      var contract := inputs(entry);
      if contract.hold !in {3, 4, 5} {
        return Err(InvalidHold);
      }
      if expected.Some? && expected.value != contract {
        return Err(ContractChanged);
      }
      if intent != Absent && completion != Absent {
        if !Evidence(OnDisk(), contract) {
          return Err(EvidenceMismatch);
        }
        r := Recover(contract, meanwhile);
        return;
      }
      if intent != Absent || completion != Absent || video != None {
        return Err(Quarantined);
      }
      if state != PlanningAnimation {
        return Err(WrongState);
      }
      Announce(contract);
      CallRenderer(rendering);
      assert OnDisk() == Rendered(old(OnDisk()), contract, rendering);
      if rendering.returned.None? {
        return Err(RendererFailed);
      }
      if !Evidence(OnDisk(), contract) {
        return Err(EvidenceMismatch);
      }
      if rendering.returned.value != completion.content.renderer || rendering.returned.value.subtitles != None {
        return Err(EvidenceMismatch);
      }
      r := RenderLocked(inputs, entry + 1, Some(contract), rendering, meanwhile);
    }
  }
}
