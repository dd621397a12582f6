/** The `Pipeline` struct of `src/pipeline.rs`: the resolution table, the
    capsfilter and mixer parameters that `refresh` rewrites, the overlay
    document, the three recording slots with the part of the graph they
    refer to, and the bus watch. */
module Pipeline {
  import opened Wrappers
  import opened Settings
  import opened Messages
  import opened Recording
  import Overlay
  import Utils
  import VuMeter

  /** A frame size in pixels. */
  datatype Dims = Dims(width: int, height: int)

  /** The resolution table shared by `new` and `refresh`. */
  function Dimensions(r: VideoResolution): (d: Dims)
    ensures d.width > 0 && d.height > 0
    ensures r == V480P ==> d.width * 3 == d.height * 4
    ensures r != V480P ==> d.width * 9 == d.height * 16
  {
    match r
    case V480P => Dims(640, 480)
    case V720P => Dims(1280, 720)
    case V1080P => Dims(1920, 1080)
  }

  /** A larger resolution is larger in both directions, so the table is
      injective. */
  lemma DimensionsFollowOrder(a: VideoResolution, b: VideoResolution)
    ensures Below(a, b) <==> Dimensions(a).width < Dimensions(b).width
    ensures Below(a, b) <==> Dimensions(a).height < Dimensions(b).height
    ensures Dimensions(a) == Dimensions(b) ==> a == b
  {
  }

  datatype Fraction = Fraction(num: int, den: int)

  /** The caps of `camcaps`: JPEG of the given size at 30/1 frames per
      second. */
  datatype CameraCaps = CameraCaps(size: Dims, framerate: Fraction)

  /** The caps of `wpecaps`: raw video in GL memory of the given size with
      square pixels. */
  datatype OverlayCaps = OverlayCaps(size: Dims, pixelAspectRatio: Fraction)

  function CameraCapsFor(r: VideoResolution): CameraCaps {
    CameraCaps(Dimensions(r), Fraction(30, 1))
  }

  function OverlayCapsFor(r: VideoResolution): OverlayCaps {
    OverlayCaps(Dimensions(r), Fraction(1, 1))
  }

  /** A request made of the main pipeline or its sink, in order. */
  datatype Op = SetState(target: GstState) | SendReconfigure

  const UNWRAP_PANIC: string := "called `Result::unwrap()` on an `Err` value"

  class Pipeline {
    var state: GstState
    var ops: seq<Op>
    var cameraCaps: CameraCaps
    var overlayCaps: OverlayCaps
    /** The size set on the mixer's `sink_1` pad, `None` when there is no
        such pad. */
    var mixerSink1: Option<Dims>
    /** The documents given to `wpesrc` with `load-bytes`, in order. */
    var documents: seq<string>
    var graph: Graph
    var recordingBin: Option<Bin>
    var recordingAudioPad: Option<Pad>
    var recordingVideoPad: Option<Pad>
    const assets: Overlay.Assets
    const vumeter: VuMeter.VuMeter

    /** The slots with the graph they refer to. */
    function Recorder(): Recorder
      reads this
    {
      Recording.Recorder(graph, recordingBin, recordingAudioPad, recordingVideoPad)
    }

    twostate predicate MainUnchanged()
      reads this
    {
      && state == old(state) && ops == old(ops)
      && cameraCaps == old(cameraCaps) && overlayCaps == old(overlayCaps)
      && mixerSink1 == old(mixerSink1) && documents == old(documents)
    }

    twostate predicate RecordingUnchanged()
      reads this
    {
      && graph == old(graph) && recordingBin == old(recordingBin)
      && recordingAudioPad == old(recordingAudioPad) && recordingVideoPad == old(recordingVideoPad)
    }

    /** The struct `Pipeline::new` builds for the loaded settings: the
        capsfilters and the mixer pad get the dimensions of the configured
        resolution, and the recording slots are empty. `New` adds the
        initial `update_overlay`. */
    constructor (settings: Settings, assets: Overlay.Assets, vumeter: VuMeter.VuMeter)
      ensures state == Null && ops == []
      ensures cameraCaps == CameraCapsFor(settings.videoResolution)
      ensures overlayCaps == OverlayCapsFor(settings.videoResolution)
      ensures mixerSink1 == Some(Dimensions(settings.videoResolution))
      ensures documents == [] && Recorder() == IDLE
      ensures this.assets == assets && this.vumeter == vumeter
    {
      var dims := Dimensions(settings.videoResolution);
      state, ops := Null, [];
      cameraCaps := CameraCaps(dims, Fraction(30, 1));
      overlayCaps := OverlayCaps(dims, Fraction(1, 1));
      mixerSink1 := Some(dims);
      documents := [];
      graph := EMPTY_GRAPH;
      recordingBin, recordingAudioPad, recordingVideoPad := None, None, None;
      this.assets := assets;
      this.vumeter := vumeter;
    }

    /** `refresh` with the loaded settings: rewrites both capsfilters and,
        when the mixer has a `sink_1` pad, its size; then pauses, sends a
        reconfigure event to the sink and plays again. Each transition
        that fails is the panic of its `unwrap`. */
    method Refresh(settings: Settings, pauseOk: bool, playOk: bool) returns (r: Status)
      modifies this
      ensures cameraCaps == CameraCapsFor(settings.videoResolution)
      ensures overlayCaps == OverlayCapsFor(settings.videoResolution)
      ensures old(mixerSink1).Some? ==> mixerSink1 == Some(Dimensions(settings.videoResolution))
      ensures old(mixerSink1).None? ==> mixerSink1.None?
      ensures !pauseOk ==> r == Panic(UNWRAP_PANIC) && state == old(state) && ops == old(ops) + [SetState(Paused)]
      ensures pauseOk && !playOk ==>
        r == Panic(UNWRAP_PANIC) && state == Paused
        && ops == old(ops) + [SetState(Paused), SendReconfigure, SetState(Playing)]
      ensures pauseOk && playOk ==>
        r == Ok && state == Playing
        && ops == old(ops) + [SetState(Paused), SendReconfigure, SetState(Playing)]
      ensures documents == old(documents) && RecordingUnchanged()
    {
      var dims := Dimensions(settings.videoResolution);
      cameraCaps := CameraCaps(dims, Fraction(30, 1));
      overlayCaps := OverlayCaps(dims, Fraction(1, 1));
      if mixerSink1.Some? {
        mixerSink1 := Some(dims);
      }
      ops := ops + [SetState(Paused)];
      if !pauseOk {
        return Panic(UNWRAP_PANIC);
      }
      state := Paused;
      ops := ops + [SendReconfigure];
      ops := ops + [SetState(Playing)];
      if !playOk {
        return Panic(UNWRAP_PANIC);
      }
      state := Playing;
      r := Ok;
    }

    /** `start` and `stop`: a transition of the whole pipeline, which has no
        effect when the pipeline is already there. */
    method ChangeState(target: GstState, ok: bool) returns (success: bool)
      modifies this
      ensures success == ok
      ensures state == (if ok then target else old(state))
      ensures ops == old(ops) + [SetState(target)]
      ensures cameraCaps == old(cameraCaps) && overlayCaps == old(overlayCaps)
      ensures mixerSink1 == old(mixerSink1) && documents == old(documents) && RecordingUnchanged()
    {
      ops := ops + [SetState(target)];
      if ok {
        state := target;
      }
      success := ok;
    }

    /** `update_overlay`: renders the template and loads the document into
        `wpesrc`. An unknown key or a failed emission is the panic of its
        `unwrap`. */
    method UpdateOverlay(html: string, css: string, emitOk: bool) returns (r: Status)
      modifies this
      ensures Overlay.Render(html, css, assets).Failure? ==> r == Panic(UNWRAP_PANIC) && documents == old(documents)
      ensures Overlay.Render(html, css, assets).Success? && !emitOk ==>
        r == Panic(UNWRAP_PANIC) && documents == old(documents)
      ensures Overlay.Render(html, css, assets).Success? && emitOk ==>
        r == Ok && documents == old(documents) + [Overlay.Render(html, css, assets).value]
      ensures state == old(state) && ops == old(ops) && cameraCaps == old(cameraCaps)
      ensures overlayCaps == old(overlayCaps) && mixerSink1 == old(mixerSink1) && RecordingUnchanged()
    {
      var data := Overlay.Render(html, css, assets);
      if data.Failure? {
        return Panic(UNWRAP_PANIC);
      }
      if !emitOk {
        return Panic(UNWRAP_PANIC);
      }
      documents := documents + [data.value];
      r := Ok;
    }

    /** `start_recording` as written. */
    method StartRecordingAsWritten(settings: Settings, env: StartEnv) returns (r: Status)
      modifies this
      ensures StartOutcome(r, Recorder()) == Start(old(Recorder()), settings.rtmpLocation, env, false)
      ensures MainUnchanged()
    {
      r := Attach(settings, env, false);
    }

    /** `start_recording` with the bin removed again when it does not reach
        Playing. */
    method StartRecording(settings: Settings, env: StartEnv) returns (r: Status)
      modifies this
      ensures StartOutcome(r, Recorder()) == Start(old(Recorder()), settings.rtmpLocation, env, true)
      ensures MainUnchanged()
    {
      r := Attach(settings, env, true);
    }

    /** The steps of `start_recording`, one slot and one graph change at a
        time. */
    method Attach(settings: Settings, env: StartEnv, undoOnStartFailure: bool) returns (r: Status)
      modifies this
      ensures StartOutcome(r, Recorder()) == Start(old(Recorder()), settings.rtmpLocation, env, undoOnStartFailure)
      ensures MainUnchanged()
    {
      if settings.rtmpLocation.None? {
        return Err(NO_LOCATION_ERROR);
      }
      if env.parseError.Some? {
        return Err("Failed to create recording pipeline: " + env.parseError.value);
      }
      if env.setNameError.Some? {
        return Err("Failed to set recording bin name: " + env.setNameError.value);
      }
      if graph.child.Some? {
        return Panic(ADD_BIN_PANIC);
      }
      var bin := NextBin(graph);
      graph := Add(graph, bin);
      var srcpad := NextPad(graph, VideoTee);
      graph := Request(graph, VideoTee);
      recordingVideoPad := Some(srcpad);
      if env.videoGhostOk {
        if env.videoLinkError.Some? {
          graph := Remove(graph, bin);
          graph := SetBinState(graph, bin, Null);
          return Err("Failed to link recording bin video branch: " + env.videoLinkError.value);
        }
        graph := LinkTo(graph, srcpad, bin, VideoEntry);
      }
      var audioSrcpad := NextPad(graph, AudioTee);
      graph := Request(graph, AudioTee);
      recordingAudioPad := Some(audioSrcpad);
      if env.audioGhostOk {
        if env.audioLinkError.Some? {
          graph := Remove(graph, bin);
          graph := SetBinState(graph, bin, Null);
          return Err("Failed to link recording bin audio branch: " + env.audioLinkError.value);
        }
        graph := LinkTo(graph, audioSrcpad, bin, AudioEntry);
      }
      if !env.playingOk {
        if undoOnStartFailure {
          graph := Remove(graph, bin);
          graph := SetBinState(graph, bin, Null);
        }
        return Err(START_ERROR);
      }
      graph := SetBinState(graph, bin, Playing);
      recordingBin := Some(bin);
      r := Ok;
    }

    /** `stop_recording`: takes the slots one by one and probes each pad. */
    method StopRecording()
      modifies this
      ensures Recorder() == Stop(old(Recorder()))
      ensures MainUnchanged()
    {
      if recordingBin.None? {
        return;
      }
      var bin := recordingBin.value;
      recordingBin := None;
      if recordingAudioPad.None? {
        return;
      }
      var audioSrcpad := recordingAudioPad.value;
      recordingAudioPad := None;
      if recordingVideoPad.None? {
        return;
      }
      var videoSrcpad := recordingVideoPad.value;
      recordingVideoPad := None;
      graph := graph.(probes := graph.probes + {IdleProbe(videoSrcpad, bin)});
      graph := graph.(probes := graph.probes + {IdleProbe(audioSrcpad, bin)});
    }

    /** The streaming thread running an installed idle probe. */
    method FireProbe(pr: Probe) returns (ret: ProbeReturn)
      requires pr in graph.probes
      modifies this
      ensures FireOutcome(ret, Recorder()) == Fire(old(Recorder()), pr)
      ensures MainUnchanged()
    {
      if pr.pad !in graph.requested {
        return ProbeOk;
      }
      graph := Release(graph, pr.pad);
      graph := graph.(tasks := graph.tasks + [RemoveRecordingBin(pr.bin)]);
      graph := graph.(probes := graph.probes - {pr});
      ret := ProbeRemove;
    }

    /** The oldest queued teardown task running, as written: by name. */
    method RunTaskAsWritten(nullError: Option<string>)
      requires graph.tasks != []
      modifies this
      ensures Recorder() == Recording.RunTaskAsWritten(old(Recorder()), nullError)
      ensures MainUnchanged()
    {
      graph := graph.(tasks := graph.tasks[1..]);
      if graph.child.None? {
        return;
      }
      graph := Teardown(graph, graph.child.value, nullError);
    }

    /** The oldest queued teardown task running, for its own bin only. */
    method RunTask(nullError: Option<string>)
      requires graph.tasks != []
      modifies this
      ensures Recorder() == Recording.RunTask(old(Recorder()), nullError)
      ensures MainUnchanged()
    {
      var bin := graph.tasks[0].queuedFor;
      graph := graph.(tasks := graph.tasks[1..]);
      if graph.child != Some(bin) {
        return;
      }
      graph := Teardown(graph, bin, nullError);
    }

    /** The bus watch: `on_pipeline_message` for one message. */
    method OnPipelineMessage(msg: Message, dialogs: Utils.Dialogs) returns (r: Reaction)
      modifies dialogs, vumeter
      ensures r == Dispatch(msg)
      ensures r.ShowDialog? ==> dialogs.shown == old(dialogs.shown) + [Utils.ErrorDialog(r.fatal, r.text)]
      ensures !r.ShowDialog? ==> dialogs.shown == old(dialogs.shown)
      ensures r.UpdateLevels? ==>
        && vumeter.data == Some(VuMeter.LevelData(r.rms, r.peak, r.decay))
        && vumeter.redrawRequests == old(vumeter.redrawRequests) + 1
      ensures !r.UpdateLevels? ==> vumeter.data == old(vumeter.data) && vumeter.redrawRequests == old(vumeter.redrawRequests)
      ensures vumeter.cachedHeight == old(vumeter.cachedHeight) && vumeter.bgGradient == old(vumeter.bgGradient)
      ensures vumeter.rmsGradient == old(vumeter.rmsGradient) && vumeter.peakGradient == old(vumeter.peakGradient)
      ensures vumeter.decayGradient == old(vumeter.decayGradient)
    {
      r := Dispatch(msg);
      match r
      case ShowDialog(fatal, text) =>
        dialogs.ShowErrorDialog(fatal, text);
      case UpdateLevels(rms, peak, decay) =>
        vumeter.Update(rms, peak, decay);
      case _ =>
    }

    /** The bus watch taking the oldest message the application posted. */
    method DeliverPosted(dialogs: Utils.Dialogs) returns (r: Option<Reaction>)
      modifies this, dialogs, vumeter
      ensures old(graph.bus) == [] ==> r.None? && graph == old(graph) && dialogs.shown == old(dialogs.shown)
      ensures old(graph.bus) != [] ==>
        r == Some(Dispatch(old(graph.bus[0]))) && graph == old(graph).(bus := old(graph.bus[1..]))
      ensures r.Some? && r.value.ShowDialog? ==>
        dialogs.shown == old(dialogs.shown) + [Utils.ErrorDialog(r.value.fatal, r.value.text)]
      ensures recordingBin == old(recordingBin)
      ensures recordingAudioPad == old(recordingAudioPad) && recordingVideoPad == old(recordingVideoPad)
      ensures MainUnchanged()
    {
      if graph.bus == [] {
        return None;
      }
      var msg := graph.bus[0];
      graph := graph.(bus := graph.bus[1..]);
      var reaction := OnPipelineMessage(msg, dialogs);
      r := Some(reaction);
    }
  }

  /** `Pipeline::new`: the pipeline for the loaded settings, with the
      bundled `html` and `css` rendered and loaded into `wpesrc`. An
      unknown key or a failed emission is the panic of its `unwrap`, and no
      pipeline is returned. */
  method New(settings: Settings, assets: Overlay.Assets, vumeter: VuMeter.VuMeter, html: string, css: string, emitOk: bool)
    returns (r: Status, p: Pipeline?)
    ensures var doc := Overlay.Render(html, css, assets);
      && (r == Ok <==> doc.Success? && emitOk)
      && (r != Ok ==> r == Panic(UNWRAP_PANIC) && p == null)
      && (r == Ok ==>
            && p != null && fresh(p) && p.documents == [doc.value]
            && p.state == Null && p.ops == [] && p.Recorder() == IDLE
            && p.cameraCaps == CameraCapsFor(settings.videoResolution)
            && p.overlayCaps == OverlayCapsFor(settings.videoResolution)
            && p.mixerSink1 == Some(Dimensions(settings.videoResolution))
            && p.assets == assets && p.vumeter == vumeter)
  {
    p := new Pipeline(settings, assets, vumeter);
    r := p.UpdateOverlay(html, css, emitOk);
    if r != Ok {
      p := null;
    }
  }
}
