/** The recording branch of `src/pipeline.rs` as values: the part of the
    GStreamer graph that `start_recording`, `stop_recording`, the idle probes
    and the deferred teardown tasks touch, together with the three slots of
    the pipeline struct. Each operation is a function from the state before
    to the state after; the `Pipeline` class performs the same steps on its
    fields. Probe firing and task execution are separate steps that the
    environment may interleave with anything else. */
module Recording {
  import opened Wrappers
  import opened Messages

  /** The two tees the recording bin is fed from: `tee` (video) and
      `audio-tee`. */
  datatype Tee = VideoTee | AudioTee

  /** The ghost pads of the recording bin, `video_sink` and `audio_sink`. */
  datatype Entry = VideoEntry | AudioEntry

  /** A request pad of a tee. Identities are never reused. */
  datatype Pad = Pad(id: nat, tee: Tee)

  /** A recording bin. Every one is named `recording-bin`. */
  datatype Bin = Bin(id: nat)

  /** A tee pad linked to a ghost pad of a bin. */
  datatype Link = Link(src: Pad, bin: Bin, entry: Entry)

  /** An installed idle probe on a tee pad, for the bin being stopped. */
  datatype Probe = IdleProbe(pad: Pad, bin: Bin)

  /** A closure queued with `call_async`; it remembers the bin its probe was
      installed for, which the code as written does not use. */
  datatype Task = RemoveRecordingBin(queuedFor: Bin)

  datatype ProbeReturn = ProbeOk | ProbeRemove

  /** What of the graph the recording branch touches. `child` is the
      pipeline's child named `recording-bin`: element names are unique
      inside a bin, so there is at most one. `bus` holds the messages the
      application posted itself and that are not yet dispatched. */
  datatype Graph = Graph(
    child: Option<Bin>,
    binStates: map<Bin, GstState>,
    requested: set<Pad>,
    releases: seq<Pad>,
    links: set<Link>,
    probes: set<Probe>,
    tasks: seq<Task>,
    bus: seq<Message>,
    nextId: nat)

  /** The graph together with the `recording_bin`, `recording_audio_pad` and
      `recording_video_pad` slots. */
  datatype Recorder = Recorder(graph: Graph, bin: Option<Bin>, audioPad: Option<Pad>, videoPad: Option<Pad>)

  /** The outcome of an abstract GStreamer call that `start_recording`
      makes and that may fail: parsing the bin description, naming the bin,
      creating each ghost pad, linking each tee pad, and the transition to
      Playing. */
  datatype StartEnv = StartEnv(
    parseError: Option<string>,
    setNameError: Option<string>,
    videoGhostOk: bool,
    videoLinkError: Option<string>,
    audioGhostOk: bool,
    audioLinkError: Option<string>,
    playingOk: bool)

  datatype StartOutcome = StartOutcome(status: Status, after: Recorder)
  datatype FireOutcome = FireOutcome(ret: ProbeReturn, after: Recorder)

  const NO_LOCATION_ERROR: string := "Please set the RTMP end-point URL in the settings"
  const START_ERROR: string := "Failed to start recording"
  const ADD_BIN_PANIC: string := "Failed to add recording bin"

  const EMPTY_GRAPH: Graph := Graph(None, map[], {}, [], {}, {}, [], [], 0)
  const IDLE: Recorder := Recorder(EMPTY_GRAPH, None, None, None)

  // ---- Graph operations -------------------------------------------------

  /** The bin the next parse creates. */
  function NextBin(g: Graph): Bin {
    Bin(g.nextId)
  }

  /** Adding the freshly parsed bin as the pipeline's `recording-bin`. */
  function Add(g: Graph, b: Bin): Graph {
    g.(child := Some(b), binStates := g.binStates[b := Null], nextId := g.nextId + 1)
  }

  /** Removing a bin from the pipeline, which unlinks its ghost pads. */
  function Remove(g: Graph, b: Bin): Graph {
    g.(child := if g.child == Some(b) then None else g.child,
       links := set l | l in g.links && l.bin != b)
  }

  function SetBinState(g: Graph, b: Bin, s: GstState): Graph {
    g.(binStates := g.binStates[b := s])
  }

  /** The pad the next `get_request_pad("src_%u")` on a tee gives. */
  function NextPad(g: Graph, tee: Tee): Pad {
    Pad(g.nextId, tee)
  }

  function Request(g: Graph, tee: Tee): Graph {
    g.(requested := g.requested + {NextPad(g, tee)}, nextId := g.nextId + 1)
  }

  function LinkTo(g: Graph, p: Pad, b: Bin, e: Entry): Graph {
    g.(links := g.links + {Link(p, b, e)})
  }

  /** `release_request_pad`, which also unlinks the pad. */
  function Release(g: Graph, p: Pad): Graph {
    g.(requested := g.requested - {p},
       releases := g.releases + [p],
       links := set l | l in g.links && l.src != p)
  }

  // ---- Invariant --------------------------------------------------------

  /** Identities below `nextId` are the ones handed out so far. */
  ghost predicate Issued(g: Graph) {
    && (g.child.Some? ==> g.child.value.id < g.nextId && g.child.value in g.binStates)
    && (forall p :: p in g.requested ==> p.id < g.nextId)
    && (forall i :: 0 <= i < |g.releases| ==> g.releases[i].id < g.nextId)
    && (forall pr :: pr in g.probes ==> pr.bin.id < g.nextId)
    && (forall i :: 0 <= i < |g.tasks| ==> g.tasks[i].queuedFor.id < g.nextId)
  }

  /** What holds of the recording branch in every reachable state: a pad is
      released at most once and only after it was requested; links run from
      requested pads to the current `recording-bin`; each pad carries at
      most one probe, and pads in the slots none; a set `recording_bin`
      comes with both pad slots set, and no probe or task refers to it. */
  ghost predicate Valid(s: Recorder) {
    var g := s.graph;
    && Issued(g)
    && (forall i :: 0 <= i < |g.releases| ==> g.releases[i] !in g.requested)
    && (forall i, j :: 0 <= i < j < |g.releases| ==> g.releases[i] != g.releases[j])
    && (forall l :: l in g.links ==> l.src in g.requested && g.child == Some(l.bin))
    && (forall pr :: pr in g.probes ==> pr.pad in g.requested)
    && (forall pr, pr' :: pr in g.probes && pr' in g.probes && pr.pad == pr'.pad ==> pr == pr')
    && (s.videoPad.Some? ==> s.videoPad.value in g.requested && s.videoPad.value.tee == VideoTee)
    && (s.audioPad.Some? ==> s.audioPad.value in g.requested && s.audioPad.value.tee == AudioTee)
    && (forall pr :: pr in g.probes ==> Some(pr.pad) != s.videoPad && Some(pr.pad) != s.audioPad)
    && (s.bin.Some? ==>
          && s.videoPad.Some? && s.audioPad.Some?
          && s.bin.value.id < g.nextId
          && (forall pr :: pr in g.probes ==> pr.bin != s.bin.value)
          && (forall i :: 0 <= i < |g.tasks| ==> g.tasks[i].queuedFor != s.bin.value))
  }

  /** The bin in the `recording_bin` slot is the pipeline's `recording-bin`. */
  ghost predicate Attached(s: Recorder) {
    s.bin.Some? ==> s.graph.child == s.bin
  }

  lemma IdleIsValid()
    ensures Valid(IDLE) && Attached(IDLE)
  {
  }

  // ---- start_recording --------------------------------------------------

  /** Whether `start_recording` gets past the checks before the bin is
      added. */
  predicate Prepared(s: Recorder, location: Option<string>, env: StartEnv) {
    location.Some? && env.parseError.None? && env.setNameError.None? && s.graph.child.None?
  }

  predicate VideoLinkFails(env: StartEnv) {
    env.videoGhostOk && env.videoLinkError.Some?
  }

  predicate AudioLinkFails(env: StartEnv) {
    env.audioGhostOk && env.audioLinkError.Some?
  }

  /** `start_recording` with the configured location. With
      `undoOnStartFailure` false this is the code as written, which leaves
      the bin in the pipeline when it does not reach Playing; with it true,
      that path undoes the addition as the two link-failure paths do. */
  function Start(s: Recorder, location: Option<string>, env: StartEnv, undoOnStartFailure: bool): (o: StartOutcome)
    ensures location.None? ==> o == StartOutcome(Err(NO_LOCATION_ERROR), s)
    ensures o.status.Panic? <==> location.Some? && env.parseError.None? && env.setNameError.None? && s.graph.child.Some?
    ensures o.status.Panic? ==> o.after == s
    ensures o.status.Ok? <==>
      Prepared(s, location, env) && !VideoLinkFails(env) && !AudioLinkFails(env) && env.playingOk
    ensures o.status.Ok? ==>
      var b := NextBin(s.graph);
      && o.after.bin == Some(b) && o.after.graph.child == Some(b) && b in o.after.graph.binStates && o.after.graph.binStates[b] == Playing
      && o.after.videoPad.Some? && o.after.audioPad.Some?
      && o.after.graph.requested == s.graph.requested + {o.after.videoPad.value, o.after.audioPad.value}
      && (env.videoGhostOk ==> Link(o.after.videoPad.value, b, VideoEntry) in o.after.graph.links)
      && (env.audioGhostOk ==> Link(o.after.audioPad.value, b, AudioEntry) in o.after.graph.links)
    ensures !o.status.Ok? ==> o.after.bin == s.bin
    ensures o.status.Err? && Prepared(s, location, env) && (undoOnStartFailure || VideoLinkFails(env) || AudioLinkFails(env)) ==>
      && o.after.graph.child == s.graph.child && o.after.graph.links <= s.graph.links
      && NextBin(s.graph) in o.after.graph.binStates && o.after.graph.binStates[NextBin(s.graph)] == Null
    ensures o.status.Err? && Prepared(s, location, env) && !undoOnStartFailure && !VideoLinkFails(env) && !AudioLinkFails(env) ==>
      o.after.graph.child == Some(NextBin(s.graph))
    ensures s.graph.requested <= o.after.graph.requested
    ensures o.after.graph.releases == s.graph.releases && o.after.graph.probes == s.graph.probes
    ensures o.after.graph.tasks == s.graph.tasks && o.after.graph.bus == s.graph.bus
  {
    if location.None? then StartOutcome(Err(NO_LOCATION_ERROR), s)
    else if env.parseError.Some? then
      StartOutcome(Err("Failed to create recording pipeline: " + env.parseError.value), s)
    else if env.setNameError.Some? then
      StartOutcome(Err("Failed to set recording bin name: " + env.setNameError.value), s)
    else if s.graph.child.Some? then StartOutcome(Panic(ADD_BIN_PANIC), s)
    else
      var b := NextBin(s.graph);
      var g1 := Add(s.graph, b);
      var vp := NextPad(g1, VideoTee);
      var g2 := Request(g1, VideoTee);
      if VideoLinkFails(env) then
        StartOutcome(Err("Failed to link recording bin video branch: " + env.videoLinkError.value),
          Recorder(SetBinState(Remove(g2, b), b, Null), s.bin, s.audioPad, Some(vp)))
      else
        var g3 := if env.videoGhostOk then LinkTo(g2, vp, b, VideoEntry) else g2;
        var ap := NextPad(g3, AudioTee);
        var g4 := Request(g3, AudioTee);
        if AudioLinkFails(env) then
          StartOutcome(Err("Failed to link recording bin audio branch: " + env.audioLinkError.value),
            Recorder(SetBinState(Remove(g4, b), b, Null), s.bin, Some(ap), Some(vp)))
        else
          var g5 := if env.audioGhostOk then LinkTo(g4, ap, b, AudioEntry) else g4;
          if !env.playingOk then
            StartOutcome(Err(START_ERROR),
              Recorder(if undoOnStartFailure then SetBinState(Remove(g5, b), b, Null) else g5, s.bin, Some(ap), Some(vp)))
          else
            StartOutcome(Ok, Recorder(SetBinState(g5, b, Playing), Some(b), Some(ap), Some(vp)))
  }

  /** The bin and the two pads a start creates are new: nothing in a valid
      state refers to them, and the state has no links (there is no
      `recording-bin` child). */
  lemma StartCreatesFresh(s: Recorder, location: Option<string>, env: StartEnv)
    requires Valid(s) && Prepared(s, location, env)
    ensures var g, b := s.graph, NextBin(s.graph);
      var vp, ap := Pad(g.nextId + 1, VideoTee), Pad(g.nextId + 2, AudioTee);
      && vp !in g.requested && ap !in g.requested
      && (forall pr :: pr in g.probes ==> pr.pad != vp && pr.pad != ap && pr.bin != b)
      && (forall i :: 0 <= i < |g.tasks| ==> g.tasks[i].queuedFor != b)
      && g.links == {}
      && (forall i :: 0 <= i < |g.releases| ==> g.releases[i] != vp && g.releases[i] != ap)
  {
    var g := s.graph;
    assert forall l :: l in g.links ==> false;
  }

  /** A state that only adds new requested pads, links into the child and
      fresh pads in the slots keeps the invariant. */
  lemma ExtensionKeepsValid(s: Recorder, t: Recorder, added: set<Pad>)
    requires Valid(s)
    requires s.graph.nextId <= t.graph.nextId
    requires forall p :: p in added ==> s.graph.nextId <= p.id < t.graph.nextId
    requires t.graph.requested == s.graph.requested + added
    requires t.graph.releases == s.graph.releases && t.graph.probes == s.graph.probes && t.graph.tasks == s.graph.tasks
    requires t.graph.child.Some? ==> t.graph.child.value.id < t.graph.nextId && t.graph.child.value in t.graph.binStates
    requires forall l :: l in t.graph.links ==> l.src in t.graph.requested && t.graph.child == Some(l.bin)
    requires t.videoPad.Some? ==> t.videoPad.value in t.graph.requested && t.videoPad.value.tee == VideoTee
    requires t.audioPad.Some? ==> t.audioPad.value in t.graph.requested && t.audioPad.value.tee == AudioTee
    requires t.videoPad.Some? ==> t.videoPad == s.videoPad || t.videoPad.value in added
    requires t.audioPad.Some? ==> t.audioPad == s.audioPad || t.audioPad.value in added
    requires t.bin.Some? ==> t.bin == s.bin || t.bin.value.id >= s.graph.nextId
    requires t.bin.Some? ==> t.videoPad.Some? && t.audioPad.Some? && t.bin.value.id < t.graph.nextId
    ensures Valid(t)
  {
  }

  /** What a start whose video link fails leaves behind: the new video pad
      requested and in its slot, and the new bin removed with its links and
      set to Null. */
  lemma VideoFailureShape(s: Recorder, location: Option<string>, env: StartEnv, undo: bool)
    requires Prepared(s, location, env) && VideoLinkFails(env)
    ensures var g, t := s.graph, Start(s, location, env, undo).after;
      var vp := Pad(g.nextId + 1, VideoTee);
      && t.graph.requested == g.requested + {vp} && t.graph.nextId == g.nextId + 2
      && t.graph.releases == g.releases && t.graph.probes == g.probes && t.graph.tasks == g.tasks
      && t.graph.child.None? && (forall l :: l in t.graph.links ==> l in g.links)
      && t.videoPad == Some(vp) && t.audioPad == s.audioPad && t.bin == s.bin
      && NextBin(g) in t.graph.binStates && t.graph.binStates[NextBin(g)] == Null
  {
  }

  /** A state that adds the new video pad to a valid state without a
      `recording-bin` child is valid. */
  lemma VideoFailureShapeValid(s: Recorder, t: Recorder)
    requires Valid(s) && s.graph.child.None?
    requires var g := s.graph;
      var vp := Pad(g.nextId + 1, VideoTee);
      && t.graph.requested == g.requested + {vp} && t.graph.nextId == g.nextId + 2
      && t.graph.releases == g.releases && t.graph.probes == g.probes && t.graph.tasks == g.tasks
      && t.graph.child.None? && (forall l :: l in t.graph.links ==> l in g.links)
      && t.videoPad == Some(vp) && t.audioPad == s.audioPad && t.bin == s.bin
    ensures Valid(t) && (Attached(s) ==> Attached(t))
  {
    var g := s.graph;
    assert forall l :: l in g.links ==> false;
    ExtensionKeepsValid(s, t, {Pad(g.nextId + 1, VideoTee)});
  }

  /** What a start leaves behind when it removes its bin again after
      requesting both pads: an audio link failure, or a bin that does not
      reach Playing when that failure is undone. */
  lemma UndoneShape(s: Recorder, location: Option<string>, env: StartEnv, undo: bool)
    requires Prepared(s, location, env) && !VideoLinkFails(env)
    requires AudioLinkFails(env) || (!env.playingOk && undo)
    ensures var g, t := s.graph, Start(s, location, env, undo).after;
      var vp, ap := Pad(g.nextId + 1, VideoTee), Pad(g.nextId + 2, AudioTee);
      && t.graph.requested == g.requested + {vp, ap} && t.graph.nextId == g.nextId + 3
      && t.graph.releases == g.releases && t.graph.probes == g.probes && t.graph.tasks == g.tasks
      && t.graph.child.None? && (forall l :: l in t.graph.links ==> l in g.links)
      && t.videoPad == Some(vp) && t.audioPad == Some(ap) && t.bin == s.bin
      && NextBin(g) in t.graph.binStates && t.graph.binStates[NextBin(g)] == Null
  {
  }

  /** A state that adds the two new pads to a valid state without a
      `recording-bin` child, and keeps its bin slot, is valid. */
  lemma UndoneShapeValid(s: Recorder, t: Recorder)
    requires Valid(s) && s.graph.child.None?
    requires var g := s.graph;
      var vp, ap := Pad(g.nextId + 1, VideoTee), Pad(g.nextId + 2, AudioTee);
      && t.graph.requested == g.requested + {vp, ap} && t.graph.nextId == g.nextId + 3
      && t.graph.releases == g.releases && t.graph.probes == g.probes && t.graph.tasks == g.tasks
      && t.graph.child.None? && (forall l :: l in t.graph.links ==> l in g.links)
      && t.videoPad == Some(vp) && t.audioPad == Some(ap) && t.bin == s.bin
    ensures Valid(t) && (Attached(s) ==> Attached(t))
  {
    var g := s.graph;
    assert forall l :: l in g.links ==> false;
    ExtensionKeepsValid(s, t, {Pad(g.nextId + 1, VideoTee), Pad(g.nextId + 2, AudioTee)});
  }

  /** What a start leaves behind when both branches are linked and the bin
      stays in the pipeline: in the bin slot when it reaches Playing,
      otherwise (as written) only as the pipeline's child. */
  lemma LinkedShape(s: Recorder, location: Option<string>, env: StartEnv, undo: bool)
    requires Prepared(s, location, env) && !VideoLinkFails(env) && !AudioLinkFails(env)
    requires env.playingOk || !undo
    ensures var g, t := s.graph, Start(s, location, env, undo).after;
      var b, vp, ap := Bin(g.nextId), Pad(g.nextId + 1, VideoTee), Pad(g.nextId + 2, AudioTee);
      && t.graph.requested == g.requested + {vp, ap} && t.graph.nextId == g.nextId + 3
      && t.graph.releases == g.releases && t.graph.probes == g.probes && t.graph.tasks == g.tasks
      && t.graph.child == Some(b) && b in t.graph.binStates
      && (forall l :: l in t.graph.links ==> l in g.links || l == Link(vp, b, VideoEntry) || l == Link(ap, b, AudioEntry))
      && t.videoPad == Some(vp) && t.audioPad == Some(ap)
      && t.bin == (if env.playingOk then Some(b) else s.bin)
  {
  }

  /** A state that adds the new bin as the child, with links from the two
      new pads, to a valid state without a child is valid; the bin slot
      keeps its bin or holds the new one. */
  lemma LinkedShapeValid(s: Recorder, t: Recorder)
    requires Valid(s) && s.graph.child.None?
    requires var g := s.graph;
      var b, vp, ap := Bin(g.nextId), Pad(g.nextId + 1, VideoTee), Pad(g.nextId + 2, AudioTee);
      && t.graph.requested == g.requested + {vp, ap} && t.graph.nextId == g.nextId + 3
      && t.graph.releases == g.releases && t.graph.probes == g.probes && t.graph.tasks == g.tasks
      && t.graph.child == Some(b) && b in t.graph.binStates
      && (forall l :: l in t.graph.links ==> l in g.links || l == Link(vp, b, VideoEntry) || l == Link(ap, b, AudioEntry))
      && t.videoPad == Some(vp) && t.audioPad == Some(ap)
      && (t.bin == s.bin || t.bin == Some(b))
    ensures Valid(t)
    ensures t.bin == s.bin && Attached(s) ==> Attached(t)
    ensures t.bin == Some(Bin(s.graph.nextId)) ==> Attached(t)
  {
    var g := s.graph;
    assert forall l :: l in g.links ==> false;
    ExtensionKeepsValid(s, t, {Pad(g.nextId + 1, VideoTee), Pad(g.nextId + 2, AudioTee)});
  }

  /** A start whose video link fails keeps the invariant. */
  lemma StartVideoFailureKeepsValid(s: Recorder, location: Option<string>, env: StartEnv, undo: bool)
    requires Valid(s) && Prepared(s, location, env) && VideoLinkFails(env)
    ensures Valid(Start(s, location, env, undo).after)
    ensures Attached(s) ==> Attached(Start(s, location, env, undo).after)
  {
    VideoFailureShape(s, location, env, undo);
    VideoFailureShapeValid(s, Start(s, location, env, undo).after);
  }

  /** A start that removes its bin again after requesting both pads keeps
      the invariant. */
  lemma StartUndoneKeepsValid(s: Recorder, location: Option<string>, env: StartEnv, undo: bool)
    requires Valid(s) && Prepared(s, location, env) && !VideoLinkFails(env)
    requires AudioLinkFails(env) || (!env.playingOk && undo)
    ensures Valid(Start(s, location, env, undo).after)
    ensures Attached(s) ==> Attached(Start(s, location, env, undo).after)
  {
    UndoneShape(s, location, env, undo);
    UndoneShapeValid(s, Start(s, location, env, undo).after);
  }

  /** A start that leaves its linked bin in the pipeline keeps the
      invariant. */
  lemma StartLinkedKeepsValid(s: Recorder, location: Option<string>, env: StartEnv, undo: bool)
    requires Valid(s) && Prepared(s, location, env) && !VideoLinkFails(env) && !AudioLinkFails(env)
    requires env.playingOk || !undo
    ensures Valid(Start(s, location, env, undo).after)
    ensures Attached(s) ==> Attached(Start(s, location, env, undo).after)
  {
    LinkedShape(s, location, env, undo);
    LinkedShapeValid(s, Start(s, location, env, undo).after);
  }

  /** `start_recording` keeps the invariant, and keeps the slot bin attached
      to the pipeline. */
  lemma StartKeepsValid(s: Recorder, location: Option<string>, env: StartEnv, undo: bool)
    requires Valid(s)
    ensures Valid(Start(s, location, env, undo).after)
    ensures Attached(s) ==> Attached(Start(s, location, env, undo).after)
    ensures var o := Start(s, location, env, undo);
      o.status.Ok? ==>
        (o.after.videoPad.value !in s.graph.requested && o.after.audioPad.value !in s.graph.requested
         && o.after.videoPad != o.after.audioPad)
  {
    if Prepared(s, location, env) {
      StartCreatesFresh(s, location, env);
      if VideoLinkFails(env) {
        StartVideoFailureKeepsValid(s, location, env, undo);
      } else if AudioLinkFails(env) || (!env.playingOk && undo) {
        StartUndoneKeepsValid(s, location, env, undo);
      } else {
        StartLinkedKeepsValid(s, location, env, undo);
      }
    }
  }

  /** Starting from the idle state with every call succeeding records. */
  lemma StartFromIdle(location: string, env: StartEnv, undo: bool)
    requires env.parseError.None? && env.setNameError.None? && env.playingOk
    requires !VideoLinkFails(env) && !AudioLinkFails(env)
    ensures var o := Start(IDLE, Some(location), env, undo);
      o.status == Ok && o.after.bin == Some(Bin(0)) && o.after.videoPad == Some(Pad(1, VideoTee))
      && o.after.audioPad == Some(Pad(2, AudioTee))
  {
  }

  // ---- stop_recording ---------------------------------------------------

  /** `stop_recording`: takes the three slots and installs an idle probe on
      each tee pad. */
  function Stop(s: Recorder): (t: Recorder)
    ensures s.bin.None? ==> t == s
    ensures s.bin.Some? ==> t.bin.None? && t.graph.child == s.graph.child && t.graph.requested == s.graph.requested
    ensures s.bin.Some? && s.audioPad.Some? && s.videoPad.Some? ==>
      && t.audioPad.None? && t.videoPad.None?
      && t.graph == s.graph.(probes := s.graph.probes + {IdleProbe(s.videoPad.value, s.bin.value), IdleProbe(s.audioPad.value, s.bin.value)})
  {
    match s.bin
    case None => s
    case Some(b) =>
      match s.audioPad
      case None => s.(bin := None)
      case Some(ap) =>
        match s.videoPad
        case None => s.(bin := None, audioPad := None)
        case Some(vp) =>
          Recorder(s.graph.(probes := s.graph.probes + {IdleProbe(vp, b)} + {IdleProbe(ap, b)}), None, None, None)
  }

  /** After `stop_recording` the bin slot is empty, and both pad slots too
      when a bin was recorded; a pad left in its slot by a failed start
      stays there. */
  lemma StopEmptiesSlots(s: Recorder)
    requires Valid(s)
    ensures var t := Stop(s); t.bin.None? && (s.bin.Some? ==> t.audioPad.None? && t.videoPad.None?)
    ensures s.bin.None? ==> Stop(s) == s
  {
  }

  lemma StopKeepsValid(s: Recorder)
    requires Valid(s)
    ensures Valid(Stop(s)) && Attached(Stop(s))
  {
    if s.bin.Some? {
      var t := Stop(s);
      var vp, ap, b := s.videoPad.value, s.audioPad.value, s.bin.value;
      assert vp != ap;
      forall pr, pr' | pr in t.graph.probes && pr' in t.graph.probes && pr.pad == pr'.pad
        ensures pr == pr'
      {
      }
    }
  }

  /** A second `stop_recording` changes nothing. */
  lemma StopIdempotent(s: Recorder)
    requires Valid(s)
    ensures Stop(Stop(s)) == Stop(s)
  {
  }

  // ---- The idle probe ---------------------------------------------------

  /** An idle probe firing: while the pad still belongs to its tee, it is
      released (which unlinks it), a teardown task is queued and the probe
      asks to be removed; a pad that no longer has a parent leaves the probe
      in place. The `unlink` of the inner queue's pad is a no-op, since the
      tee pad is linked to the ghost pad. */
  function Fire(s: Recorder, pr: Probe): (o: FireOutcome)
    requires pr in s.graph.probes
    ensures pr.pad in s.graph.requested ==>
      && o.ret == ProbeRemove
      && o.after.graph.probes == s.graph.probes - {pr}
      && o.after.graph.requested == s.graph.requested - {pr.pad}
      && o.after.graph.releases == s.graph.releases + [pr.pad]
      && o.after.graph.tasks == s.graph.tasks + [RemoveRecordingBin(pr.bin)]
      && (forall l :: l in o.after.graph.links <==> l in s.graph.links && l.src != pr.pad)
    ensures pr.pad !in s.graph.requested ==> o == FireOutcome(ProbeOk, s)
    ensures o.after.bin == s.bin && o.after.audioPad == s.audioPad && o.after.videoPad == s.videoPad
    ensures o.after.graph.child == s.graph.child
    ensures o.after.graph.binStates == s.graph.binStates && o.after.graph.bus == s.graph.bus
    ensures o.after.graph.nextId == s.graph.nextId
  {
    if pr.pad in s.graph.requested then
      var g := Release(s.graph, pr.pad);
      FireOutcome(ProbeRemove, s.(graph := g.(probes := g.probes - {pr}, tasks := g.tasks + [RemoveRecordingBin(pr.bin)])))
    else FireOutcome(ProbeOk, s)
  }

  /** A probe fires at most once, and its pad is released exactly once: it
      was never released before, and afterwards it is no longer requested,
      so nothing can release it again. */
  lemma FireReleasesOnce(s: Recorder, pr: Probe)
    requires Valid(s) && pr in s.graph.probes
    ensures var o := Fire(s, pr);
      && o.ret == ProbeRemove
      && pr.pad !in s.graph.releases
      && pr.pad !in o.after.graph.requested
      && (forall pr' :: pr' in o.after.graph.probes ==> pr'.pad != pr.pad)
      && Valid(o.after)
      && (Attached(s) ==> Attached(o.after))
  {
    var o := Fire(s, pr);
    var g, h := s.graph, o.after.graph;
    assert forall i :: 0 <= i < |g.releases| ==> g.releases[i] != pr.pad;
    forall i, j | 0 <= i < j < |h.releases|
      ensures h.releases[i] != h.releases[j]
    {
      if j == |g.releases| {
        assert h.releases[j] == pr.pad;
      }
    }
  }

  // ---- The deferred teardown task ---------------------------------------

  /** The queued closure as written: it removes whatever child is named
      `recording-bin` and sets it to Null; when that transition fails it
      posts a warning message. */
  function RunTaskAsWritten(s: Recorder, nullError: Option<string>): (t: Recorder)
    requires s.graph.tasks != []
    ensures t.bin == s.bin && t.audioPad == s.audioPad && t.videoPad == s.videoPad
    ensures t.graph.tasks == s.graph.tasks[1..]
    ensures t.graph.child.None?
    ensures s.graph.child.None? ==> t.graph == s.graph.(tasks := s.graph.tasks[1..])
  {
    var g := s.graph.(tasks := s.graph.tasks[1..]);
    match g.child
    case None => s.(graph := g)
    case Some(b) => s.(graph := Teardown(g, b, nullError))
  }

  /** Removing `b` and setting it to Null, or posting the warning. */
  function Teardown(g: Graph, b: Bin, nullError: Option<string>): (h: Graph)
    ensures h.child == (if g.child == Some(b) then None else g.child)
    ensures h.requested == g.requested && h.releases == g.releases && h.probes == g.probes && h.tasks == g.tasks
    ensures nullError.None? ==> h.binStates == g.binStates[b := Null] && h.bus == g.bus
    ensures nullError.Some? ==>
      h.binStates == g.binStates && h.bus == g.bus + [WarningMessage("Failed to stop recording: " + nullError.value)]
  {
    var removed := Remove(g, b);
    match nullError
    case None => SetBinState(removed, b, Null)
    case Some(e) => removed.(bus := removed.bus + [WarningMessage("Failed to stop recording: " + e)])
  }

  /** The task removing only the bin its probe was installed for, and only
      while that bin is still the pipeline's child. */
  function RunTask(s: Recorder, nullError: Option<string>): (t: Recorder)
    requires s.graph.tasks != []
    ensures t.bin == s.bin && t.audioPad == s.audioPad && t.videoPad == s.videoPad
    ensures t.graph.tasks == s.graph.tasks[1..]
    ensures s.graph.child == Some(s.graph.tasks[0].queuedFor) ==> t.graph.child.None?
    ensures s.graph.child != Some(s.graph.tasks[0].queuedFor) ==> t.graph == s.graph.(tasks := s.graph.tasks[1..])
  {
    var b := s.graph.tasks[0].queuedFor;
    var g := s.graph.(tasks := s.graph.tasks[1..]);
    if g.child == Some(b) then s.(graph := Teardown(g, b, nullError))
    else s.(graph := g)
  }

  lemma RunTaskAsWrittenKeepsValid(s: Recorder, nullError: Option<string>)
    requires Valid(s) && s.graph.tasks != []
    ensures Valid(RunTaskAsWritten(s, nullError))
  {
    var g := s.graph.(tasks := s.graph.tasks[1..]);
    assert forall i :: 0 <= i < |g.tasks| ==> g.tasks[i] in s.graph.tasks;
    if g.child.Some? {
      // The slot bin is not the one removed only when it is detached already.
      TeardownKeepsValidAnyBin(s, g, g.child.value, nullError);
    }
  }

  lemma TeardownKeepsValidAnyBin(s: Recorder, g: Graph, b: Bin, nullError: Option<string>)
    requires Valid(s) && Issued(g)
    requires g.requested == s.graph.requested && g.releases == s.graph.releases && g.probes == s.graph.probes
    requires g.links == s.graph.links && g.child == s.graph.child && g.nextId == s.graph.nextId
    requires forall i :: 0 <= i < |g.tasks| ==> g.tasks[i] in s.graph.tasks
    ensures Valid(s.(graph := Teardown(g, b, nullError)))
  {
  }

  /** The corrected task keeps the invariant and never detaches the bin in
      the `recording_bin` slot: no task is ever queued for that bin. */
  lemma RunTaskKeepsValid(s: Recorder, nullError: Option<string>)
    requires Valid(s) && s.graph.tasks != []
    ensures Valid(RunTask(s, nullError))
    ensures Attached(s) ==> Attached(RunTask(s, nullError))
  {
    var b := s.graph.tasks[0].queuedFor;
    var g := s.graph.(tasks := s.graph.tasks[1..]);
    DroppingATaskKeepsValid(s);
    if g.child == Some(b) {
      TeardownKeepsValidAnyBin(s, g, b, nullError);
      assert RunTask(s, nullError) == s.(graph := Teardown(g, b, nullError));
    } else {
      assert RunTask(s, nullError) == s.(graph := g);
    }
  }

  /** Taking the first task off the queue keeps the invariant. */
  lemma DroppingATaskKeepsValid(s: Recorder)
    requires Valid(s) && s.graph.tasks != []
    ensures Valid(s.(graph := s.graph.(tasks := s.graph.tasks[1..])))
    ensures s.bin.Some? ==> s.graph.tasks[0].queuedFor != s.bin.value
    ensures forall i :: 0 <= i < |s.graph.tasks| - 1 ==> s.graph.tasks[1..][i] in s.graph.tasks
  {
    var ts := s.graph.tasks;
    assert forall i :: 0 <= i < |ts| - 1 ==> ts[1..][i] == ts[i + 1];
  }

  // ---- Whole teardown ----------------------------------------------------

  /** Stopping an attached recording and firing both of its probes, in
      either order: both pads are released once, and two teardown tasks for
      the bin are queued while the bin is still the child. */
  lemma StopThenFireBoth(s: Recorder, videoFirst: bool)
    requires Valid(s) && Attached(s) && s.bin.Some? && s.graph.tasks == []
    ensures
      var b, vp, ap := s.bin.value, s.videoPad.value, s.audioPad.value;
      var t := Stop(s);
      var first := if videoFirst then IdleProbe(vp, b) else IdleProbe(ap, b);
      var second := if videoFirst then IdleProbe(ap, b) else IdleProbe(vp, b);
      first in t.graph.probes &&
      var f1 := Fire(t, first);
      second in f1.after.graph.probes &&
      var u := Fire(f1.after, second);
      && f1.ret == ProbeRemove && u.ret == ProbeRemove
      && u.after.graph.releases == s.graph.releases + [first.pad, second.pad]
      && first.pad != second.pad
      && u.after.graph.requested == s.graph.requested - {vp, ap}
      && u.after.graph.probes == s.graph.probes
      && u.after.graph.child == Some(b) && b in u.after.graph.binStates
      && u.after.graph.tasks == [RemoveRecordingBin(b), RemoveRecordingBin(b)]
      && (forall l :: l in u.after.graph.links ==> l.bin == b)
      && u.after.graph.bus == s.graph.bus
      && u.after.bin.None? && u.after.audioPad.None? && u.after.videoPad.None?
  {
    var b, vp, ap := s.bin.value, s.videoPad.value, s.audioPad.value;
    StopKeepsValid(s);
    var t := Stop(s);
    var first := if videoFirst then IdleProbe(vp, b) else IdleProbe(ap, b);
    var second := if videoFirst then IdleProbe(ap, b) else IdleProbe(vp, b);
    assert first.pad != second.pad && first.pad in t.graph.requested && second.pad in t.graph.requested;
    var f1 := Fire(t, first);
    assert second in f1.after.graph.probes && second.pad in f1.after.graph.requested;
    assert forall l :: l in t.graph.links ==> l.bin == b;
  }

  /** The two queued tasks: the first removes the bin and sets it to Null,
      which drops every link into it; the second finds no `recording-bin`
      and only leaves the queue. */
  lemma TwoTasksTearDown(u: Recorder, b: Bin)
    requires u.graph.child == Some(b) && b in u.graph.binStates
    requires u.graph.tasks == [RemoveRecordingBin(b), RemoveRecordingBin(b)]
    requires forall l :: l in u.graph.links ==> l.bin == b
    ensures
      var r1 := RunTaskAsWritten(u, None);
      var r2 := RunTaskAsWritten(r1, None);
      && r1.graph.binStates[b] == Null
      && r2.graph.child.None? && r2.graph.links == {}
      && r2 == r1.(graph := r1.graph.(tasks := []))
      && r2.graph.requested == u.graph.requested && r2.graph.releases == u.graph.releases
      && r2.graph.probes == u.graph.probes && r2.graph.bus == u.graph.bus
      && r2.bin == u.bin && r2.audioPad == u.audioPad && r2.videoPad == u.videoPad
  {
    var r1 := RunTaskAsWritten(u, None);
    assert forall l :: l in r1.graph.links ==> l.bin != b;
    assert r1.graph.links == {};
  }

  /** A recording stopped while attached is torn down completely by its two
      probes and two tasks, in either probe order: both tee pads are
      released exactly once, the first task removes the bin and sets it to
      Null, and the second finds no `recording-bin` and does nothing. */
  lemma StopTearsDown(s: Recorder, videoFirst: bool)
    requires Valid(s) && Attached(s) && s.bin.Some? && s.graph.tasks == []
    ensures
      var b, vp, ap := s.bin.value, s.videoPad.value, s.audioPad.value;
      var t := Stop(s);
      var first := if videoFirst then IdleProbe(vp, b) else IdleProbe(ap, b);
      var second := if videoFirst then IdleProbe(ap, b) else IdleProbe(vp, b);
      first in t.graph.probes &&
      var f1 := Fire(t, first);
      second in f1.after.graph.probes &&
      var f2 := Fire(f1.after, second);
      var r1 := RunTaskAsWritten(f2.after, None);
      var r2 := RunTaskAsWritten(r1, None);
      && f1.ret == ProbeRemove && f2.ret == ProbeRemove
      && r2.graph.releases == s.graph.releases + [first.pad, second.pad]
      && first.pad != second.pad
      && r2.graph.requested == s.graph.requested - {vp, ap}
      && r2.graph.probes == s.graph.probes
      && r2.graph.child.None? && r1.graph.binStates[b] == Null
      && r2.graph.links == {}
      && r2.graph.bus == s.graph.bus
      && r2 == r1.(graph := r1.graph.(tasks := []))
      && r2.bin.None? && r2.audioPad.None? && r2.videoPad.None?
  {
    var b, vp, ap := s.bin.value, s.videoPad.value, s.audioPad.value;
    StopThenFireBoth(s, videoFirst);
    var t := Stop(s);
    var first := if videoFirst then IdleProbe(vp, b) else IdleProbe(ap, b);
    var second := if videoFirst then IdleProbe(ap, b) else IdleProbe(vp, b);
    var f1 := Fire(t, first);
    var f2 := Fire(f1.after, second);
    TwoTasksTearDown(f2.after, b);
  }

  // ---- Findings -----------------------------------------------------------

  const GOOD_ENV: StartEnv := StartEnv(None, None, true, None, true, None, true)
  const NOT_PLAYING_ENV: StartEnv := StartEnv(None, None, true, None, true, None, false)

  /** As written, a start whose bin does not reach Playing leaves that bin in
      the pipeline, so the next start panics on adding its own
      `recording-bin`. */
  lemma RetryAfterFailedStartAsWritten(location: string)
    ensures var o1 := Start(IDLE, Some(location), NOT_PLAYING_ENV, false);
      o1.status == Err(START_ERROR) && o1.after.graph.child == Some(Bin(0)) &&
      Start(o1.after, Some(location), GOOD_ENV, false).status == Panic(ADD_BIN_PANIC)
  {
  }

  /** With the failed transition undone, no failed start leaves a bin
      behind, so a retry is never refused for an earlier failed attempt. */
  lemma RetryAfterFailedStart(s: Recorder, location: string, env: StartEnv, retryEnv: StartEnv)
    requires s.graph.child.None?
    requires Start(s, Some(location), env, true).status.Err?
    ensures var o1 := Start(s, Some(location), env, true);
      o1.after.graph.child.None? && !Start(o1.after, Some(location), retryEnv, true).status.Panic?
  {
  }

  /** As written, a task queued by an earlier stop that runs after a new
      start removes the new bin: the `recording_bin` slot is left holding a
      bin that is no longer in the pipeline. */
  lemma StaleTaskAsWritten(location: string)
    ensures
      var s1 := Start(IDLE, Some(location), GOOD_ENV, false).after;
      var s2 := Stop(s1);
      IdleProbe(Pad(1, VideoTee), Bin(0)) in s2.graph.probes &&
      var s3 := Fire(s2, IdleProbe(Pad(1, VideoTee), Bin(0))).after;
      IdleProbe(Pad(2, AudioTee), Bin(0)) in s3.graph.probes &&
      var s4 := Fire(s3, IdleProbe(Pad(2, AudioTee), Bin(0))).after;
      var s5 := RunTaskAsWritten(s4, None);
      var o6 := Start(s5, Some(location), GOOD_ENV, false);
      o6.status == Ok && o6.after.graph.tasks != [] &&
      var s7 := RunTaskAsWritten(o6.after, None);
      Attached(o6.after) && s7.bin == Some(Bin(3)) && s7.graph.child.None? && !Attached(s7)
  {
    var s1 := Start(IDLE, Some(location), GOOD_ENV, false).after;
    assert s1.bin == Some(Bin(0)) && s1.videoPad == Some(Pad(1, VideoTee)) && s1.audioPad == Some(Pad(2, AudioTee));
    var s2 := Stop(s1);
    var s3 := Fire(s2, IdleProbe(Pad(1, VideoTee), Bin(0))).after;
    var s4 := Fire(s3, IdleProbe(Pad(2, AudioTee), Bin(0))).after;
    assert |s4.graph.tasks| == 2;
    var s5 := RunTaskAsWritten(s4, None);
    assert s5.graph.child.None? && |s5.graph.tasks| == 1 && s5.graph.nextId == 3;
  }
}
