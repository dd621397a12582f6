/** The bus messages of `src/pipeline.rs` and the case analysis of
    `on_pipeline_message`, as a function from a message to the effect the
    application makes in response. */
module Messages {
  import opened Wrappers

  /** `gst::State`. */
  datatype GstState = VoidPending | Null | Ready | Paused | Playing

  /** The `{:#?}` spelling of a state. */
  function StateName(s: GstState): string {
    match s
    case VoidPending => "VoidPending"
    case Null => "Null"
    case Ready => "Ready"
    case Paused => "Paused"
    case Playing => "Playing"
  }

  /** The field values a message structure can carry, as far as the
      dispatcher looks at them. */
  datatype Value = Str(text: string) | Double(number: real) | ValueArray(items: seq<Value>) | OtherValue

  datatype Structure = Structure(name: string, fields: map<string, Value>)

  /** The element a message comes from: its path string, whether it is the
      application's pipeline, and whether it is a bin. */
  datatype Origin = Origin(path: string, isPipeline: bool, isBin: bool)

  datatype MessageView =
    | ErrorView(error: string, debug: Option<string>)
    | ApplicationView(structure: Option<Structure>)
    | ElementView(structure: Option<Structure>)
    | StateChangedView(oldState: GstState, current: GstState)
    | AsyncDoneView
    | OtherView

  datatype Message = Message(src: Option<Origin>, view: MessageView)

  /** What the application does with a message: show an error dialog, pass
      levels to the VU meter, write a graph dump (an I/O side effect), do
      nothing, or panic. */
  datatype Reaction =
    | ShowDialog(fatal: bool, text: string)
    | UpdateLevels(rms: seq<real>, peak: seq<real>, decay: seq<real>)
    | DumpGraph(fileName: string)
    | NoReaction
    | Abort(reason: string)

  const WARNING_NAME: string := "warning"
  const TEXT_FIELD: string := "text"
  const LEVEL_NAME: string := "level"
  const NO_TEXT_PANIC: string := "Warning message without text"
  const NO_RMS_PANIC: string := "level message without RMS value"
  const NO_PEAK_PANIC: string := "level message without Peak value"
  const NO_DECAY_PANIC: string := "level message without Decay value"
  const RESULT_UNWRAP_PANIC: string := "called `Result::unwrap()` on an `Err` value"
  const OPTION_UNWRAP_PANIC: string := "called `Option::unwrap()` on a `None` value"
  const ASYNC_DONE_DUMP: string := "gst-wpe-broadcast-demo-async-done"

  /** `create_application_warning_message`. */
  function WarningMessage(text: string): (m: Message)
    ensures m.src.None? && m.view.ApplicationView?
    ensures Named(m, WARNING_NAME) && FieldOf(m, TEXT_FIELD) == Some(Str(text))
  {
    Message(None, ApplicationView(Some(Structure(WARNING_NAME, map[TEXT_FIELD := Str(text)]))))
  }

  /** The structure of an application or element message, if it has one. */
  function StructureOf(msg: Message): Option<Structure> {
    match msg.view
    case ApplicationView(s) => s
    case ElementView(s) => s
    case _ => None
  }

  /** Whether the message carries a structure named `name`. */
  predicate Named(msg: Message, name: string) {
    StructureOf(msg).Some? && StructureOf(msg).value.name == name
  }

  /** The field `key` of the message's structure. */
  function FieldOf(msg: Message, key: string): Option<Value> {
    match StructureOf(msg)
    case Some(s) => if key in s.fields then Some(s.fields[key]) else None
    case None => None
  }

  /** The values of an array that holds only doubles. */
  function Doubles(items: seq<Value>): (ds: Option<seq<real>>)
    ensures ds.Some? <==> forall i :: 0 <= i < |items| ==> items[i].Double?
    ensures ds.Some? ==> |ds.value| == |items| && forall i :: 0 <= i < |items| ==> items[i] == Double(ds.value[i])
  {
    if items == [] then Some([])
    else if !items[0].Double? then None
    else
      match Doubles(items[1..])
      case None => None
      case Some(rest) => Some([items[0].number] + rest)
  }

  /** A sequence of reals as an array value. */
  function AsArray(xs: seq<real>): Value {
    ValueArray(seq(|xs|, i requires 0 <= i < |xs| => Double(xs[i])))
  }

  /** One of the arrays of a `level` message: the `expect` panics when the
      field is missing or not an array, the `unwrap` of an element when it
      is not a double. */
  function LevelField(msg: Message, key: string, missing: string): Result<seq<real>, string> {
    match FieldOf(msg, key)
    case Some(ValueArray(items)) =>
      (match Doubles(items)
       case Some(ds) => Success(ds)
       case None => Failure(RESULT_UNWRAP_PANIC))
    case _ => Failure(missing)
  }

  /** The `{:?}` spelling of an optional string; escaping of special
      characters is not modelled. */
  function DebugOption(s: Option<string>): string {
    match s
    case None => "None"
    case Some(t) => "Some(\"" + t + "\")"
  }

  function ErrorText(msg: Message, error: string, debug: Option<string>): string {
    var path := match msg.src
      case Some(o) => Some(o.path)
      case None => None;
    "Error from " + DebugOption(path) + ": " + error + " (" + DebugOption(debug) + ")"
  }

  /** `on_pipeline_message`. */
  function Dispatch(msg: Message): (r: Reaction)
    ensures (r.ShowDialog? && r.fatal) <==> msg.view.ErrorView?
    ensures (r.ShowDialog? && !r.fatal) ==>
      msg.view.ApplicationView? && Named(msg, WARNING_NAME) && FieldOf(msg, TEXT_FIELD) == Some(Str(r.text))
    ensures msg.view.ApplicationView? && Named(msg, WARNING_NAME) ==>
      match FieldOf(msg, TEXT_FIELD)
      case Some(Str(text)) => r == ShowDialog(false, text)
      case _ => r == Abort(NO_TEXT_PANIC)
    ensures r.UpdateLevels? ==>
      && msg.view.ElementView? && Named(msg, LEVEL_NAME)
      && FieldOf(msg, "rms") == Some(AsArray(r.rms))
      && FieldOf(msg, "peak") == Some(AsArray(r.peak))
      && FieldOf(msg, "decay") == Some(AsArray(r.decay))
    ensures r.DumpGraph? ==> msg.view.StateChangedView? || msg.view.AsyncDoneView?
    ensures msg.view.ErrorView? ==>
      var path := if msg.src.Some? then Some(msg.src.value.path) else None;
      r.text == "Error from " + DebugOption(path) + ": " + msg.view.error + " (" + DebugOption(msg.view.debug) + ")"
    ensures msg.view.StateChangedView? ==>
      if msg.src.Some? && msg.src.value.isPipeline
      then r == DumpGraph("gst-wpe-broadcast-demo-" + StateName(msg.view.oldState) + "_to_" + StateName(msg.view.current))
      else r == NoReaction
    ensures msg.view.AsyncDoneView? ==>
      r == (if msg.src.None? then NoReaction
            else if msg.src.value.isBin then DumpGraph(ASYNC_DONE_DUMP)
            else Abort(OPTION_UNWRAP_PANIC))
    ensures msg.view.OtherView? ==> r == NoReaction
    ensures msg.view.ApplicationView? && !Named(msg, WARNING_NAME) ==> r == NoReaction
    ensures msg.view.ElementView? && !Named(msg, LEVEL_NAME) ==> r == NoReaction
    ensures msg.view.ElementView? && Named(msg, LEVEL_NAME) ==>
      var rms := LevelField(msg, "rms", NO_RMS_PANIC);
      var peak := LevelField(msg, "peak", NO_PEAK_PANIC);
      var decay := LevelField(msg, "decay", NO_DECAY_PANIC);
      r == (if rms.Failure? then Abort(rms.error)
            else if peak.Failure? then Abort(peak.error)
            else if decay.Failure? then Abort(decay.error)
            else UpdateLevels(rms.value, peak.value, decay.value))
  {
    match msg.view
    case ErrorView(error, debug) => ShowDialog(true, ErrorText(msg, error, debug))
    case ApplicationView(_) =>
      if !Named(msg, WARNING_NAME) then NoReaction
      else
        (match FieldOf(msg, TEXT_FIELD)
         case Some(Str(text)) => ShowDialog(false, text)
         case _ => Abort(NO_TEXT_PANIC))
    case ElementView(_) =>
      if !Named(msg, LEVEL_NAME) then NoReaction
      else
        var rms := LevelField(msg, "rms", NO_RMS_PANIC);
        var peak := LevelField(msg, "peak", NO_PEAK_PANIC);
        var decay := LevelField(msg, "decay", NO_DECAY_PANIC);
        if rms.Failure? then Abort(rms.error)
        else if peak.Failure? then Abort(peak.error)
        else if decay.Failure? then Abort(decay.error)
        else
          LevelArrays(msg, "rms", NO_RMS_PANIC, rms.value);
          LevelArrays(msg, "peak", NO_PEAK_PANIC, peak.value);
          LevelArrays(msg, "decay", NO_DECAY_PANIC, decay.value);
          UpdateLevels(rms.value, peak.value, decay.value)
    case StateChangedView(oldState, current) =>
      (match msg.src
       case Some(o) =>
         if o.isPipeline
         then DumpGraph("gst-wpe-broadcast-demo-" + StateName(oldState) + "_to_" + StateName(current))
         else NoReaction
       case None => NoReaction)
    case AsyncDoneView =>
      (match msg.src
       case Some(o) => if o.isBin then DumpGraph(ASYNC_DONE_DUMP) else Abort(OPTION_UNWRAP_PANIC)
       case None => NoReaction)
    case OtherView => NoReaction
  }

  /** A field that `LevelField` reads successfully is exactly the array of
      the values it returns. */
  lemma LevelArrays(msg: Message, key: string, missing: string, xs: seq<real>)
    requires LevelField(msg, key, missing) == Success(xs)
    ensures FieldOf(msg, key) == Some(AsArray(xs))
  {
    var items := FieldOf(msg, key).value.items;
    assert Doubles(items) == Some(xs);
    assert |items| == |xs|;
    assert forall i :: 0 <= i < |xs| ==> items[i] == AsArray(xs).items[i];
    assert items == AsArray(xs).items;
  }

  /** The warning that a failed teardown posts is shown as a non-fatal
      dialog with its text. */
  lemma DispatchWarning(text: string)
    ensures Dispatch(WarningMessage(text)) == ShowDialog(false, text)
  {
    assert FieldOf(WarningMessage(text), TEXT_FIELD) == Some(Str(text));
  }

  /** A `level` message built from three arrays of doubles passes exactly
      those values on. */
  lemma DispatchLevels(src: Option<Origin>, rms: seq<real>, peak: seq<real>, decay: seq<real>, others: map<string, Value>)
    ensures var fields := others["rms" := AsArray(rms)]["peak" := AsArray(peak)]["decay" := AsArray(decay)];
      Dispatch(Message(src, ElementView(Some(Structure(LEVEL_NAME, fields))))) == UpdateLevels(rms, peak, decay)
  {
    var fields := others["rms" := AsArray(rms)]["peak" := AsArray(peak)]["decay" := AsArray(decay)];
    var msg := Message(src, ElementView(Some(Structure(LEVEL_NAME, fields))));
    DoublesOfArray(rms);
    DoublesOfArray(peak);
    DoublesOfArray(decay);
    assert FieldOf(msg, "rms") == Some(AsArray(rms));
    assert FieldOf(msg, "peak") == Some(AsArray(peak));
    assert FieldOf(msg, "decay") == Some(AsArray(decay));
  }

  /** Reading back an array of doubles gives its values. */
  lemma DoublesOfArray(xs: seq<real>)
    ensures Doubles(AsArray(xs).items) == Some(xs)
  {
    var items := AsArray(xs).items;
    var ds := Doubles(items);
    assert ds.Some?;
    assert forall i :: 0 <= i < |xs| ==> items[i] == Double(xs[i]);
    assert forall i :: 0 <= i < |xs| ==> ds.value[i] == xs[i];
    assert ds.value == xs;
  }
}
