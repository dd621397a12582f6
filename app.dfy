/** The application state of `src/app.rs`: the record state and its
    variant form, the action names, the editing buffers with the CSS/HTML
    menu, the record action and its handler, and the take-once shutdown
    container. Window and widget construction are not part of this model. */
module App {
  import opened Wrappers
  import opened Settings
  import Messages
  import Rec = Recording
  import Pipeline
  import Utils

  datatype RecordState = Idle | Recording

  /** The `glib::Variant` stored as the record action's state. */
  datatype Variant = BoolVariant(b: bool) | OtherVariant

  const INVALID_STATE_PANIC: string := "Invalid record state type"

  /** `RecordState::from(bool)`. */
  function FromBool(v: bool): (s: RecordState)
    ensures s == Recording <==> v
  {
    if v then Recording else Idle
  }

  /** `glib::Variant::from(RecordState)`. */
  function ToVariant(s: RecordState): (v: Variant)
    ensures v.BoolVariant? && (v.b <==> s == Recording)
  {
    match s
    case Idle => BoolVariant(false)
    case Recording => BoolVariant(true)
  }

  /** `RecordState::from(&Variant)`: a variant that is not a boolean is the
      panic of its `expect`. */
  function FromVariant(v: Variant): (r: Result<RecordState, string>)
    ensures r.Failure? <==> !v.BoolVariant?
    ensures r.Failure? ==> r.error == INVALID_STATE_PANIC
    ensures r.Success? ==> (r.value == Recording <==> v.b)
  {
    match v
    case BoolVariant(b) => Success(FromBool(b))
    case OtherVariant => Failure(INVALID_STATE_PANIC)
  }

  /** The conversions invert each other. */
  lemma RecordStateRoundTrip(s: RecordState, b: bool)
    ensures FromVariant(ToVariant(s)) == Success(s)
    ensures ToVariant(FromBool(b)) == BoolVariant(b)
    ensures FromVariant(BoolVariant(b)) == Success(FromBool(b))
  {
  }

  datatype Action = Quit | SettingsAction | About | Record(state: RecordState) | UpdateOverlay

  const ACTION_PREFIX: string := "app."

  /** The name under which an action is registered with the application. */
  function FullName(a: Action): (name: string)
    ensures |name| > |ACTION_PREFIX| && name[..|ACTION_PREFIX|] == ACTION_PREFIX
  {
    match a
    case Quit => "app.quit"
    case SettingsAction => "app.settings"
    case About => "app.about"
    case Record(_) => "app.record"
    case UpdateOverlay => "app.update_overlay"
  }

  /** What `trigger` asks of the application: activating an action, or
      changing the state of the stateful record action. */
  datatype Invocation = Activate(name: string) | ChangeState(name: string, value: Variant)

  function Trigger(a: Action): (i: Invocation)
    ensures i.ChangeState? <==> a.Record?
    ensures i.ChangeState? ==> FromVariant(i.value) == Success(a.state)
  {
    match a
    case Quit => Activate("quit")
    case SettingsAction => Activate("settings")
    case About => Activate("about")
    case Record(s) => ChangeState("record", ToVariant(s))
    case UpdateOverlay => Activate("update_overlay")
  }

  /** Every action is triggered under its full name without the `app.`
      prefix; only the record action changes state, to its record state. */
  lemma TriggerUsesFullName(a: Action)
    ensures ACTION_PREFIX + Trigger(a).name == FullName(a)
    ensures Trigger(a).ChangeState? <==> a.Record?
    ensures a.Record? ==> Trigger(a).value == BoolVariant(a.state == Recording)
  {
  }

  /** Two actions share a name exactly when both are record actions. */
  lemma FullNamesDistinct(a: Action, b: Action)
    ensures FullName(a) == FullName(b) <==> a == b || (a.Record? && b.Record?)
  {
    if FullName(a) == FullName(b) && !(a.Record? && b.Record?) {
      assert FullName(a)[4] == FullName(b)[4];
      assert |FullName(a)| == |FullName(b)|;
    }
  }

  /** The entries of the editing menu. */
  const MENU_ENTRIES: seq<string> := ["CSS", "HTML"]
  const CSS_ENTRY: string := "CSS"
  const START_FAILED_PREFIX: string := "Failed to start recording: "
  const PLAYING_FAILED_TEXT: string := "Failed to set pipeline to playing: Element failed to change its state"
  const SHUTDOWN_PANIC: string := "Shutdown called multiple times"

  class App {
    const pipeline: Pipeline.Pipeline
    const dialogs: Utils.Dialogs
    const file: Utils.SettingsFile
    var cssBuffer: string
    var htmlBuffer: string
    var editingMarkup: Option<string>
    /** The text in the text view. */
    var viewText: string
    /** The header bar's record toggle button. */
    var recordButtonActive: bool
    /** The state of the `record` action. */
    var recordActionState: RecordState

    /** `App::new` after the widgets exist: the buffers hold the bundled
        documents, the record action starts idle, and selecting the second
        menu entry shows the HTML buffer. */
    constructor (pipeline: Pipeline.Pipeline, dialogs: Utils.Dialogs, file: Utils.SettingsFile, html: string, css: string)
      ensures this.pipeline == pipeline && this.dialogs == dialogs && this.file == file
      ensures cssBuffer == css && htmlBuffer == html
      ensures editingMarkup == Some(MENU_ENTRIES[1]) && viewText == html
      ensures !recordButtonActive && recordActionState == Idle
    {
      this.pipeline := pipeline;
      this.dialogs := dialogs;
      this.file := file;
      cssBuffer := css;
      htmlBuffer := html;
      editingMarkup := None;
      viewText := "";
      recordButtonActive := false;
      recordActionState := Idle;
      new;
      OnMenuChanged(Some(MENU_ENTRIES[1]));
    }

    /** The menu's `changed` handler: the selected buffer is shown and
        becomes the one being edited; with no selection nothing happens. */
    method OnMenuChanged(selection: Option<string>)
      modifies this
      ensures selection.None? ==> editingMarkup == old(editingMarkup) && viewText == old(viewText)
      ensures selection.Some? ==>
        editingMarkup == selection && viewText == (if selection.value == CSS_ENTRY then cssBuffer else htmlBuffer)
      ensures cssBuffer == old(cssBuffer) && htmlBuffer == old(htmlBuffer)
      ensures recordButtonActive == old(recordButtonActive) && recordActionState == old(recordActionState)
    {
      if selection.Some? {
        if selection.value == CSS_ENTRY {
          viewText := cssBuffer;
        } else {
          viewText := htmlBuffer;
        }
        editingMarkup := selection;
      }
    }

    /** The user typing into the text view. */
    method EditText(text: string)
      modifies this
      ensures viewText == text
      ensures cssBuffer == old(cssBuffer) && htmlBuffer == old(htmlBuffer) && editingMarkup == old(editingMarkup)
      ensures recordButtonActive == old(recordButtonActive) && recordActionState == old(recordActionState)
    {
      viewText := text;
    }

    /** `update_overlay`: the text view's text replaces the CSS buffer when
        CSS is being edited and the HTML buffer when anything else is; the
        pipeline then renders the current pair. */
    method UpdateOverlay(emitOk: bool) returns (r: Status)
      modifies this, pipeline
      ensures editingMarkup == Some(CSS_ENTRY) ==> cssBuffer == viewText && htmlBuffer == old(htmlBuffer)
      ensures editingMarkup.Some? && editingMarkup != Some(CSS_ENTRY) ==>
        htmlBuffer == viewText && cssBuffer == old(cssBuffer)
      ensures editingMarkup.None? ==> cssBuffer == old(cssBuffer) && htmlBuffer == old(htmlBuffer)
      ensures editingMarkup == old(editingMarkup) && viewText == old(viewText)
      ensures recordButtonActive == old(recordButtonActive) && recordActionState == old(recordActionState)
      ensures var doc := Pipeline.Overlay.Render(htmlBuffer, cssBuffer, pipeline.assets);
        && (doc.Success? && emitOk ==> r == Ok && pipeline.documents == old(pipeline.documents) + [doc.value])
        && (!(doc.Success? && emitOk) ==> r.Panic? && pipeline.documents == old(pipeline.documents))
      ensures pipeline.Recorder() == old(pipeline.Recorder()) && pipeline.state == old(pipeline.state)
    {
      if editingMarkup.Some? {
        if editingMarkup.value == CSS_ENTRY {
          cssBuffer := viewText;
        } else {
          htmlBuffer := viewText;
        }
      }
      r := pipeline.UpdateOverlay(htmlBuffer, cssBuffer, emitOk);
    }

    /** `refresh_pipeline` with the saved settings. */
    method RefreshPipeline(pauseOk: bool, playOk: bool) returns (r: Status)
      modifies pipeline
      ensures pipeline.cameraCaps == Pipeline.CameraCapsFor(file.stored.videoResolution)
      ensures pipeline.overlayCaps == Pipeline.OverlayCapsFor(file.stored.videoResolution)
      ensures pipeline.Recorder() == old(pipeline.Recorder())
      ensures pauseOk && playOk ==> r == Ok && pipeline.state == Messages.Playing
    {
      r := pipeline.Refresh(file.Load(), pauseOk, playOk);
    }

    /** The record action's `change-state` handler: the handler for the new
        state runs first and the action stores the state afterwards. For
        Recording, a failed start shows a non-fatal dialog and turns the
        toggle button off; turning it off emits `toggled`, which changes
        the action to Idle from inside this handler before the outer call
        stores Recording. The start is `start_recording` as written, so a
        bin that does not reach Playing stays in the pipeline. A panic ends
        the handler. */
    method ChangeRecordState(v: Variant, env: Rec.StartEnv) returns (r: Status)
      modifies this, pipeline, dialogs
      decreases if v == BoolVariant(true) then 1 else 0
      ensures !v.BoolVariant? ==> r == Panic(INVALID_STATE_PANIC) && pipeline.Recorder() == old(pipeline.Recorder())
      ensures v == BoolVariant(false) ==>
        && r == Ok && recordActionState == Idle
        && pipeline.Recorder() == Rec.Stop(old(pipeline.Recorder()))
        && recordButtonActive == old(recordButtonActive) && dialogs.shown == old(dialogs.shown)
      ensures v == BoolVariant(true) ==>
        var o := Rec.Start(old(pipeline.Recorder()), file.stored.rtmpLocation, env, false);
        && (o.status.Panic? ==> r == o.status && pipeline.Recorder() == o.after)
        && (o.status.Ok? ==>
              && r == Ok && recordActionState == Recording && pipeline.Recorder() == o.after
              && recordButtonActive == old(recordButtonActive) && dialogs.shown == old(dialogs.shown))
        && (o.status.Err? ==>
              && r == Ok && recordActionState == Recording && !recordButtonActive
              && dialogs.shown == old(dialogs.shown) + [Utils.ErrorDialog(false, START_FAILED_PREFIX + o.status.message)]
              && pipeline.Recorder() == (if old(recordButtonActive) then Rec.Stop(o.after) else o.after))
      ensures cssBuffer == old(cssBuffer) && htmlBuffer == old(htmlBuffer)
      ensures editingMarkup == old(editingMarkup) && viewText == old(viewText)
      ensures pipeline.MainUnchanged()
    {
      var state := FromVariant(v);
      if state.Failure? {
        return Panic(state.error);
      }
      match state.value {
        case Idle =>
          pipeline.StopRecording();
        case Recording =>
          var started := pipeline.StartRecordingAsWritten(file.Load(), env);
          if started.Panic? {
            return started;
          }
          if started.Err? {
            dialogs.ShowErrorDialog(false, START_FAILED_PREFIX + started.message);
            // `set_record_active(false)` emits `toggled` only when the button was on.
            if recordButtonActive {
              recordButtonActive := false;
              var nested := ChangeRecordState(Trigger(Record(FromBool(false))).value, env);
            }
          }
      }
      recordActionState := state.value;
      r := Ok;
    }

    /** The user clicking the record toggle button, which triggers the
        record action with the button's new state. */
    method ToggleRecordButton(env: Rec.StartEnv) returns (r: Status)
      modifies this, pipeline, dialogs
      ensures old(recordButtonActive) ==>
        r == Ok && !recordButtonActive && recordActionState == Idle
        && pipeline.Recorder() == Rec.Stop(old(pipeline.Recorder()))
      ensures !old(recordButtonActive) ==>
        var o := Rec.Start(old(pipeline.Recorder()), file.stored.rtmpLocation, env, false);
        && (o.status.Ok? ==> r == Ok && recordButtonActive && recordActionState == Recording)
        && (o.status.Err? ==>
              && r == Ok && !recordButtonActive && recordActionState == Recording
              && pipeline.Recorder() == Rec.Stop(o.after))
    {
      recordButtonActive := !recordButtonActive;
      r := ChangeRecordState(Trigger(Record(FromBool(recordButtonActive))).value, env);
    }

    /** `on_activate`: the pipeline is set to Playing; a failure is shown as
        a fatal dialog. */
    method OnActivate(ok: bool)
      modifies pipeline, dialogs
      ensures pipeline.state == (if ok then Messages.Playing else old(pipeline.state))
      ensures ok ==> dialogs.shown == old(dialogs.shown)
      ensures !ok ==> dialogs.shown == old(dialogs.shown) + [Utils.ErrorDialog(true, PLAYING_FAILED_TEXT)]
      ensures pipeline.Recorder() == old(pipeline.Recorder())
    {
      var success := pipeline.ChangeState(Messages.Playing, ok);
      if !success {
        dialogs.ShowErrorDialog(true, PLAYING_FAILED_TEXT);
      }
    }

    /** `on_shutdown`: the pipeline is set to Null, ignoring failure. */
    method OnShutdown(ok: bool)
      modifies pipeline
      ensures pipeline.state == (if ok then Messages.Null else old(pipeline.state))
      ensures pipeline.ops == old(pipeline.ops) + [Pipeline.SetState(Messages.Null)]
      ensures pipeline.Recorder() == old(pipeline.Recorder())
    {
      var _ := pipeline.ChangeState(Messages.Null, ok);
    }
  }

  /** The `RefCell<Option<App>>` the shutdown handler takes the application
      from. */
  class ShutdownContainer {
    var app: App?

    constructor (app: App)
      ensures this.app == app
    {
      this.app := app;
    }

    /** The shutdown handler: the first call takes the application and shuts
        it down; any later call panics. */
    method Shutdown(ok: bool) returns (r: Status)
      modifies this, if app != null then {app.pipeline} else {}
      ensures app == null
      ensures old(app) == null ==> r == Panic(SHUTDOWN_PANIC)
      ensures old(app) != null ==>
        r == Ok && old(app).pipeline.state == (if ok then Messages.Null else old(app.pipeline.state))
    {
      if app == null {
        return Panic(SHUTDOWN_PANIC);
      }
      var taken := app;
      app := null;
      taken.OnShutdown(ok);
      r := Ok;
    }
  }

  /** Shutting down twice panics the second time. */
  method ShutdownTwice(app: App) returns (first: Status, second: Status)
    modifies app.pipeline
    ensures first == Ok && second == Panic(SHUTDOWN_PANIC)
  {
    var container := new ShutdownContainer(app);
    first := container.Shutdown(true);
    second := container.Shutdown(true);
  }
}
