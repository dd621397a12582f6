/** The settings dialog of `src/settings.rs`: its three widgets, what
    `save_settings` makes of them, and the handlers that save and refresh the
    pipeline. */
module SettingsDialog {
  import opened Wrappers
  import opened Settings
  import Utils
  import Recording
  import Pipeline
  import Messages

  /** The texts of the RTMP entry, the encoder entry and the active
      resolution entry; `None` is a widget that reports no text. */
  datatype Widgets = Widgets(rtmpLocation: Option<string>, h264Encoder: Option<string>, videoResolution: Option<string>)

  /** What `save_settings` does: show the missing-encoder dialog, panic on a
      resolution text it cannot parse, or save these settings. */
  datatype SaveOutcome = MissingEncoder | Unsupported(message: string) | Saved(settings: Settings)

  const MISSING_ENCODER_TEXT: string := "Please specify an H.264 encoder chain"

  /** The widgets as `show_settings_dialog` fills them from the loaded
      settings: the combobox entry of the resolution, the location or an
      empty entry, and the encoder chain. */
  function Opened(s: Settings): (w: Widgets)
    ensures w.h264Encoder == Some(s.h264Encoder)
    ensures s.rtmpLocation.Some? ==> w.rtmpLocation == s.rtmpLocation
    ensures s.rtmpLocation.None? ==> w.rtmpLocation == Some("")
    ensures w.videoResolution.Some? && FromText(w.videoResolution) == Success(s.videoResolution)
  {
    ComboRoundTrip(s.videoResolution, 0);
    Widgets(
      Some(match s.rtmpLocation case Some(l) => l case None => ""),
      Some(s.h264Encoder),
      Some(COMBO_TEXTS[ComboIndex(s.videoResolution)]))
  }

  /** `save_settings` as written: the RTMP text is stored as it is, so an
      empty entry becomes an empty location rather than none. */
  function CollectAsWritten(w: Widgets): (o: SaveOutcome)
    ensures w.h264Encoder.None? <==> o == MissingEncoder
    ensures w.h264Encoder.Some? ==> (o.Saved? <==> FromText(w.videoResolution).Success?)
    ensures o.Saved? ==>
      && o.settings.rtmpLocation == w.rtmpLocation
      && Some(o.settings.h264Encoder) == w.h264Encoder
      && FromText(w.videoResolution) == Success(o.settings.videoResolution)
  {
    match w.h264Encoder
    case None => MissingEncoder
    case Some(encoder) =>
      match FromText(w.videoResolution)
      case Failure(message) => Unsupported(message)
      case Success(r) => Saved(Settings(w.rtmpLocation, encoder, r))
  }

  /** An empty location entry means that no location is set. */
  function LocationOf(text: Option<string>): (l: Option<string>)
    ensures l.Some? ==> l == text && l.value != ""
    ensures text.Some? && text.value != "" ==> l == text
  {
    if text == Some("") then None else text
  }

  /** `save_settings` with an empty RTMP entry saved as no location. */
  function Collect(w: Widgets): (o: SaveOutcome)
    ensures w.h264Encoder.None? <==> o == MissingEncoder
    ensures w.h264Encoder.Some? ==> (o.Saved? <==> FromText(w.videoResolution).Success?)
    ensures o.Saved? ==>
      && o.settings.rtmpLocation == LocationOf(w.rtmpLocation)
      && Some(o.settings.h264Encoder) == w.h264Encoder
      && FromText(w.videoResolution) == Success(o.settings.videoResolution)
  {
    match CollectAsWritten(w)
    case Saved(s) => Saved(s.(rtmpLocation := LocationOf(s.rtmpLocation)))
    case o => o
  }

  /** As written, saving a dialog opened on settings without a location
      stores an empty location, which `start_recording` no longer refuses
      with the request to set one: it goes on to build a bin streaming to
      the empty location. */
  lemma EmptyLocationAsWritten(s: Settings)
    requires s.rtmpLocation.None?
    ensures CollectAsWritten(Opened(s)) == Saved(s.(rtmpLocation := Some("")))
    ensures Recording.Start(Recording.IDLE, Some(""), Recording.GOOD_ENV, false).status == Ok
  {
  }

  /** Saving a dialog just opened gives back the loaded settings (a location
      that is the empty text is read back as none). */
  lemma OpenThenSave(s: Settings)
    ensures s.rtmpLocation != Some("") ==> Collect(Opened(s)) == Saved(s)
    ensures s.rtmpLocation == Some("") ==> Collect(Opened(s)) == Saved(s.(rtmpLocation := None))
  {
  }

  class SettingsDialog {
    var rtmpLocation: Option<string>
    var h264Encoder: Option<string>
    var videoResolution: Option<string>

    function Texts(): Widgets
      reads this
    {
      Widgets(rtmpLocation, h264Encoder, videoResolution)
    }

    /** `show_settings_dialog` building the widgets from the loaded
        settings. */
    constructor (loaded: Settings)
      ensures Texts() == Opened(loaded)
    {
      videoResolution := Some(COMBO_TEXTS[ComboIndex(loaded.videoResolution)]);
      rtmpLocation := Some("");
      if loaded.rtmpLocation.Some? {
        rtmpLocation := loaded.rtmpLocation;
      }
      h264Encoder := Some(loaded.h264Encoder);
    }

    /** `save_settings`: without an encoder text only the error dialog is
        shown; a resolution text that does not parse panics; otherwise
        exactly the collected settings are written, the RTMP text as it is
        (an empty entry becomes an empty location). */
    method SaveSettings(file: Utils.SettingsFile, dialogs: Utils.Dialogs) returns (r: Status)
      modifies file, dialogs
      ensures CollectAsWritten(Texts()) == MissingEncoder ==>
        r == Ok && dialogs.shown == old(dialogs.shown) + [Utils.ErrorDialog(false, MISSING_ENCODER_TEXT)]
        && file.saves == old(file.saves) && file.stored == old(file.stored)
      ensures CollectAsWritten(Texts()).Unsupported? ==>
        r == Panic(CollectAsWritten(Texts()).message) && dialogs.shown == old(dialogs.shown)
        && file.saves == old(file.saves) && file.stored == old(file.stored)
      ensures CollectAsWritten(Texts()).Saved? ==>
        r == Ok && dialogs.shown == old(dialogs.shown)
        && file.stored == CollectAsWritten(Texts()).settings && file.saves == old(file.saves) + [file.stored]
    {
      if h264Encoder.None? {
        dialogs.ShowErrorDialog(false, MISSING_ENCODER_TEXT);
        return Ok;
      }
      var resolution := FromText(videoResolution);
      if resolution.Failure? {
        return Panic(resolution.error);
      }
      file.Save(Settings(rtmpLocation, h264Encoder.value, resolution.value));
      r := Ok;
    }

    /** The text of the RTMP entry changing: the settings are saved. */
    method OnRtmpLocationChanged(text: Option<string>, file: Utils.SettingsFile, dialogs: Utils.Dialogs)
      returns (r: Status)
      modifies this, file, dialogs
      ensures Texts() == old(Texts()).(rtmpLocation := text)
      ensures CollectAsWritten(Texts()).Saved? ==> r == Ok && file.saves == old(file.saves) + [CollectAsWritten(Texts()).settings]
      ensures !CollectAsWritten(Texts()).Saved? ==> file.saves == old(file.saves) && file.stored == old(file.stored)
    {
      rtmpLocation := text;
      r := SaveSettings(file, dialogs);
    }

    /** The text of the encoder entry changing: the settings are saved. */
    method OnH264EncoderChanged(text: Option<string>, file: Utils.SettingsFile, dialogs: Utils.Dialogs)
      returns (r: Status)
      modifies this, file, dialogs
      ensures Texts() == old(Texts()).(h264Encoder := text)
      ensures text.None? ==>
        r == Ok && file.saves == old(file.saves) && file.stored == old(file.stored)
        && dialogs.shown == old(dialogs.shown) + [Utils.ErrorDialog(false, MISSING_ENCODER_TEXT)]
      ensures CollectAsWritten(Texts()).Saved? ==> r == Ok && file.saves == old(file.saves) + [CollectAsWritten(Texts()).settings]
    {
      h264Encoder := text;
      r := SaveSettings(file, dialogs);
    }

    /** A resolution chosen in the combobox: the settings are saved first,
        and the pipeline is then refreshed with what was saved. */
    method OnResolutionChanged(index: nat, file: Utils.SettingsFile, dialogs: Utils.Dialogs,
                               pipeline: Pipeline.Pipeline, pauseOk: bool, playOk: bool)
      returns (r: Status)
      requires index < |COMBO_TEXTS|
      modifies this, file, dialogs, pipeline
      ensures videoResolution == Some(COMBO_TEXTS[index])
      ensures rtmpLocation == old(rtmpLocation) && h264Encoder == old(h264Encoder)
      ensures h264Encoder.Some? ==>
        && file.saves == old(file.saves) + [file.stored]
        && file.stored == Settings(rtmpLocation, h264Encoder.value, file.stored.videoResolution)
        && ComboIndex(file.stored.videoResolution) == index
      ensures h264Encoder.None? ==> file.saves == old(file.saves) && file.stored == old(file.stored)
      ensures pipeline.cameraCaps == Pipeline.CameraCapsFor(file.stored.videoResolution)
      ensures pipeline.overlayCaps == Pipeline.OverlayCapsFor(file.stored.videoResolution)
      ensures pipeline.Recorder() == old(pipeline.Recorder())
      ensures pauseOk && playOk ==> r == Ok && pipeline.state == Messages.Playing
    {
      videoResolution := Some(COMBO_TEXTS[index]);
      ComboRoundTrip(V720P, index);
      r := SaveSettings(file, dialogs);
      if r.Panic? {
        return;
      }
      r := pipeline.Refresh(file.Load(), pauseOk, playOk);
    }
  }

  /** The Close button: the dialog goes away and the pipeline is refreshed
      with the loaded settings. */
  method Close(file: Utils.SettingsFile, pipeline: Pipeline.Pipeline, pauseOk: bool, playOk: bool)
    returns (r: Status)
    modifies pipeline
    ensures pipeline.cameraCaps == Pipeline.CameraCapsFor(file.stored.videoResolution)
    ensures pipeline.overlayCaps == Pipeline.OverlayCapsFor(file.stored.videoResolution)
    ensures pipeline.Recorder() == old(pipeline.Recorder())
    ensures pauseOk && playOk ==> r == Ok && pipeline.state == Messages.Playing
  {
    r := pipeline.Refresh(file.Load(), pauseOk, playOk);
  }
}
