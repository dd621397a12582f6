/** The collaborators the core reaches through `crate::utils`: the error
    dialog and the settings file. Their implementation is not part of this
    model; they are represented by what they record. */
module Utils {
  import opened Settings

  /** One call of `utils::show_error_dialog(fatal, text)`. */
  datatype Dialog = ErrorDialog(fatal: bool, text: string)

  /** The dialogs shown so far, in order. */
  class Dialogs {
    var shown: seq<Dialog>

    constructor ()
      ensures shown == []
    {
      shown := [];
    }

    method ShowErrorDialog(fatal: bool, text: string)
      modifies this
      ensures shown == old(shown) + [ErrorDialog(fatal, text)]
    {
      shown := shown + [ErrorDialog(fatal, text)];
    }
  }

  /** The settings file: `load_settings` reads `stored`, `save_settings`
      overwrites it, and `saves` keeps every value written. */
  class SettingsFile {
    var stored: Settings
    var saves: seq<Settings>

    constructor (initial: Settings)
      ensures stored == initial && saves == []
    {
      stored := initial;
      saves := [];
    }

    function Load(): Settings
      reads this
    {
      stored
    }

    method Save(s: Settings)
      modifies this
      ensures stored == s && saves == old(saves) + [s]
    {
      stored := s;
      saves := saves + [s];
    }
  }
}
