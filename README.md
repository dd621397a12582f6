# gst-wpe-broadcast-demo core, modelled in Dafny

gst-wpe-broadcast-demo is a GTK application. It mixes a webcam with an HTML
overlay rendered by WPE, shows the result, and can stream it to an RTMP
end-point. Most of it is GTK and GStreamer glue. This project models the
sequential logic underneath it and proves properties of that logic:

- **The recording branch** (`src/pipeline.rs`). It covers:
  - the three slots `recording_bin`, `recording_audio_pad` and `recording_video_pad`;
  - `start_recording`, which adds a bin, requests and links one pad per tee, and rolls back on failure;
  - `stop_recording`, which installs one idle probe per tee pad;
  - the probes, which release their pad and queue a teardown task;
  - the queued teardown tasks.

  The GStreamer graph is a value (`Recording.Graph`). It holds:
  - the child named `recording-bin`;
  - the requested and released tee pads;
  - the links and the installed probes;
  - the task queue;
  - the messages the application posts to its own bus.

  Each operation is a function from one recorder state to the next. The
  `Pipeline` class performs the same steps on its fields, and each of its
  methods is proved equal to its function. Probe firing and task execution
  are separate steps, which the environment may interleave with anything.
- **The rest of `Pipeline`**:
  - the resolution table;
  - `refresh`, which rewrites the caps and the mixer pad size and then does Paused → reconfigure → Playing;
  - `update_overlay`;
  - the bus dispatcher `on_pipeline_message`, as a function from a message to the reaction.
- **Overlay templating**. strfmt's plain `{name}` substitution (`Template`),
  with the style sheet and two logos. The logos are data URIs (RFC 2397)
  whose payload is standard Base64 (section 4 of RFC 4648). The model proves
  that Base64 decoding inverts the encoder.
- **Settings** (`src/settings.rs`):
  - the resolution enumeration, its case-insensitive parsing, the defaults and the combobox table;
  - the settings dialog: `save_settings` and the change handlers, which save and then refresh the pipeline.
- **Application state** (`src/app.rs`):
  - the `RecordState` ⇄ variant conversions;
  - the action names and `trigger`;
  - the CSS/HTML editing buffers and the menu;
  - the record action's handler, including the re-entrant `toggled` emission when a failed start turns the button off;
  - the take-once shutdown container.
- **The VU meter's integer bookkeeping** (`src/audio_vumeter.rs`):
  - the stored level sample;
  - the height-keyed gradient cache;
  - the channel layout. `channel_width` uses truncating division, written out as `TruncDiv`.

`src/utils.rs` is not part of this model. Its `load_settings`,
`save_settings` and `show_error_dialog` are represented by
`Utils.SettingsFile` (a stored value and the list of saves) and by
`Utils.Dialogs` (the list of dialogs shown). A Rust panic is `Status.Panic`
with the panic message.

## Model

| member | source | states |
|---|---|---|
| `Settings.ComboIndex` | src/settings.rs:171-175 | the combobox index chosen for a resolution is one of the three entries |
| `Settings.FromText` | src/settings.rs:21-33 | an absent text is the default V720P; a text that does not parse fails with "unsupported video resolution " followed by that text |
| `Settings.FromTextAccepts` | src/settings.rs:21-29 | a text parses to `r` exactly when it is `r`'s combobox text, or that text with its final `P` in lower case |
| `Settings.ComboRoundTrip` | src/settings.rs:168-175 | parsing the entry chosen for `r` gives `r`; every entry parses, and its index is the one chosen for the parsed value |
| `Settings.OrderMatchesCombo` | src/settings.rs:13-18 | the derived order V480P < V720P < V1080P is the combobox order; `from(None)` is the default V720P, the middle entry |
| `Settings.LowerCharChanges` | src/settings.rs:24 | lower-casing changes only upper-case letters, and only `p`/`P` lower-case to `p` |
| `Settings.DefaultsAgree` | src/settings.rs:49-57 | the default settings have no location and the resolution that an absent text parses to, shown as "720P" |
| `Base64.ValueOfCharOf` | src/pipeline.rs:55 | every 6-bit value's alphabet character decodes back to it |
| `Base64.Encode` | src/pipeline.rs:55 | the encoding has 4 characters per started group of 3 bytes |
| `Base64.DecodeEncode` | src/pipeline.rs:59 | decoding the encoding of any byte sequence gives back that sequence |
| `Template.Format` | src/pipeline.rs:67 | brace-free text formats to itself; a `KeyError` always names a key without a value |
| `Template.NextBrace` | src/pipeline.rs:67 | the text up to the next brace is brace-free, and a brace follows if the text does not end |
| `Template.FormatLiteral` | src/pipeline.rs:67 | brace-free text is copied unchanged in front of the formatted remainder |
| `Template.FormatPlaceholder` | src/pipeline.rs:67 | `{key}` is replaced by the key's value, and an unknown key is a `KeyError` naming it |
| `Template.FormatBetween` | src/pipeline.rs:67 | a bound placeholder between brace-free text is replaced by its value |
| `Template.FormatText` | src/pipeline.rs:67 | formatting a template built from literals and placeholders is their expansion |
| `Template.ExpandSucceeds` | src/pipeline.rs:67 | expansion succeeds exactly when every placeholder's key is bound, and a failure names an unbound key |
| `Overlay.Variables` | src/pipeline.rs:53-65 | the variables are bound for exactly the three keys `css_buffer`, `igalia_logo` and `gst_logo`, and `css_buffer` is the CSS text |
| `Overlay.Render` | src/pipeline.rs:53-67 | a brace-free document is loaded unchanged; a `KeyError` always names a key other than the three bound ones |
| `Overlay.RenderTemplate` | src/pipeline.rs:53-67 | rendering succeeds exactly when every placeholder is `css_buffer`, `igalia_logo` or `gst_logo`; then each is replaced by the CSS or the logo's data URI; otherwise the `unwrap` fails on an unknown key |
| `Overlay.ExpandKnown` | src/pipeline.rs:62-67 | with only known keys, expansion against the three variables is the substituted text |
| `Overlay.LogoPayloads` | src/pipeline.rs:54-60 | each logo value is its media-type prefix followed by Base64 that decodes to the embedded bytes |
| `Overlay.RenderStyleSheet` | src/pipeline.rs:63 | a `{css_buffer}` placeholder between brace-free text receives the CSS text verbatim, braces included |
| `Overlay.RenderUnknownKey` | src/pipeline.rs:67 | a placeholder naming any other key, in any brace-free surroundings, makes the render fail with that key |
| `VuMeter.Layout` | src/audio_vumeter.rs:136-138 | one bar per channel |
| `VuMeter.TruncDiv` | src/audio_vumeter.rs:115 | Rust's integer division rounds toward zero: the quotient has the numerator's sign and does not overshoot it |
| `VuMeter.ChannelWidth` | src/audio_vumeter.rs:109-115 | once the margins fit in the width, the channel width is non-negative and the channels with their margins fit in the width |
| `VuMeter.ChannelStart` | src/audio_vumeter.rs:136-138 | channel `c` starts `c` strides of `channel_width + margin` from the left, never left of 0 for a non-negative stride |
| `VuMeter.DrawnSample` | src/audio_vumeter.rs:108-145 | the sample is drawn exactly when there is a channel and at least as many peak and decay values as channels, then with one bar per channel; no channels is the division by zero |
| `VuMeter.DrawChannels` | src/audio_vumeter.rs:108-201 | no channels is a division by zero; fewer peak or decay values than channels is an index panic; otherwise channel `c` starts at `c*cw + 2c`, is `cw` wide, and its margin bar starts at `x + cw` |
| `VuMeter.TruncDivBounds` | src/audio_vumeter.rs:115 | truncating division rounds down for a non-negative numerator and up for a negative one |
| `VuMeter.ChannelWidthBounds` | src/audio_vumeter.rs:109-115 | for a non-negative width the channel width is at least -1; once the margins fit, channels and margins fill the width with fewer than `channels` pixels spare |
| `VuMeter.ChannelStartStep` | src/audio_vumeter.rs:138 | consecutive channels start `channel_width + margin` apart |
| `VuMeter.ChannelsDoNotOverlap` | src/audio_vumeter.rs:136-138 | an earlier channel's bars and margin end no later than a later channel starts |
| `VuMeter.LastChannelFits` | src/audio_vumeter.rs:136-145 | once the margins fit, the last channel ends inside the width |
| `VuMeter.VuMeter.constructor` | src/audio_vumeter.rs:48-57 | no sample, no cached height and no gradients |
| `VuMeter.VuMeter.Update` | src/audio_vumeter.rs:80-87 | the stored sample becomes exactly the three sequences, a redraw is requested, and the cache is untouched |
| `VuMeter.VuMeter.OnDraw` | src/audio_vumeter.rs:89-108 | the gradients are rebuilt for the height exactly when the cached height is absent or different; with no sample nothing is drawn, otherwise the sample is laid out |
| `Messages.Doubles` | src/pipeline.rs:466-469 | an array reads as doubles exactly when every element is a double, and then element for element |
| `Messages.LevelArrays` | src/pipeline.rs:462-487 | a level field read successfully is the array of the values returned |
| `Messages.Dispatch` | src/pipeline.rs:429-519 | an error message gives a fatal dialog, and only an error does, with the text "Error from <source path>: <error> (<debug>)"; a `warning` application message gives a non-fatal dialog with its `text`, or panics without one; a `level` element message passes its rms/peak/decay arrays on unchanged, and panics on the first of them (rms, then peak, then decay) that is missing or not an array (its `expect` text) or holds a non-double (the `unwrap`); a state change from the pipeline dumps the graph under a name built from the old and new state, and from any other source does nothing; async-done dumps the graph for a bin source, panics for any other source and does nothing without one; other messages have no effect |
| `Messages.DispatchWarning` | src/pipeline.rs:521-528 | the warning message a failed teardown posts is shown as a non-fatal dialog with its text |
| `Messages.DispatchLevels` | src/pipeline.rs:459-491 | a `level` message of three double arrays updates the meter with exactly those values |
| `Messages.DoublesOfArray` | src/pipeline.rs:466-469 | reading back an array of doubles gives its values |
| `Messages.WarningMessage` | src/pipeline.rs:521-528 | the posted message is an application message without a source, named `warning`, whose `text` field is the given text |
| `Recording.IdleIsValid` | src/pipeline.rs:115-117 | the initial state with empty slots satisfies the invariant |
| `Recording.Start` | src/pipeline.rs:216-309 | (1) no location: an error, and nothing changes. (2) The add panics exactly when a `recording-bin` is present. (3) Success exactly when every step succeeds; then the new bin is the child, Playing, and in the bin slot, with both new pads requested, in their slots and linked. (4) On failure the bin slot is unchanged; a link failure, or the undone start failure, removes the new bin (child and links as they were) and sets it to Null; the start failure as written leaves the new bin as the child. (5) Pads are never released, and probes, tasks and bus are untouched |
| `Recording.StartKeepsValid` | src/pipeline.rs:216-309 | every start keeps the invariant and keeps the slot bin attached; a success requests two distinct fresh pads |
| `Recording.StartFromIdle` | src/pipeline.rs:246-308 | from the initial state with every call succeeding, the slots hold the new bin and its two new pads |
| `Recording.Stop` | src/pipeline.rs:312-346 | with no bin it changes nothing; otherwise the bin slot is emptied, and with both pads present both pad slots are emptied and exactly one idle probe per pad is added for that bin |
| `Recording.StopEmptiesSlots` | src/pipeline.rs:312-327 | after a stop the bin slot is empty, and both pad slots too when a bin was recorded; with no bin recorded a stop changes nothing, so a pad left in its slot by a failed start stays there |
| `Recording.StopKeepsValid` | src/pipeline.rs:312-418 | stop keeps the invariant: each pad has at most one probe |
| `Recording.StopIdempotent` | src/pipeline.rs:315-318 | a second stop changes nothing |
| `Recording.Fire` | src/pipeline.rs:346-378 | a probe on a requested pad releases it (dropping its links), queues a teardown task and is removed; on a pad without a parent it stays and nothing changes; the bin states, bus, identities, slots and child never change |
| `Recording.FireReleasesOnce` | src/pipeline.rs:385-418 | in every reachable state a probe returns `Remove`; its pad had not been released, is no longer requested and has no probe left, so it is released exactly once |
| `Recording.RunTaskAsWritten` | src/pipeline.rs:354-370 | the task removes whatever child is named `recording-bin`; afterwards there is none, and with none before it only leaves the queue |
| `Recording.Teardown` | src/pipeline.rs:359-369 | the bin is removed; then it is set to Null, or, when that fails, a warning "Failed to stop recording: …" is posted |
| `Recording.RunTask` | src/pipeline.rs:354-370 | the task removes only the bin it was queued for, and only while that bin is still the child |
| `Recording.RunTaskAsWrittenKeepsValid` | src/pipeline.rs:354-370 | the task as written keeps the invariant |
| `Recording.TeardownKeepsValidAnyBin` | src/pipeline.rs:359-369 | removing any bin keeps the invariant |
| `Recording.RunTaskKeepsValid` | src/pipeline.rs:354-370 | the task for its own bin keeps the invariant and never detaches the slot bin |
| `Recording.StopTearsDown` | src/pipeline.rs:346-418 | stopping an attached recording, firing both probes in either order and running both tasks: both pads are released exactly once, the first task removes the bin and sets it Null, the second does nothing, and no link is left |
| `Recording.RetryAfterFailedStartAsWritten` | src/pipeline.rs:303-304 | as written, a start that does not reach Playing leaves its bin in the pipeline, and the next start panics in `add` |
| `Recording.RetryAfterFailedStart` | src/pipeline.rs:246-250 | with the bin removed on that failure, a retry after any failed start never panics in `add` |
| `Recording.StaleTaskAsWritten` | src/pipeline.rs:355-362 | as written, start–stop–fire–fire–task–start–task leaves the slot holding a bin that is no longer in the pipeline |
| `Pipeline.Dimensions` | src/pipeline.rs:76-80 | 480p is 4:3 and the others are 16:9, all positive |
| `Pipeline.DimensionsFollowOrder` | src/pipeline.rs:146-150 | a larger resolution is wider and taller, so the table is injective |
| `Pipeline.Pipeline.constructor` | src/pipeline.rs:76-117 | the struct before the initial overlay: caps and mixer size follow the loaded resolution; the pipeline is Null with empty slots, an empty graph and no document loaded yet |
| `Pipeline.New` | src/pipeline.rs:73-118 | the new pipeline has caps and mixer size for the loaded resolution, empty slots, and the rendered bundled document as its one loaded document; an unknown key or a failed emission panics and no pipeline exists |
| `Pipeline.Pipeline.Refresh` | src/pipeline.rs:143-185 | both caps are rewritten for the loaded resolution; the mixer pad gets that size if it exists; the requests are Paused, reconfigure, Playing, in that order, and a failed transition panics |
| `Pipeline.Pipeline.ChangeState` | src/pipeline.rs:205-213 | the requested pipeline state is recorded and reached when the transition succeeds |
| `Pipeline.Pipeline.UpdateOverlay` | src/pipeline.rs:421-423 | the rendered document is loaded into `wpesrc` on success; an unknown key or a failed emission panics and loads nothing |
| `Pipeline.Pipeline.StartRecordingAsWritten` | src/pipeline.rs:216-309 | slots and graph become exactly `Start` as written; nothing else changes |
| `Pipeline.Pipeline.StartRecording` | src/pipeline.rs:216-309 | as above, with the failed Playing transition undone |
| `Pipeline.Pipeline.Attach` | src/pipeline.rs:230-308 | the step-by-step start equals `Start` |
| `Pipeline.Pipeline.StopRecording` | src/pipeline.rs:312-418 | slots and graph become exactly `Stop` of the old state |
| `Pipeline.Pipeline.FireProbe` | src/pipeline.rs:346-378 | the probe run equals `Fire` |
| `Pipeline.Pipeline.RunTaskAsWritten` | src/pipeline.rs:393-410 | the task run equals `RunTaskAsWritten` |
| `Pipeline.Pipeline.RunTask` | src/pipeline.rs:354-370 | the task run equals the corrected `RunTask` |
| `Pipeline.Pipeline.OnPipelineMessage` | src/pipeline.rs:434-518 | the reaction is `Dispatch`; a dialog reaction shows exactly that dialog, a level reaction updates the meter with exactly those arrays, and nothing else is touched |
| `Pipeline.Pipeline.DeliverPosted` | src/pipeline.rs:130-138 | the oldest self-posted message is taken off the bus and dispatched; with none, nothing happens |
| `SettingsDialog.Opened` | src/settings.rs:168-194 | the dialog shows the resolution's combobox entry (which parses back), the location or an empty entry, and the encoder |
| `SettingsDialog.CollectAsWritten` | src/settings.rs:101-122 | no encoder text: the missing-encoder dialog; an unparsable resolution: a panic; otherwise exactly the three widget values are saved |
| `SettingsDialog.LocationOf` | src/settings.rs:110-113 | an empty entry is no location; any other text is kept |
| `SettingsDialog.Collect` | src/settings.rs:101-122 | as `CollectAsWritten`, with an empty location entry saved as no location |
| `SettingsDialog.EmptyLocationAsWritten` | src/settings.rs:110-113 | as written, saving a dialog opened without a location stores an empty location, which `start_recording` then accepts |
| `SettingsDialog.OpenThenSave` | src/settings.rs:101-122 | saving a dialog just opened gives back the loaded settings |
| `SettingsDialog.SettingsDialog.constructor` | src/settings.rs:163-194 | the widgets are `Opened` of the loaded settings |
| `SettingsDialog.SettingsDialog.SaveSettings` | src/settings.rs:101-122 | a missing encoder shows only the dialog and saves nothing; an unparsable resolution panics and saves nothing; otherwise exactly `CollectAsWritten` of the widgets is saved once, an empty entry as an empty location |
| `SettingsDialog.SettingsDialog.OnRtmpLocationChanged` | src/settings.rs:212-218 | the new text is kept and the settings are saved as written (`CollectAsWritten`) |
| `SettingsDialog.SettingsDialog.OnH264EncoderChanged` | src/settings.rs:220-226 | the new text is kept and the settings are saved as written (`CollectAsWritten`), or the missing-encoder dialog is shown |
| `SettingsDialog.SettingsDialog.OnResolutionChanged` | src/settings.rs:228-235 | the chosen entry is saved first, with the RTMP entry text stored as it is, and the pipeline is then refreshed with the saved resolution |
| `SettingsDialog.Close` | src/settings.rs:244-250 | closing refreshes the pipeline with the saved settings |
| `App.FromBool` | src/app.rs:70-78 | `true` is Recording and `false` is Idle |
| `App.ToVariant` | src/app.rs:80-87 | Recording is the variant `true`, Idle is `false` |
| `App.FromVariant` | src/app.rs:64-68 | a boolean variant converts, and anything else panics |
| `App.RecordStateRoundTrip` | src/app.rs:64-87 | the conversions invert each other in both directions |
| `App.FullName` | src/app.rs:305-313 | every full name starts with `app.` and has more after it |
| `App.Trigger` | src/app.rs:376-384 | only the Record action changes the action state, and the variant it passes converts back to its record state |
| `App.TriggerUsesFullName` | src/app.rs:376-384 | every action is triggered under its full name without `app.`; only Record changes state, to its state's bool |
| `App.FullNamesDistinct` | src/app.rs:305-313 | two actions share a full name exactly when both are Record |
| `App.App.constructor` | src/app.rs:125-187 | the buffers hold the bundled documents; the initial menu entry is "HTML" with the HTML buffer shown; the record action starts Idle |
| `App.App.OnMenuChanged` | src/app.rs:173-185 | the selection becomes the edited markup, and the CSS buffer is shown for "CSS", the HTML buffer otherwise; no selection changes nothing |
| `App.App.EditText` | src/app.rs:281-283 | the text view holds what the user typed, and nothing else changes |
| `App.App.UpdateOverlay` | src/app.rs:280-296 | the view text replaces the CSS buffer when editing "CSS" and the HTML buffer otherwise; with no selection neither changes; the pipeline renders the current pair |
| `App.App.RefreshPipeline` | src/app.rs:298-300 | the pipeline is refreshed with the saved settings |
| `App.App.ChangeRecordState` | src/app.rs:264-278 | Idle stops recording. Recording starts it with `start_recording` as written, so a failed switch to Playing leaves the bin in the pipeline; a failure shows "Failed to start recording: …" and turns the button off, which stops re-entrantly if the button was on. The action stores the new state after the handler. A non-boolean state panics |
| `App.App.ToggleRecordButton` | src/header_bar.rs:42-45 | clicking the button triggers the record action with the button's new state: on stops, off starts with `start_recording` as written and, on failure, ends with the button off after the re-entrant stop |
| `App.App.OnActivate` | src/app.rs:235-252 | the pipeline is set to Playing; a failure shows a fatal dialog |
| `App.App.OnShutdown` | src/app.rs:255-260 | the pipeline is set to Null, ignoring failure |
| `App.ShutdownContainer.constructor` | src/app.rs:223 | the container holds the application |
| `App.ShutdownContainer.Shutdown` | src/app.rs:224-230 | the first call takes the application and shuts it down; afterwards the container is empty and any further call panics |
| `App.ShutdownTwice` | src/app.rs:223-230 | shutting down twice succeeds once and then panics with "Shutdown called multiple times" |

## Left out

- Floating point. The dB normalisation, pixel heights, gradient colours and label colours of the VU meter are not modelled, and neither are the cairo calls. Level values are stored and passed on as `real`.
- VuMeter.DrawChannels: does not model 32-bit wrap-around of `channel * channel_width`. Widths and channel counts are unbounded integers.
- GStreamer itself is not modelled. The launch and bin descriptions are an opaque language. State changes, ghost-pad creation, linking and the `load-bytes` emission are abstract steps whose outcome is a parameter (`StartEnv`, the `…Ok` flags). Graph dumps are a reaction with no further effect.
- Threads. Probes run on streaming threads and `call_async` crosses threads. Both are discrete steps over an explicit probe set and task queue that the caller chooses when to take. The one-shot `IDLE` probe type is not modelled beyond "fires while installed". The `upgrade_weak!` failures are not modelled: the pipeline, application and meter are always alive.
- The `expect`s on lookups of elements and pads that the fixed descriptions guarantee are not modelled. Neither are the pad-property `expect`s in `refresh`, nor a parse failure of the main pipeline in `new` (and so `App::new`'s error path in `on_startup`).
- The text of an error value is a parameter. The Rust `Debug` spelling of paths and debug strings in the error dialog is written with plain quotes; escaping is not modelled.
- strfmt's `{{`/`}}` escapes and format specifiers are not modelled. A stray `}`, or a `{` without its `}`, is an `Invalid` error.
- Lower-casing covers ASCII letters only. This is exact for the three accepted names, because no other character lower-cases to a digit or to `p`.
- The UTF-8 encoding of the overlay document is not modelled; documents are strings. The embedded PNG/SVG assets are parameters.
- `show_settings_dialog`'s creation of the settings directory, the widget layout, and the About dialog are file I/O or pure UI, and are not modelled.
- The `unwrap`s of `bin.add_pad` for the two ghost pads (src/pipeline.rs:264 and 288) are not modelled: each ghost pad gets a name that is new in the freshly parsed bin, so adding it does not fail.
- The application layer (`App`, `SettingsDialog`) uses the code as written: `start_recording` without the undo and `save_settings` keeping an empty entry. The corrected twins, `Pipeline.Pipeline.StartRecording` and `SettingsDialog.Collect`, are proved beside them and are not wired into the handlers.
- A missing `change-state` value (`expect("No state provided")`) is not modelled, because `trigger` always passes one.

## Findings

| source | as written | input that shows it | evidently intended | confidence | as-written member | corrected member |
|---|---|---|---|---|---|---|
| src/pipeline.rs:303-304 | when the recording bin fails to reach Playing, the function returns an error but leaves the bin in the pipeline under the name `recording-bin` | start recording with the transition to Playing failing, then start again | the next start adds its bin; the comment at lines 246-247 says `add` cannot fail, and both link-failure paths remove the bin | medium, not executed | `Recording.RetryAfterFailedStartAsWritten` | `Recording.RetryAfterFailedStart` |
| src/pipeline.rs:355-362 | the teardown task removes whatever child is called `recording-bin`, not the bin its probe was installed for | start, stop, both probes fire, the first task runs, start again, then the second task runs | the second task finds its bin gone and does nothing, so the new recording keeps running | medium, not executed | `Recording.StaleTaskAsWritten` | `Recording.RunTaskKeepsValid` |
| src/settings.rs:110-113 | an empty RTMP entry is saved as `Some("")`, so `start_recording`'s `is_none` check no longer asks for an end-point | open the settings dialog without a location, choose another resolution, start recording | an empty entry means no location is configured | medium, not executed | `SettingsDialog.EmptyLocationAsWritten` | `SettingsDialog.OpenThenSave` |
