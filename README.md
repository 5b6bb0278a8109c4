# WhisperTux session controller and level meter, in Dafny

WhisperTux is a push-to-talk dictation tool for Linux desktops. A button or
a global hotkey starts recording from the microphone. Pressing it again stops
the recording and hands the audio to a local Whisper model on a worker thread.
The transcription is appended to a text box and typed into the focused window.

This project models the parts of the application that hold logic:

- **Session controller** (`Session`): the `WhisperTuxApp` class. It has the two flags
  `is_recording` and `is_processing`, the status label, the record button's
  enabled state, the transcription box, the log of injected texts, the error
  boxes shown, the count of audio monitors started, the queue of callbacks
  other threads have scheduled for the UI thread and the worker's progress.
  Its methods follow `_toggle_recording`, `_start_recording`,
  `_stop_recording`, the worker's `try` and `finally`,
  `_handle_transcription` and `_update_ui_recording_state` step by step.
- **Flag-level state machine** (`Session`): `Flags`, `Apply`, `Run` and `Trace`
  are a pure version of the controller's flags. The lemmas prove single flight,
  the allowed phase transitions and the end of every processing phase over any
  sequence of events. Each method of the class that changes the flags ties
  its new flags to `Apply`.
- **Transcription handling** (`Transcription`): the blank test
  (strip, lower, four markers, the exact `[BLANK_AUDIO]` test) and the
  three-way classification that decides what `_handle_transcription` appends
  and injects.
- **Level meter** (`LevelMeter`): the `WaveformVisualizer` class over real
  numbers. It covers the smoothing and decay of the level, the peak tracker,
  the recording gate, the animation flag, and the redraw choice of
  `_draw_meter` (bar width, colour band, inactive stub).
- **Settings dialog helpers** (`ShortcutOptions`, `Settings`):
  - the 138 shortcut choices, built by the same loops as the source;
  - which microphone or keyboard entry is shown for the configured device;
  - the model fallback of the dialog and of `_refresh_model_combo`;
  - the key-delay check and its early return before any setting is written;
  - the 32-character device label;
  - the status sequence of the shortcut test.
- **Python string operations** (`PyStr`): `str.strip`, `str.lower`, the `in`
  substring test and `int()` over ASCII, with their defining properties.

Work done on other threads reaches the controller the way the code delivers
it. The capture thread and the transcription worker queue callbacks for the
UI thread with `root.after(0, ...)`; the model keeps these in `pending`, and
`RunNextCallback` runs the oldest one. The worker ends in two steps. First
`WorkerQueuesResult` queues `_handle_transcription` or the error box. Then
`WorkerFinally` clears `is_processing` directly from the worker thread and
queues `_update_ui_recording_state`. A toggle can run between any two of these
steps. Two consequences follow from the code as written:

- With nothing in between (`WhisperTuxApp.FinishUninterrupted`), the "No
  speech detected" and "Text injection failed" statuses set by
  `_handle_transcription` are replaced by "Ready" as soon as the queued
  refresh runs.
- If a new session starts after the worker's `finally` but before its queued
  callbacks run (`StaleResultScenario`), the stale `_handle_transcription`
  stops the new session's meter animation. The new session then schedules no
  redraws. The queued refresh then takes the recording branch, which leaves
  the record button disabled while recording.
- If starting the worker thread raises in `_stop_recording`
  (`StuckProcessingScenario`), nothing catches it: `is_processing` stays set
  with no worker to clear it, and every later toggle is ignored
  (`OnlyWorkerEndClearsProcessing`).

Where the prose description of the application and the code differ, the model
follows the code:

- A capture device that fails to start (`record_audio`, app/main.py:871-876)
  takes the session from Recording through Processing back to Idle, because it
  schedules `_stop_recording`; the session does not return straight to Idle.
  Only an exception raised synchronously inside `_start_recording` reverts
  straight to Idle.
- The audio monitor thread is started before capture is known to have
  succeeded, and `_stop_audio_monitor` does nothing. So `monitorsStarted`
  only ever grows.

## Model

| member | source | states |
|---|---|---|
| Session.StepKeepsSingleFlight | app/main.py:851-912 | every event that changes the flags (toggle, the queued stop, the worker's finally) keeps is_recording and is_processing from both being true |
| Session.RunKeepsSingleFlight | app/main.py:851-912 | single flight holds after any sequence of events from a single-flight state |
| Session.ToggleIgnoredWhileProcessing | app/main.py:851-861 | while a transcription is processing, toggling (whether or not starting would raise) leaves the flags unchanged |
| Session.StopOnlyFromRecording | app/main.py:885-892 | stopping does nothing unless recording, and from recording always moves to Processing |
| Session.WorkerEndsProcessing | app/main.py:909-910 | from Processing, the worker's finally, reached on every outcome, returns to Idle |
| Session.PhaseTransitions | app/main.py:851-912 | phases move only Idle to Recording, Recording to Processing, Processing to Idle, or stay; never Recording straight to Idle |
| Session.CaptureFailureSession | app/main.py:871-876 | start, the queued stop after a capture failure, and the worker's finally pass through Recording, Processing, Idle and end with both flags false |
| Session.OnlyWorkerEndClearsProcessing | app/main.py:851-912 | once processing, no toggle and no queued stop changes the flags: only the worker's finally leaves Processing |
| Session.StartRaisesStaysIdle | app/main.py:880-883 | a start whose try raises leaves the flags idle |
| Session.WhisperTuxApp.constructor | app/main.py:613-614 | a new controller is idle with status "Ready", an enabled button, an empty transcript, no queued callbacks, no worker and an inactive meter |
| Session.WhisperTuxApp.UpdateUiRecordingState | app/main.py:942-958 | the status is "Recording...", "Processing..." or "Ready" by the flags; the recording branch keeps the button's state and the others disable it exactly while processing; the meter gate follows is_recording, resetting level and peak when switched off |
| Session.WhisperTuxApp.StartRecording | app/main.py:858-883 | refused with no change while recording or processing; otherwise the whole new state by raise point: no raise records with the level kept; a raise at the monitor thread starts neither monitor nor animation; a raise at the capture thread has both started; after a raise the error is shown, the session is idle with "Ready", the button enabled and the meter reset |
| Session.WhisperTuxApp.StopRecording | app/main.py:885-893 | no change unless recording; from recording the flags become processing with a worker transcribing, or with no worker at all when starting the worker thread raises, status "Processing...", button disabled, meter gate off with level and peak reset and the animation flag kept |
| Session.WhisperTuxApp.ToggleRecording | app/main.py:851-856 | the new flags are Apply of the toggle; from recording the whole state is that of a stop (with or without a worker started), while processing nothing changes, and otherwise it is that of a start |
| Session.WhisperTuxApp.CaptureStartFailed | app/main.py:871-876 | the capture thread queues the start error box and then `_stop_recording`, changing nothing else |
| Session.WhisperTuxApp.WorkerQueuesResult | app/main.py:895-908 | the worker queues `_handle_transcription` with the text or None, or the transcription error box, and nothing else changes |
| Session.WhisperTuxApp.WorkerFinally | app/main.py:909-912 | the worker's finally clears is_processing, ends the worker and queues the UI refresh, with no other change |
| Session.WhisperTuxApp.HandleTranscription | app/main.py:916-940 | the transcript gains exactly the classified text (text plus newline, nothing, or "[No speech detected]"), at most one injection of the cleaned text, the status set only for no speech or a failed injection, and the meter stopped and cleared with its gate kept |
| Session.WhisperTuxApp.RunNextCallback | app/main.py:875-912 | the oldest queued callback runs and leaves the queue: a result is handled, an error box is added, a queued stop acts as `_stop_recording` (whose worker thread may fail to start), a refresh as `_update_ui_recording_state` |
| Session.WhisperTuxApp.FinishUninterrupted | app/main.py:894-912 | with no other UI event in between, every outcome ends idle with status "Ready" and the button enabled; a failure adds the error box and keeps the transcript and the animation flag, an empty buffer appends "[No speech detected]", text is handled as classified |
| Session.WhisperTuxApp.AudioLevelTick | app/main.py:828-831 | a monitor sample smooths the level and raises the peak to the sample while recording, decays the level and keeps the peak otherwise, and schedules a redraw exactly when the animation is active |
| Session.StaleResultScenario | app/main.py:899-921 | a session started after the worker's finally but before its queued callbacks ends up recording with its animation stopped and its record button disabled, and the old text typed once |
| Session.StuckProcessingScenario | app/main.py:885-914 | when starting the worker thread raises, the app stays processing with no worker, "Processing..." shown, the record button disabled and nothing queued, and later toggles start nothing |
| Transcription.ExactMatchSubsumed | app/main.py:926 | the exact `[BLANK_AUDIO]` comparison adds nothing: blank iff the lowered text contains a marker |
| Transcription.ClassifySpec | app/main.py:923-926 | no speech iff the text is None or strips to empty; blank iff the stripped text's lowercase contains one of the four markers; otherwise speech carrying the stripped text, non-empty with no spaces at its ends |
| Transcription.HandlingSpec | app/main.py:923-940 | speech appends text plus newline and injects it once; blank appends and injects nothing; no speech appends "[No speech detected]" and injects nothing |
| Transcription.BlankAudioMarkerIsBlank | app/main.py:926 | "[BLANK_AUDIO]" is classified blank |
| Transcription.SilenceInAnyCaseIsBlank | app/main.py:925-926 | " (Silence) " is blank: the marker test ignores case and surrounding spaces |
| Transcription.PlainTextIsSpeech | app/main.py:923-930 | text without capitals or brackets and without outer spaces is speech, unchanged |
| Transcription.OrdinaryTextIsSpeech | app/main.py:923-930 | "hello world" is appended and injected as it is |
| Transcription.NoBracketNoMarker | app/main.py:925 | a text with no '(' or '[' contains none of the blank markers |
| Transcription.WhitespaceIsNoSpeech | app/main.py:923 | None and whitespace-only text are both no speech |
| ShortcutOptions.GetShortcutOptions | app/main.py:125-135 | the nested loops build exactly `Options()`: the 12 bare F-keys, then each of the 4 prefixes with each F-key, then "Ctrl+", "Ctrl+Shift+" and "Super+" for each letter A to Z |
| ShortcutOptions.RowAt | app/main.py:129-130 | the inner loop's entries are the prefix followed by each F-key in order |
| ShortcutOptions.PrefixMajorAt | app/main.py:128-130 | entry i of the prefixed F-key block is prefix i/12 plus F-key i%12 |
| ShortcutOptions.LetterColumn | app/main.py:132-134 | the three appends for one letter are that letter under "Ctrl+", "Ctrl+Shift+" and "Super+", in that order |
| ShortcutOptions.LetterMajorAt | app/main.py:131-134 | entry i of the letter block is prefix i%3 ("Ctrl+", "Ctrl+Shift+", "Super+") plus letter i/3 |
| ShortcutOptions.OptionsClosedForm | app/main.py:125-135 | the whole list has 138 entries and entry i is the closed-form option i |
| ShortcutOptions.OptionsDistinct | app/main.py:125-135 | any two different positions hold different shortcut strings |
| ShortcutOptions.OptionsDistinctAll | app/main.py:125-135 | all 138 closed-form options are pairwise distinct |
| ShortcutOptions.OptionsAreDistinct | app/main.py:125-135 | the list the method returns holds no entry twice |
| Settings.IndexOf | app/main.py:245-246 | `list.index`: None exactly when the value is absent, otherwise the first position holding it |
| Settings.ShownOptionSpec | app/main.py:243-247 | the combo box shows the entry paired with the configured value when it is listed, and the first entry otherwise |
| Settings.ShownOptionSavesBack | app/main.py:487-495 | with distinct display names, saving the shown entry writes back the configured value, or the first value when it was not listed |
| Settings.DuplicateNamesLoseTheSecondDevice | app/main.py:487-495 | two devices sharing a display name: the second is saved as the first |
| Settings.DialogModelSpec | app/main.py:150-161 | the dialog keeps a listed configured model, otherwise shows the first listed model, and never picks the placeholder when a real model is listed |
| Settings.RefreshedModelSpec | app/main.py:1068-1073 | after a refresh that listed models the setting names a listed model, a listed one is kept, and a failed listing changes nothing |
| Settings.FallbacksAgree | app/main.py:157-161 | the dialog and the refresh choose the same model whenever a real model is listed |
| Settings.KeyDelayAcceptedIff | app/main.py:497-500 | the key delay is accepted iff `int()` reads the entry as an integer of at least 1, with that value; it is "not a number" iff `int()` fails |
| Settings.KeyDelayRoundTrip | app/main.py:58 | the entry filled with `str(key_delay)` is accepted back unchanged for every delay of at least 1 |
| Settings.SaveSettings | app/main.py:483-516 | an unlisted keyboard entry or a rejected key delay returns with no setting written; otherwise exactly the key delay, shortcut, flags, keyboard, microphone and (unless the placeholder) model are written |
| Settings.SavedKeyDelay | app/main.py:501-516 | a save writes the accepted delay and touches exactly the listed keys |
| Settings.ShortenedNameSpec | app/main.py:973-976 | names over 32 characters become their first 29 plus "...", exactly 32 long; shorter names are unchanged |
| Settings.CurrentAudioDeviceNameSpec | app/main.py:964-980 | an unset device reads "System Default", a known device its shortened name, and the label never exceeds 32 characters |
| Settings.ShortcutTestSpec | app/main.py:445-481 | the test button stays disabled exactly when the test thread fails to start; stop() is called exactly when start() returned True and nothing raised before it; a raise after a successful start leaves the listener registered; success is the last status exactly when the key was pressed and stopping did not raise; an empty choice only reports "No shortcut selected" |
| Settings.RaiseAfterStartSkipsStop | app/main.py:466-479 | a raise after start() returned True (at queueing the prompt or the wait's outcome) skips stop(), leaves the listener registered, still re-enables the button, shows the prompt exactly when it was queued, never reports success or no response, and ends with the error status |
| LevelMeter.NewPeak | app/src/waveform_visualizer.py:137-139 | the peak becomes the larger of the old peak and the raw amplitude |
| LevelMeter.SmoothedInRange | app/src/waveform_visualizer.py:132-135 | a gated sample keeps the level in [0, 1] for any non-negative amplitude |
| LevelMeter.DecayNeverRises | app/src/waveform_visualizer.py:140-142 | an ungated sample never raises a non-negative level and strictly lowers a positive one |
| LevelMeter.PeakIsNotClipped | app/src/waveform_visualizer.py:135-139 | the peak follows an amplitude above 1 while the level stays at most 1 |
| LevelMeter.RiseClosedForm | app/src/waveform_visualizer.py:135 | from an empty meter, k full-amplitude samples give exactly 1 - 0.7^k |
| LevelMeter.RiseIncreasesBelowOne | app/src/waveform_visualizer.py:135 | that rise is strictly increasing and stays below 1 |
| LevelMeter.DecayClosedForm | app/src/waveform_visualizer.py:142 | k ungated samples scale the level by exactly 0.9^k |
| LevelMeter.BandThresholds | app/src/waveform_visualizer.py:86-91 | the band is low below 0.5, mid on [0.5, 0.8) and high from 0.8 |
| LevelMeter.LevelWidthBounded | app/src/waveform_visualizer.py:82 | the bar width never exceeds the meter width, is positive only for a positive meter, and fills it at level 1 |
| LevelMeter.BarDrawnIff | app/src/waveform_visualizer.py:84-107 | the coloured bar is drawn exactly when its width is positive and recording, and the inactive stub exactly when not recording |
| LevelMeter.WaveformVisualizer.constructor | app/src/waveform_visualizer.py:22-25 | a new meter has level and peak 0, the gate off and animation inactive |
| LevelMeter.WaveformVisualizer.UpdateAudioData | app/src/waveform_visualizer.py:126-146 | gated: the level is smoothed and the peak raised to the amplitude; ungated: the level decays and the peak stays; a redraw is scheduled exactly when active |
| LevelMeter.WaveformVisualizer.SetRecordingState | app/src/waveform_visualizer.py:148-161 | the gate takes the new value; switching it off resets level and peak and makes every redraw the inactive stub, switching it on keeps them |
| LevelMeter.WaveformVisualizer.ClearWaveform | app/src/waveform_visualizer.py:168-173 | level and peak become 0, so no redraw shows a level bar; the gate and the active flag are untouched |
| LevelMeter.WaveformVisualizer.StartAnimation | app/src/waveform_visualizer.py:175-177 | only sets the active flag |
| LevelMeter.WaveformVisualizer.StopAnimation | app/src/waveform_visualizer.py:179-181 | only clears the active flag |
| PyStr.StripSpec | app/main.py:923-924 | `strip` drops exactly the outer whitespace: everything before its start and after its end is whitespace, its first and last characters are not, and it is empty iff the text is all whitespace |
| PyStr.StripUnpadded | app/main.py:924 | a text that is empty or has no whitespace at either end is unchanged by `strip` |
| PyStr.StripIdempotent | app/main.py:497-499 | stripping twice (the entry, then `int()`) is stripping once |
| PyStr.Lower | app/main.py:926 | lowercases each ASCII capital and keeps every other character, length unchanged |
| PyStr.LowerIdempotent | app/main.py:926 | a lowered text has no capitals and lowering it again changes nothing |
| PyStr.ContainsIff | app/main.py:926 | the `in` test holds iff the marker occurs at some position |
| PyStr.ParseIntToString | app/main.py:499 | `int(str(v)) == v` for every integer v |

## Left out

- Threads and scheduling: real interleavings of the capture, worker, monitor and
  test threads are not modelled. Each cross-thread delivery is an explicit event
  applied in the order its callbacks are queued.
- The audio monitor loop (app/main.py:809-826) is an unbounded polling thread.
  The model counts how many are started and feeds its samples in through
  `AudioLevelTick`.
- Collaborators whose code is not part of this model are parameters of the
  events: AudioCapture, WhisperManager, TextInjector, ConfigManager,
  GlobalShortcuts and the keyboard listing. Their results are an empty buffer, a
  text or an exception; a start that raises; an injection that raises. The
  configuration store is a map written through `set_setting`.
- Session.WhisperTuxApp.StartRecording: a raise inside `_update_ui_recording_state`
  (a widget call) is not one of the raise points, because the widgets are not
  modelled; raises at the monitor thread and at the capture thread are.
- Session.WhisperTuxApp.StopRecording: a raise inside the refresh
  `_update_ui_recording_state` (a widget call) is not one of the raise points,
  because the widgets are not modelled; a raise at starting the worker thread
  is.
- Level samples from the monitor are applied when they arrive. Their place in
  the callback queue among the other `root.after` callbacks is not modelled.
- The checks `hasattr(self, 'root') and self.root` before each queued callback
  are taken to hold: closing the window during a session is not modelled.
- Session.WhisperTuxApp.AudioLevelTick: assumes the monitor's samples are not
  negative, because `get_audio_level` is not part of this model.
- Widgets, colours, fonts, layout, canvas drawing calls, message boxes and the
  logo are not modelled. Only the status text, the button's enabled state, the
  transcription text, the error boxes shown and the meter's choice of what to
  draw are kept.
- Settings.SaveSettings: stops after the settings are written. Saving the file,
  switching the audio device, the window topmost flag and re-registering the
  shortcut (app/main.py:523-550) are calls into collaborators and are left out.
- The model download (app/main.py:1036-1058) is an external process.
- Levels are exact reals: IEEE floating-point rounding is not modelled.
- Strings are ASCII: `strip` uses the ASCII whitespace that `str.isspace`
  accepts, and `lower` only maps A to Z. Unicode whitespace and case mappings
  are not modelled.
- PyStr.ParseInt: reads an optional sign and ASCII digits after stripping.
  Underscore separators and non-ASCII digits, which Python's `int()` also
  accepts, are not modelled.
- The shortcut test's five-second wait is a boolean in the model: the key was
  pressed in time or it was not.
