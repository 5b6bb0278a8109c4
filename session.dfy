/**
 * The recording session controller of the main window: the two flags
 * is_recording and is_processing, the transitions that toggle, start, stop
 * and finish a session, and what a finished session leaves in the
 * transcription box, the text injector, the status label and the level
 * meter.
 *
 * Work the controller hands to other threads (starting the capture device,
 * stopping it and transcribing) comes back here as explicit events, applied
 * one at a time in the order the code queues their callbacks.
 */
module Session {
  import opened Wrappers
  import LevelMeter
  import opened Transcription

  /** The controller's two flags. */
  datatype Flags = Flags(recording: bool, processing: bool)

  const IdleFlags: Flags := Flags(false, false)

  /** At most one session is recording or processing. */
  predicate SingleFlight(f: Flags) {
    !(f.recording && f.processing)
  }

  /** The state _update_ui_recording_state displays. */
  datatype Phase = Idle | Recording | Processing

  function PhaseOf(f: Flags): Phase {
    if f.recording then Recording else if f.processing then Processing else Idle
  }

  /** How the transcription worker ended. */
  datatype WorkerOutcome =
    | EmptyBuffer              // stop_recording gave None or no samples
    | Transcribed(text: string)
    | TranscriptionFailed      // stop_recording or transcribe_audio raised

  /**
   * Events that change the flags. Every other event (an error box, a queued
   * transcription result, a UI refresh, a level sample) leaves them alone.
   */
  datatype Event =
    | Toggle(startRaises: bool)  // button or hotkey; the flag: _start_recording's try raised
    | QueuedStop                 // the _stop_recording a failed capture start queues
    | WorkerEnd                  // the worker's finally sets is_processing to False

  /** _start_recording on the flags. */
  function StartFlags(f: Flags, startRaises: bool): Flags {
    if f.recording || f.processing then f
    else if startRaises then Flags(false, f.processing)
    else Flags(true, f.processing)
  }

  /** _stop_recording on the flags. */
  function StopFlags(f: Flags): Flags {
    if !f.recording then f else Flags(false, true)
  }

  function Apply(f: Flags, e: Event): Flags {
    match e
    case Toggle(startRaises) => if f.recording then StopFlags(f) else StartFlags(f, startRaises)
    case QueuedStop => StopFlags(f)
    case WorkerEnd => Flags(f.recording, false)
  }

  /** The flags after a sequence of events. */
  function Run(f: Flags, events: seq<Event>): Flags
    decreases |events|
  {
    if events == [] then f else Run(Apply(f, events[0]), events[1..])
  }

  /** The phase after each event of a sequence. */
  function Trace(f: Flags, events: seq<Event>): (phases: seq<Phase>)
    ensures |phases| == |events|
    decreases |events|
  {
    if events == [] then [] else [PhaseOf(Apply(f, events[0]))] + Trace(Apply(f, events[0]), events[1..])
  }

  /** Every event keeps single flight. */
  lemma StepKeepsSingleFlight(f: Flags, e: Event)
    requires SingleFlight(f)
    ensures SingleFlight(Apply(f, e))
  {
  }

  /** Single flight holds after every sequence of events from a single-flight state. */
  lemma {:induction false} RunKeepsSingleFlight(f: Flags, events: seq<Event>)
    requires SingleFlight(f)
    ensures SingleFlight(Run(f, events))
    decreases |events|
  {
    if events != [] {
      StepKeepsSingleFlight(f, events[0]);
      RunKeepsSingleFlight(Apply(f, events[0]), events[1..]);
    }
  }

  /** Toggling while a transcription is processing changes nothing. */
  lemma ToggleIgnoredWhileProcessing(f: Flags, startRaises: bool)
    requires SingleFlight(f) && f.processing
    ensures Apply(f, Toggle(startRaises)) == f
  {
  }

  /** Stopping does nothing unless recording, and from recording always moves to processing. */
  lemma StopOnlyFromRecording(f: Flags)
    requires SingleFlight(f)
    ensures !f.recording ==> StopFlags(f) == f
    ensures f.recording ==> PhaseOf(StopFlags(f)) == Processing
  {
  }

  /** Processing is never stuck: the worker's finally, reached on every outcome, returns to idle. */
  lemma WorkerEndsProcessing(f: Flags)
    requires SingleFlight(f) && PhaseOf(f) == Processing
    ensures PhaseOf(Apply(f, WorkerEnd)) == Idle
  {
  }

  /**
   * The phases move only Idle -> Recording -> Processing -> Idle; in
   * particular no event takes Recording straight back to Idle.
   */
  lemma PhaseTransitions(f: Flags, e: Event)
    requires SingleFlight(f)
    ensures var p, q := PhaseOf(f), PhaseOf(Apply(f, e));
      || p == q
      || (p == Idle && q == Recording)
      || (p == Recording && q == Processing)
      || (p == Processing && q == Idle)
  {
  }

  /** A session whose capture device fails to start passes through Processing on its way back to Idle. */
  lemma CaptureFailureSession()
    ensures Trace(IdleFlags, [Toggle(false), QueuedStop, WorkerEnd]) == [Recording, Processing, Idle]
    ensures Run(IdleFlags, [Toggle(false), QueuedStop, WorkerEnd]) == IdleFlags
  {
    var es := [Toggle(false), QueuedStop, WorkerEnd];
    var recording, processing := Flags(true, false), Flags(false, true);
    assert Apply(IdleFlags, es[0]) == recording;
    assert Apply(recording, es[1]) == processing;
    assert Apply(processing, es[2]) == IdleFlags;
    assert es[1..] == [QueuedStop, WorkerEnd];
    assert es[1..][1..] == [WorkerEnd];
    assert es[1..][1..][1..] == [];
    assert Run(processing, es[1..][1..]) == IdleFlags;
    assert Run(recording, es[1..]) == IdleFlags;
    assert Trace(processing, es[1..][1..]) == [Idle];
    assert Trace(recording, es[1..]) == [Processing, Idle];
  }

  /** Only the worker's finally clears is_processing. */
  lemma {:induction false} OnlyWorkerEndClearsProcessing(f: Flags, events: seq<Event>)
    requires SingleFlight(f) && f.processing && WorkerEnd !in events
    ensures Run(f, events) == f
    decreases |events|
  {
    if events != [] {
      assert events[0] in events;
      assert Apply(f, events[0]) == f;
      assert forall e :: e in events[1..] ==> e in events;
      OnlyWorkerEndClearsProcessing(f, events[1..]);
    }
  }

  /** A start that raises synchronously never leaves Idle. */
  lemma StartRaisesStaysIdle()
    ensures Apply(IdleFlags, Toggle(true)) == IdleFlags
  {
  }

  /** A message box the controller shows. */
  datatype ErrorReport =
    | StartFailedReport          // "Failed to start recording: ..."
    | TranscriptionFailedReport  // "Transcription failed: ..."

  /** Where the try of _start_recording raised, if it did. */
  datatype StartRaise =
    | NoRaise
    | AtMonitorStart        // starting the audio monitor thread raised
    | AtCaptureThreadStart  // starting the capture thread raised

  /** A callback another thread queued for the UI thread with root.after(0, ...). */
  datatype Callback =
    | HandleTranscriptionCall(transcription: Option<string>)
    | ShowErrorCall(report: ErrorReport)
    | StopRecordingCall
    | UpdateUiCall

  /** How far the transcription worker of the current session has got. */
  datatype WorkerStage =
    | NoWorker
    | Transcribing  // stopping the capture device and transcribing
    | ResultQueued  // its result or its error box is queued; its finally has not run yet

  /** The status label after _handle_transcription, given the label before it. */
  function HandledStatus(c: Classification, injectionRaises: bool, before: string): string {
    match c
    case NoSpeech => "No speech detected"
    case Blank => before
    case Speech(_) => if injectionRaises then "Text injection failed" else before
  }

  /** The callback a worker queues for its outcome. */
  function ResultCallback(outcome: WorkerOutcome): Callback {
    match outcome
    case EmptyBuffer => HandleTranscriptionCall(None)
    case Transcribed(text) => HandleTranscriptionCall(Some(text))
    case TranscriptionFailed => ShowErrorCall(TranscriptionFailedReport)
  }

  /** The main window's session state. */
  class WhisperTuxApp {
    var isRecording: bool
    var isProcessing: bool
    /** The status label's text. */
    var status: string
    /** Whether the record button accepts clicks. */
    var recordButtonEnabled: bool
    /** The transcription box's text. */
    var transcript: string
    /** Every text handed to text_injector.inject_text, in order. */
    var injected: seq<string>
    /** The error message boxes shown, in order. */
    var errors: seq<ErrorReport>
    /** Audio monitor threads started; _stop_audio_monitor stops none. */
    var monitorsStarted: nat
    /** Callbacks queued for the UI thread and not yet run, oldest first. */
    var pending: seq<Callback>
    /** The transcription worker's progress. */
    var worker: WorkerStage
    const meter: LevelMeter.WaveformVisualizer

    function State(): Flags
      reads this
    {
      Flags(isRecording, isProcessing)
    }

    /** Single flight, and the meter's gate follows is_recording. */
    ghost predicate MeterInSync()
      reads this, meter
    {
      && SingleFlight(State())
      && meter.Valid()
      && meter.recordingState == isRecording
    }

    /**
     * A worker runs only while processing (processing without a worker is the
     * state a failed worker start leaves), the button is disabled while
     * processing, and once no UI refresh is queued an idle controller has an
     * enabled button.
     */
    ghost predicate Valid()
      reads this, meter
    {
      && MeterInSync()
      && (worker != NoWorker ==> isProcessing)
      && (isProcessing ==> !recordButtonEnabled)
      && (PhaseOf(State()) == Idle && UpdateUiCall !in pending ==> recordButtonEnabled)
    }

    /** Everything but the queue and the error boxes is as it was. */
    twostate predicate Kept()
      reads this, meter
    {
      && State() == old(State()) && worker == old(worker)
      && status == old(status) && recordButtonEnabled == old(recordButtonEnabled)
      && transcript == old(transcript) && injected == old(injected)
      && monitorsStarted == old(monitorsStarted)
      && meter.currentLevel == old(meter.currentLevel) && meter.peakLevel == old(meter.peakLevel)
      && meter.recordingState == old(meter.recordingState) && meter.isActive == old(meter.isActive)
      && meter.scheduledDraws == old(meter.scheduledDraws)
    }

    /** What _update_ui_recording_state leaves: label, button and meter gate follow the flags. */
    twostate predicate Refreshed()
      reads this, meter
    {
      && State() == old(State()) && worker == old(worker)
      && status == (if isRecording then "Recording..." else if isProcessing then "Processing..." else "Ready")
      && recordButtonEnabled == (if isRecording then old(recordButtonEnabled) else !isProcessing)
      && meter.recordingState == isRecording
      && (isRecording ==> meter.currentLevel == old(meter.currentLevel) && meter.peakLevel == old(meter.peakLevel))
      && (!isRecording ==> meter.currentLevel == 0.0 && meter.peakLevel == 0.0)
      && meter.isActive == old(meter.isActive) && meter.scheduledDraws == old(meter.scheduledDraws)
      && transcript == old(transcript) && injected == old(injected)
      && errors == old(errors) && monitorsStarted == old(monitorsStarted)
    }

    /** What _start_recording leaves when it is not refused. */
    twostate predicate Started(raiseAt: StartRaise)
      reads this, meter
    {
      && State() == (if raiseAt == NoRaise then Flags(true, false) else IdleFlags)
      && worker == old(worker)
      && monitorsStarted == old(monitorsStarted) + (if raiseAt == AtMonitorStart then 0 else 1)
      && meter.isActive == (raiseAt != AtMonitorStart || old(meter.isActive))
      && errors == old(errors) + (if raiseAt == NoRaise then [] else [StartFailedReport])
      && status == (if raiseAt == NoRaise then "Recording..." else "Ready")
      && recordButtonEnabled == (raiseAt != NoRaise || old(recordButtonEnabled))
      && meter.recordingState == (raiseAt == NoRaise)
      && (raiseAt == NoRaise ==> meter.currentLevel == old(meter.currentLevel) && meter.peakLevel == old(meter.peakLevel))
      && (raiseAt != NoRaise ==> meter.currentLevel == 0.0 && meter.peakLevel == 0.0)
      && meter.scheduledDraws == old(meter.scheduledDraws)
      && transcript == old(transcript) && injected == old(injected)
    }

    /**
     * What _stop_recording leaves when it was recording: a worker is
     * transcribing, or none if starting its thread raised.
     */
    twostate predicate Stopped(workerStartRaises: bool)
      reads this, meter
    {
      && State() == Flags(false, true) && worker == (if workerStartRaises then NoWorker else Transcribing)
      && status == "Processing..." && !recordButtonEnabled
      && !meter.recordingState && meter.currentLevel == 0.0 && meter.peakLevel == 0.0
      && meter.isActive == old(meter.isActive) && meter.scheduledDraws == old(meter.scheduledDraws)
      && transcript == old(transcript) && injected == old(injected)
      && errors == old(errors) && monitorsStarted == old(monitorsStarted)
    }

    /** What _handle_transcription leaves: the meter stopped and cleared, the result appended and typed. */
    twostate predicate Handled(c: Classification, injectionRaises: bool)
      reads this, meter
    {
      && State() == old(State()) && worker == old(worker)
      && transcript == old(transcript) + AppendedText(c)
      && injected == old(injected) + Injected(c)
      && status == HandledStatus(c, injectionRaises, old(status))
      && !meter.isActive && meter.currentLevel == 0.0 && meter.peakLevel == 0.0
      && meter.recordingState == old(meter.recordingState) && meter.scheduledDraws == old(meter.scheduledDraws)
      && recordButtonEnabled == old(recordButtonEnabled)
      && errors == old(errors) && monitorsStarted == old(monitorsStarted)
    }

    constructor ()
      ensures Valid() && fresh(meter)
      ensures State() == IdleFlags && status == "Ready" && recordButtonEnabled
      ensures transcript == [] && injected == [] && errors == [] && monitorsStarted == 0
      ensures pending == [] && worker == NoWorker
      ensures !meter.isActive
    {
      isRecording := false;
      isProcessing := false;
      status := "Ready";
      recordButtonEnabled := true;
      transcript := [];
      injected := [];
      errors := [];
      monitorsStarted := 0;
      pending := [];
      worker := NoWorker;
      meter := new LevelMeter.WaveformVisualizer();
    }

    /**
     * _update_ui_recording_state. The recording branch leaves the button's
     * enabled state alone; the other two disable it exactly while processing.
     */
    method UpdateUiRecordingState()
      requires SingleFlight(State()) && meter.Valid()
      modifies this`status, this`recordButtonEnabled, meter
      ensures MeterInSync()
      ensures Refreshed()
    {
      if isRecording {
        status := "Recording...";
        meter.SetRecordingState(true);
      } else if isProcessing {
        status := "Processing...";
        recordButtonEnabled := false;
        meter.SetRecordingState(false);
      } else {
        status := "Ready";
        recordButtonEnabled := true;
        meter.SetRecordingState(false);
      }
    }

    /**
     * _start_recording. Refused while recording or processing. Otherwise the
     * monitor and the meter's animation start before the capture thread; if
     * starting a thread raises, the error is shown and the session goes
     * straight back to idle.
     */
    method StartRecording(raiseAt: StartRaise)
      requires Valid()
      modifies this, meter
      ensures Valid()
      ensures State() == StartFlags(old(State()), raiseAt != NoRaise)
      ensures old(isRecording || isProcessing) ==> unchanged(this) && unchanged(meter)
      ensures !old(isRecording || isProcessing) ==> Started(raiseAt)
      ensures pending == old(pending)
    {
      if isRecording || isProcessing {
        return;
      }
      isRecording := true;
      UpdateUiRecordingState();
      if raiseAt != AtMonitorStart {
        monitorsStarted := monitorsStarted + 1;
        meter.StartAnimation();
      }
      if raiseAt != NoRaise {
        errors := errors + [StartFailedReport];
        isRecording := false;
        UpdateUiRecordingState();
      }
    }

    /**
     * _stop_recording. Does nothing unless recording; otherwise hands the
     * buffer to a new worker. Starting the worker's thread is outside any try:
     * if it raises, processing stays set with no worker to clear it.
     */
    method StopRecording(workerStartRaises: bool)
      requires Valid()
      modifies this, meter
      ensures Valid()
      ensures State() == StopFlags(old(State()))
      ensures !old(isRecording) ==> unchanged(this) && unchanged(meter)
      ensures old(isRecording) ==> Stopped(workerStartRaises)
      ensures pending == old(pending)
    {
      if !isRecording {
        return;
      }
      isRecording := false;
      isProcessing := true;
      UpdateUiRecordingState();
      if !workerStartRaises {
        worker := Transcribing;
      }
    }

    /** _toggle_recording: stop when recording, otherwise try to start. */
    method ToggleRecording(raiseAt: StartRaise, workerStartRaises: bool)
      requires Valid()
      modifies this, meter
      ensures Valid()
      ensures State() == Apply(old(State()), Toggle(raiseAt != NoRaise))
      ensures old(isRecording) ==> Stopped(workerStartRaises)
      ensures old(isProcessing) ==> unchanged(this) && unchanged(meter)
      ensures !old(isRecording) && !old(isProcessing) ==> Started(raiseAt)
      ensures pending == old(pending)
    {
      if isRecording {
        StopRecording(workerStartRaises);
      } else {
        StartRecording(raiseAt);
      }
    }

    /** The capture thread's start_recording raised: it queues an error box, then _stop_recording. */
    method CaptureStartFailed()
      requires Valid()
      modifies this`pending
      ensures Valid()
      ensures pending == old(pending) + [ShowErrorCall(StartFailedReport), StopRecordingCall]
    {
      pending := pending + [ShowErrorCall(StartFailedReport), StopRecordingCall];
    }

    /** The worker's try ends: it queues _handle_transcription, or the error box if it raised. */
    method WorkerQueuesResult(outcome: WorkerOutcome)
      requires Valid() && worker == Transcribing
      modifies this`pending, this`worker
      ensures Valid() && worker == ResultQueued
      ensures pending == old(pending) + [ResultCallback(outcome)]
    {
      pending := pending + [ResultCallback(outcome)];
      worker := ResultQueued;
    }

    /**
     * The worker's finally: it clears is_processing from its own thread, then
     * queues _update_ui_recording_state.
     */
    method WorkerFinally()
      requires Valid() && worker == ResultQueued
      modifies this`isProcessing, this`worker, this`pending
      ensures Valid()
      ensures State() == Apply(old(State()), WorkerEnd) && State() == IdleFlags
      ensures worker == NoWorker
      ensures pending == old(pending) + [UpdateUiCall]
    {
      isProcessing := false;
      worker := NoWorker;
      pending := pending + [UpdateUiCall];
    }

    /**
     * _handle_transcription: the meter stops animating and is cleared; speech
     * is appended and typed once, a blank marker is dropped, and no speech
     * appends "[No speech detected]". A failed injection only sets the status.
     */
    method HandleTranscription(transcription: Option<string>, injectionRaises: bool)
      requires Valid()
      modifies this, meter
      ensures Valid()
      ensures Handled(Classify(transcription), injectionRaises)
      ensures pending == old(pending)
    {
      meter.StopAnimation();
      meter.ClearWaveform();
      RecordResult(Classify(transcription), injectionRaises);
    }

    /** The branches of _handle_transcription after the meter is reset. */
    method RecordResult(c: Classification, injectionRaises: bool)
      modifies this`transcript, this`injected, this`status
      ensures transcript == old(transcript) + AppendedText(c)
      ensures injected == old(injected) + Injected(c)
      ensures status == HandledStatus(c, injectionRaises, old(status))
    {
      match c
      case Speech(text) =>
        transcript := transcript + (text + "\n");
        injected := injected + [text];
        if injectionRaises {
          status := "Text injection failed";
        }
      case Blank =>
      case NoSpeech =>
        status := "No speech detected";
        transcript := transcript + "[No speech detected]\n";
    }

    /** The UI thread runs the oldest queued callback. */
    method RunNextCallback(injectionRaises: bool, workerStartRaises: bool)
      requires Valid() && pending != []
      modifies this, meter
      ensures Valid()
      ensures pending == old(pending[1..])
      ensures match old(pending[0])
        case HandleTranscriptionCall(t) => Handled(Classify(t), injectionRaises)
        case ShowErrorCall(report) => errors == old(errors) + [report] && Kept()
        case StopRecordingCall =>
          && State() == Apply(old(State()), QueuedStop)
          && (if old(isRecording) then Stopped(workerStartRaises) else errors == old(errors) && Kept())
        case UpdateUiCall => Refreshed()
    {
      var call := pending[0];
      assert pending == [call] + pending[1..];
      pending := pending[1..];
      match call {
        case HandleTranscriptionCall(t) =>
          HandleTranscription(t, injectionRaises);
        case ShowErrorCall(report) =>
          errors := errors + [report];
        case StopRecordingCall =>
          StopRecording(workerStartRaises);
        case UpdateUiCall =>
          UpdateUiRecordingState();
      }
    }

    /**
     * A worker's end with no other UI event in between: the result, the
     * finally and both queued callbacks. The status set by
     * _handle_transcription is overwritten by "Ready".
     */
    method FinishUninterrupted(outcome: WorkerOutcome, injectionRaises: bool)
      requires Valid() && worker == Transcribing && pending == []
      modifies this, meter
      ensures Valid()
      ensures State() == IdleFlags && worker == NoWorker && pending == []
      ensures status == "Ready" && recordButtonEnabled
      ensures outcome.TranscriptionFailed? ==>
        && transcript == old(transcript) && injected == old(injected)
        && errors == old(errors) + [TranscriptionFailedReport]
        && meter.isActive == old(meter.isActive)
      ensures outcome == EmptyBuffer ==>
        transcript == old(transcript) + "[No speech detected]\n" && injected == old(injected)
        && errors == old(errors)
      ensures outcome.Transcribed? ==>
        transcript == old(transcript) + AppendedText(Classify(Some(outcome.text)))
        && injected == old(injected) + Injected(Classify(Some(outcome.text)))
        && errors == old(errors)
      ensures !outcome.TranscriptionFailed? ==> !meter.isActive
      ensures meter.currentLevel == 0.0 && meter.peakLevel == 0.0 && !meter.recordingState
      ensures meter.scheduledDraws == old(meter.scheduledDraws)
      ensures monitorsStarted == old(monitorsStarted)
    {
      WorkerQueuesResult(outcome);
      WorkerFinally();
      assert pending == [ResultCallback(outcome), UpdateUiCall];
      RunNextCallback(injectionRaises, false);
      assert pending == [UpdateUiCall];
      RunNextCallback(injectionRaises, false);
    }

    /** _update_audio_level: a sample from a running monitor thread reaches the meter. */
    method AudioLevelTick(level: real)
      requires Valid() && monitorsStarted > 0 && 0.0 <= level
      modifies meter
      ensures Valid()
      ensures isRecording ==> meter.currentLevel == LevelMeter.Smoothed(old(meter.currentLevel), level)
      ensures isRecording ==> meter.peakLevel == LevelMeter.NewPeak(old(meter.peakLevel), level)
      ensures !isRecording ==> meter.currentLevel == LevelMeter.Decayed(old(meter.currentLevel))
      ensures !isRecording ==> meter.peakLevel == old(meter.peakLevel)
      ensures meter.recordingState == old(meter.recordingState) && meter.isActive == old(meter.isActive)
      ensures meter.scheduledDraws == old(meter.scheduledDraws) + if meter.isActive then 1 else 0
    {
      meter.UpdateAudioData(level);
    }
  }

  /**
   * One session recorded and transcribed "hello world"; its worker has run
   * its finally, but neither queued callback has run yet.
   */
  method FinishedButNotDelivered() returns (app: WhisperTuxApp)
    ensures fresh(app) && fresh(app.meter) && app.Valid()
    ensures app.State() == IdleFlags && app.worker == NoWorker && !app.recordButtonEnabled
    ensures app.pending == [HandleTranscriptionCall(Some("hello world")), UpdateUiCall]
    ensures app.monitorsStarted == 1 && app.injected == []
  {
    app := new WhisperTuxApp();
    app.ToggleRecording(NoRaise, false);
    assert app.State() == Flags(true, false) && app.monitorsStarted == 1;
    app.ToggleRecording(NoRaise, false);
    assert app.worker == Transcribing && app.pending == [] && !app.recordButtonEnabled;
    app.WorkerQueuesResult(Transcribed("hello world"));
    app.WorkerFinally();
  }

  /**
   * A worker's result is still queued when its finally has cleared
   * is_processing, so a new session can start in between. The stale
   * _handle_transcription then stops the new session's animation, and the
   * queued refresh takes the recording branch, which leaves the record
   * button disabled.
   */
  method StaleResultScenario() returns (app: WhisperTuxApp)
    ensures app.State() == Flags(true, false) && app.status == "Recording..."
    ensures !app.meter.isActive && !app.recordButtonEnabled
    ensures app.injected == ["hello world"]
    ensures app.monitorsStarted == 2 && app.pending == [] && app.worker == NoWorker
  {
    app := FinishedButNotDelivered();
    app.ToggleRecording(NoRaise, false);
    assert app.State() == Flags(true, false) && app.monitorsStarted == 2 && !app.recordButtonEnabled;
    OrdinaryTextIsSpeech();
    app.RunNextCallback(false, false);
    assert app.pending == [UpdateUiCall] && !app.meter.isActive && app.injected == ["hello world"];
    app.RunNextCallback(false, false);
  }

  /**
   * A stop whose worker thread fails to start leaves processing set with no
   * worker; every later toggle is refused, and only a worker's finally could
   * clear the flag.
   */
  method StuckProcessingScenario() returns (app: WhisperTuxApp)
    ensures app.State() == Flags(false, true) && app.worker == NoWorker
    ensures app.status == "Processing..." && !app.recordButtonEnabled
    ensures app.pending == [] && app.monitorsStarted == 1
  {
    app := new WhisperTuxApp();
    app.ToggleRecording(NoRaise, false);
    app.ToggleRecording(NoRaise, true);
    assert app.State() == Flags(false, true) && app.worker == NoWorker;
    app.ToggleRecording(NoRaise, false);
    app.ToggleRecording(AtCaptureThreadStart, false);
  }
}
