/**
 * The settings dialog's logic, apart from its widgets: which combo-box entry
 * shows the configured device, which model the dialog and the model refresh
 * fall back to, whether a key delay is accepted, what a save writes, how the
 * main window names the current microphone, and what the shortcut test
 * reports.
 */
module Settings {
  import opened Wrappers
  import opened PyStr

  /** `xs.index(x)`: the first position holding `x`, or None where Python raises ValueError. */
  function IndexOf<T(==)>(xs: seq<T>, x: T): (r: Option<nat>)
    ensures r.None? <==> x !in xs
    ensures r.Some? ==> r.value < |xs| && xs[r.value] == x
    ensures r.Some? ==> forall k :: 0 <= k < r.value ==> xs[k] != x
  {
    if xs == [] then None
    else if xs[0] == x then Some(0)
    else match IndexOf(xs[1..], x)
      case None => None
      case Some(i) => Some(i + 1)
  }

  /** `values.index(x) if x in values else 0`. */
  function IndexOrDefault<T(==)>(values: seq<T>, x: T): nat {
    match IndexOf(values, x)
    case Some(i) => i
    case None => 0
  }

  /**
   * The entry the microphone and keyboard combo boxes start on: the one paired
   * with the configured value, or the first ("System Default",
   * "Auto-detect (All Keyboards)") when the configured value is not listed.
   */
  function ShownOption<T(==)>(options: seq<string>, values: seq<T>, configured: T): string
    requires |options| == |values| > 0
  {
    options[IndexOrDefault(values, configured)]
  }

  /** The shown entry is paired with the configured value, or is the first entry. */
  lemma ShownOptionSpec<T>(options: seq<string>, values: seq<T>, configured: T)
    requires |options| == |values| > 0
    ensures configured in values ==> exists k :: 0 <= k < |values| && values[k] == configured && ShownOption(options, values, configured) == options[k]
    ensures configured !in values ==> ShownOption(options, values, configured) == options[0]
  {
    if configured in values {
      var k := IndexOrDefault(values, configured);
      assert values[k] == configured;
    }
  }

  /**
   * Opening the dialog and saving without touching the combo box writes the
   * configured value back, provided no two entries share a display name; a
   * configured value that is not listed is replaced by the first value.
   */
  lemma ShownOptionSavesBack<T>(options: seq<string>, values: seq<T>, configured: T)
    requires |options| == |values| > 0
    requires forall i, j :: 0 <= i < j < |options| ==> options[i] != options[j]
    ensures var saved := values[IndexOrDefault(options, ShownOption(options, values, configured))];
      && (configured in values ==> saved == configured)
      && (configured !in values ==> saved == values[0])
  {
    var k := IndexOrDefault(values, configured);
    var shown := options[k];
    var j := IndexOrDefault(options, shown);
    assert options[j] == shown;
  }

  /** Two devices with the same display name: the second one cannot be saved back. */
  lemma DuplicateNamesLoseTheSecondDevice()
    ensures var options, values := ["System Default", "USB Mic", "USB Mic"], ["", "a", "b"];
      values[IndexOrDefault(options, ShownOption(options, values, "b"))] == "a"
  {
  }

  const NoModelsFound: string := "No models found"

  /**
   * The model the dialog's combo box starts on. `found` is what the model
   * manager listed (None when listing raised); `configured` is the `model`
   * setting, which is also the variable's initial value.
   */
  function DialogModel(configured: string, found: Option<seq<string>>): string {
    var available := if found.None? || found.value == [] then [NoModelsFound] else found.value;
    if configured in available then configured
    else if available[0] != NoModelsFound then available[0]
    else configured
  }

  /** The `model` setting after _refresh_model_combo (None: listing raised, nothing changes). */
  function RefreshedModel(configured: string, found: Option<seq<string>>): string {
    if found.Some? && found.value != [] && configured !in found.value then found.value[0]
    else configured
  }

  /** The dialog keeps a listed model and otherwise falls back to the first listed one. */
  lemma DialogModelSpec(configured: string, found: Option<seq<string>>)
    ensures configured in (if found.Some? then found.value else []) ==> DialogModel(configured, found) == configured
    ensures var m := DialogModel(configured, found);
      m == configured || (found.Some? && found.value != [] && m == found.value[0] && configured !in found.value)
    ensures found.Some? && found.value != [] && found.value[0] != NoModelsFound ==> DialogModel(configured, found) in found.value
  {
  }

  /** After a refresh that listed models, the setting names a listed model; a listed one is kept. */
  lemma RefreshedModelSpec(configured: string, found: seq<string>)
    ensures found != [] ==> RefreshedModel(configured, Some(found)) in found
    ensures configured in found ==> RefreshedModel(configured, Some(found)) == configured
    ensures RefreshedModel(configured, None) == configured
  {
  }

  /** Both fallbacks pick the same model whenever a real model was listed. */
  lemma FallbacksAgree(configured: string, found: seq<string>)
    requires found != [] && found[0] != NoModelsFound
    ensures DialogModel(configured, Some(found)) == RefreshedModel(configured, Some(found))
  {
  }

  /** Outcome of checking the key-delay entry. */
  datatype KeyDelay =
    | DelayAccepted(ms: int)
    | NotANumber    // "Key delay must be a valid number."
    | NotPositive   // "Key delay must be a positive integer (minimum 1ms)."

  /** The key-delay entry, stripped and passed to `int`, accepted from 1 ms up. */
  function CheckKeyDelay(entry: string): KeyDelay {
    match ParseInt(Strip(entry))
    case None => NotANumber
    case Some(v) => if v < 1 then NotPositive else DelayAccepted(v)
  }

  /** The entry is accepted exactly when `int` reads it as an integer of at least 1. */
  lemma KeyDelayAcceptedIff(entry: string)
    ensures CheckKeyDelay(entry).DelayAccepted? <==> ParseInt(entry).Some? && ParseInt(entry).value >= 1
    ensures CheckKeyDelay(entry).DelayAccepted? ==> CheckKeyDelay(entry).ms == ParseInt(entry).value
    ensures CheckKeyDelay(entry) == NotANumber <==> ParseInt(entry).None?
  {
    StripIdempotent(entry);
  }

  /** The entry is filled with `str(key_delay)`, which is accepted back unchanged when at least 1. */
  lemma KeyDelayRoundTrip(ms: int)
    requires ms >= 1
    ensures CheckKeyDelay(IntToString(ms)) == DelayAccepted(ms)
  {
    ParseIntToString(ms);
    KeyDelayAcceptedIff(IntToString(ms));
  }

  /** A setting value as the configuration store holds it. */
  datatype Value = IntValue(i: int) | BoolValue(b: bool) | TextValue(s: string) | NoValue

  /** The settings store: the part of ConfigManager the dialog writes through set_setting. */
  class ConfigStore {
    var settings: map<string, Value>

    constructor (initial: map<string, Value>)
      ensures settings == initial
    {
      settings := initial;
    }

    method SetSetting(key: string, value: Value)
      modifies this
      ensures settings == old(settings)[key := value]
    {
      settings := settings[key := value];
    }
  }

  /** What the dialog's widgets hold when Save is pressed. */
  datatype SettingsForm = SettingsForm(
    shortcut: string,
    model: string,
    alwaysOnTop: bool,
    useClipboard: bool,
    keyDelayEntry: string,
    keyboardChoice: string,
    keyboardOptions: seq<string>,
    keyboardValues: seq<string>,
    audioChoice: string,
    audioOptions: seq<string>,
    audioValues: seq<Value>)

  /** The option and value lists are built side by side, each starting with its default entry. */
  predicate WellFormed(form: SettingsForm) {
    && |form.keyboardOptions| == |form.keyboardValues| > 0
    && |form.audioOptions| == |form.audioValues| > 0
  }

  datatype SaveOutcome =
    | Saved
    | KeyboardNotListed       // keyboard_options.index raised; reported by the outer handler
    | KeyDelayRejected(why: KeyDelay)

  /** The settings a save with an accepted key delay writes, in the order it writes them. */
  function Written(before: map<string, Value>, form: SettingsForm, ms: int): map<string, Value>
    requires WellFormed(form) && form.keyboardChoice in form.keyboardOptions
  {
    var keyboard := form.keyboardValues[IndexOrDefault(form.keyboardOptions, form.keyboardChoice)];
    var audio := form.audioValues[IndexOrDefault(form.audioOptions, form.audioChoice)];
    var m := before["key_delay" := IntValue(ms)]["primary_shortcut" := TextValue(form.shortcut)]
      ["always_on_top" := BoolValue(form.alwaysOnTop)]["use_clipboard" := BoolValue(form.useClipboard)]
      ["keyboard_device" := TextValue(keyboard)]["audio_device" := audio];
    if form.model != NoModelsFound then m["model" := TextValue(form.model)] else m
  }

  /**
   * The settings-writing part of _save_settings: an unlisted keyboard entry
   * or a rejected key delay returns before any setting is written.
   */
  method SaveSettings(config: ConfigStore, form: SettingsForm) returns (outcome: SaveOutcome)
    requires WellFormed(form)
    modifies config
    ensures outcome == KeyboardNotListed <==> form.keyboardChoice !in form.keyboardOptions
    ensures outcome.KeyDelayRejected? <==>
      form.keyboardChoice in form.keyboardOptions && !CheckKeyDelay(form.keyDelayEntry).DelayAccepted?
    ensures outcome.KeyDelayRejected? ==> outcome.why == CheckKeyDelay(form.keyDelayEntry)
    ensures outcome != Saved ==> config.settings == old(config.settings)
    ensures outcome == Saved ==>
      config.settings == Written(old(config.settings), form, CheckKeyDelay(form.keyDelayEntry).ms)
  {
    var keyboardIndex := IndexOf(form.keyboardOptions, form.keyboardChoice);
    if keyboardIndex.None? {
      return KeyboardNotListed;
    }
    var keyboardPath := form.keyboardValues[keyboardIndex.value];
    var audioIndex := IndexOrDefault(form.audioOptions, form.audioChoice);
    var delay := CheckKeyDelay(form.keyDelayEntry);
    if !delay.DelayAccepted? {
      return KeyDelayRejected(delay);
    }
    config.SetSetting("key_delay", IntValue(delay.ms));
    config.SetSetting("primary_shortcut", TextValue(form.shortcut));
    config.SetSetting("always_on_top", BoolValue(form.alwaysOnTop));
    config.SetSetting("use_clipboard", BoolValue(form.useClipboard));
    config.SetSetting("keyboard_device", TextValue(keyboardPath));
    config.SetSetting("audio_device", form.audioValues[audioIndex]);
    if form.model != NoModelsFound {
      config.SetSetting("model", TextValue(form.model));
    }
    outcome := Saved;
  }

  /** A save writes the key delay only when it is accepted, and then writes that value. */
  lemma SavedKeyDelay(before: map<string, Value>, form: SettingsForm, ms: int)
    requires WellFormed(form) && form.keyboardChoice in form.keyboardOptions
    ensures Written(before, form, ms)["key_delay"] == IntValue(ms)
    ensures Written(before, form, ms).Keys == before.Keys +
      {"key_delay", "primary_shortcut", "always_on_top", "use_clipboard", "keyboard_device", "audio_device"} +
      (if form.model != NoModelsFound then {"model"} else {})
  {
  }

  /** Longest device name shown unshortened. */
  const MaxNameLength: nat := 32

  /** A name over 32 characters becomes its first 29 and "...". */
  function ShortenedName(name: string): string {
    if |name| > 32 then name[..29] + "..." else name
  }

  lemma ShortenedNameSpec(name: string)
    ensures |ShortenedName(name)| <= MaxNameLength
    ensures |name| > MaxNameLength ==>
      |ShortenedName(name)| == MaxNameLength && ShortenedName(name) == name[..29] + "..."
    ensures |name| <= MaxNameLength ==> ShortenedName(name) == name
  {
  }

  /** What audio_capture.get_current_device_info() gave. */
  datatype DeviceQuery =
    | QueryRaised          // the call raised, or the info had no 'name'
    | NoDeviceInfo         // None or an empty dict
    | DeviceInfo(name: string)

  /** _get_current_audio_device_name; `configured` is the `audio_device` setting. */
  function CurrentAudioDeviceName(configured: Value, query: DeviceQuery): string {
    if configured == NoValue then "System Default"
    else match query
      case DeviceInfo(name) => ShortenedName(name)
      case NoDeviceInfo => "Unknown Device"
      case QueryRaised => "Error"
  }

  /** The label never runs past 32 characters, and an unset device is the default. */
  lemma CurrentAudioDeviceNameSpec(configured: Value, query: DeviceQuery)
    ensures configured == NoValue ==> CurrentAudioDeviceName(configured, query) == "System Default"
    ensures configured != NoValue && query.DeviceInfo? ==>
      CurrentAudioDeviceName(configured, query) == ShortenedName(query.name)
    ensures |CurrentAudioDeviceName(configured, query)| <= MaxNameLength
  {
    ShortenedNameSpec(if query.DeviceInfo? then query.name else "");
  }

  /** What the test status label shows. */
  datatype TestStatus =
    | NoShortcutSelected
    | Testing
    | PressWithin(key: string)
    | TestSuccessful
    | NoResponse
    | CouldNotStart
    | TestError

  /** How the test thread ran during a shortcut test. */
  datatype TestRun =
    | ThreadStartRaised                          // starting the test thread raised, outside any try
    | RaisedBeforeStart                          // creating or starting the listener raised
    | StartRefused                               // start() returned False
    | StartedThenRaised(promptQueued: bool)      // start() returned True, then queueing a status raised:
                                                 // the prompt's (false) or the wait outcome's (true)
    | Started(pressed: bool, stopRaised: bool)   // started; pressed within 5 s or not; stop() raised or not

  /** What one press of "Test Shortcut" leaves behind. */
  datatype TestReport = TestReport(
    statuses: seq<TestStatus>,  // the status label's texts, in order
    stopCalled: bool,           // test_shortcuts.stop() was called
    listenerLeft: bool,         // the listener started and stop() was never called
    buttonDisabled: bool)       // the test button is left disabled

  /** The status queued for the wait's outcome. */
  function WaitStatus(pressed: bool): TestStatus {
    if pressed then TestSuccessful else NoResponse
  }

  /** _test_shortcut, with the callbacks scheduled by the test thread run in order. */
  function ShortcutTest(selected: string, run: TestRun): TestReport {
    if selected == [] then TestReport([NoShortcutSelected], false, false, false)
    else
      match run
      case ThreadStartRaised => TestReport([Testing], false, false, true)
      case RaisedBeforeStart => TestReport([Testing, TestError], false, false, false)
      case StartRefused => TestReport([Testing, CouldNotStart], false, false, false)
      case StartedThenRaised(promptQueued) =>
        var reached := if promptQueued then [PressWithin(selected)] else [];
        TestReport([Testing] + reached + [TestError], false, true, false)
      case Started(pressed, stopRaised) =>
        var waited := [Testing, PressWithin(selected), WaitStatus(pressed)];
        TestReport(if stopRaised then waited + [TestError] else waited, true, false, false)
  }

  /**
   * The test button comes back unless the test thread itself fails to start;
   * stop() is called only after a successful start, and a raise between the
   * start and stop() leaves the listener registered; the test reports success
   * exactly when the key was pressed in time and stopping did not raise.
   */
  lemma ShortcutTestSpec(selected: string, run: TestRun)
    ensures var r := ShortcutTest(selected, run);
      && (r.buttonDisabled <==> selected != [] && run == ThreadStartRaised)
      && (r.stopCalled ==> run.Started?)
      && (r.stopCalled <==> selected != [] && run.Started?)
      && (r.listenerLeft <==> selected != [] && run.StartedThenRaised?)
      && |r.statuses| > 0
      && (r.statuses[|r.statuses| - 1] == TestSuccessful <==> selected != [] && run == Started(true, false))
      && (selected == [] <==> r.statuses == [NoShortcutSelected])
      && (selected != [] ==> r.statuses[0] == Testing)
  {
  }

  /** A raise after a successful start skips stop(): the listener stays registered. */
  lemma RaiseAfterStartSkipsStop(selected: string, promptQueued: bool)
    requires selected != []
    ensures var r := ShortcutTest(selected, StartedThenRaised(promptQueued));
      && !r.stopCalled && r.listenerLeft && !r.buttonDisabled
      && (PressWithin(selected) in r.statuses <==> promptQueued)
      && TestSuccessful !in r.statuses && NoResponse !in r.statuses
      && r.statuses[|r.statuses| - 1] == TestError
  {
  }
}
