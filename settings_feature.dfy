/**
 * The part of the settings screen's reducer that decides things: capturing a
 * new hotkey from key events, purging the history when saving is switched
 * off, the Ollama availability and model-list cache, and the mapping of the
 * system's permission answers to `PermissionStatus`.
 */
module SettingsFeature {
  import opened Wrappers
  import opened AppSettings
  import opened Effects
  import OllamaClient
  import HistoryFeature

  datatype PermissionStatus = NotDetermined | Granted | Denied

  /** `AVCaptureDevice.authorizationStatus(for: .audio)`; `UnknownStatus` stands for future cases. */
  datatype AVAuthorizationStatus =
    | Authorized
    | AuthorizationDenied
    | Restricted
    | AuthorizationNotDetermined
    | UnknownStatus(rawValue: int)

  /** `checkMicrophonePermission`: only an authorization grants, only an undetermined status stays undetermined. */
  function MicrophonePermission(status: AVAuthorizationStatus): (p: PermissionStatus)
    ensures p == Granted <==> status == Authorized
    ensures p == NotDetermined <==> status == AuthorizationNotDetermined
    ensures p == Denied <==> (status == AuthorizationDenied || status == Restricted || status.UnknownStatus?)
  {
    match status
    case Authorized => Granted
    case AuthorizationDenied => Denied
    case Restricted => Denied
    case AuthorizationNotDetermined => NotDetermined
    case UnknownStatus(_) => Denied
  }

  /** `checkAccessibilityPermission`: the answer of `AXIsProcessTrustedWithOptions`, never undetermined. */
  function AccessibilityPermission(trusted: bool): (p: PermissionStatus)
    ensures p == Granted <==> trusted
    ensures p == Denied <==> !trusted
    ensures p != NotDetermined
  {
    if trusted then Granted else Denied
  }

  datatype Action =
    | StartSettingHotKey
    | KeyEvent(event: AppSettings.KeyEvent)
    | CheckPermissions
    | SetMicrophonePermission(status: PermissionStatus)
    | SetAccessibilityPermission(status: PermissionStatus)
    | AccessibilityStatusDidChange
    | ToggleSaveTranscriptionHistory(enabled: bool)
    | CheckOllamaAvailability
    | OllamaAvailabilityChecked(available: bool)
    | LoadOllamaModels
    | OllamaModelsLoaded(models: seq<OllamaClient.OllamaModel>)

  /** `checkPermissions`' microphone closure: the mapped authorization status. */
  function MicrophoneReply(status: AVAuthorizationStatus): (a: Action)
    ensures a.SetMicrophonePermission?
    ensures a.status == Granted <==> status == Authorized
    ensures a.status == NotDetermined <==> status == AuthorizationNotDetermined
  {
    SetMicrophonePermission(MicrophonePermission(status))
  }

  /** `checkPermissions`' accessibility closure: the mapped trust flag, which is never undetermined. */
  function AccessibilityReply(trusted: bool): (a: Action)
    ensures a.SetAccessibilityPermission?
    ensures a.status == Granted <==> trusted
    ensures a.status != NotDetermined
  {
    SetAccessibilityPermission(AccessibilityPermission(trusted))
  }

  /** `loadOllamaModels`' closure: a failure to list models is reported as an empty list. */
  function ModelsReply(baseURL: string, get: string -> OllamaClient.Exchange<OllamaClient.OllamaModelsResponse>)
    : (a: Action)
    ensures a.OllamaModelsLoaded?
    ensures OllamaClient.GetAvailableModels(baseURL, get).Failure? ==> a.models == []
    ensures OllamaClient.GetAvailableModels(baseURL, get).Success? ==>
              a.models == OllamaClient.GetAvailableModels(baseURL, get).value
  {
    OllamaModelsLoaded(HistoryFeature.LoadedModels(baseURL, get))
  }

  // ---------------------------------------------------------------------------
  // Hotkey capture

  /** The three pieces of state a key event reads and writes. */
  datatype Capture = Capture(capturing: bool, current: set<Modifier>, hotkey: HotKey)

  /** The capture state machine's invariant: modifiers are only held while capturing. */
  predicate NoStrayModifiers(c: Capture) {
    !c.capturing ==> c.current == {}
  }

  /**
   * One `keyEvent`. Outside capture it is ignored; escape cancels; otherwise
   * the event's modifiers join the held ones, and a key, or a release of all
   * modifiers, commits the hotkey and ends capture.
   */
  function CaptureStep(c: Capture, e: AppSettings.KeyEvent): (r: Capture)
    ensures NoStrayModifiers(c) ==> NoStrayModifiers(r)
    ensures r.capturing ==> c.capturing && r.current == c.current + e.modifiers && r.hotkey == c.hotkey
    ensures r.hotkey != c.hotkey ==> r.hotkey.key != Some(Escape) && r.hotkey.modifiers == c.current + e.modifiers
    ensures c.capturing && e.key == Some(Escape) ==> r == Capture(false, {}, c.hotkey)
    ensures c.capturing && Holding(e) ==> r == Capture(true, c.current + e.modifiers, c.hotkey)
  {
    if !c.capturing then c
    else if e.key == Some(Escape) then Capture(false, {}, c.hotkey)
    else
      var current := e.modifiers + c.current;
      if e.key.Some? || e.modifiers == {} then Capture(false, {}, HotKey(e.key, current))
      else Capture(true, current, c.hotkey)
  }

  /** Feeds the events to the capture state machine one after another. */
  function Feed(c: Capture, events: seq<AppSettings.KeyEvent>): Capture
    decreases |events|
  {
    if |events| == 0 then c else Feed(CaptureStep(c, events[0]), events[1..])
  }

  function ModifiersOf(events: seq<AppSettings.KeyEvent>): set<Modifier>
    decreases |events|
  {
    if |events| == 0 then {} else events[0].modifiers + ModifiersOf(events[1..])
  }

  /** An event that neither cancels nor commits: modifiers pressed without a key. */
  predicate Holding(e: AppSettings.KeyEvent) {
    e.key.None? && e.modifiers != {}
  }

  /**
   * A capture session: modifier presses followed by one committing event set
   * the hotkey to that event's key and every modifier pressed in the session.
   */
  lemma {:induction false} CaptureSessionCommits(current: set<Modifier>, hotkey: HotKey, events: seq<AppSettings.KeyEvent>)
    requires |events| > 0
    requires forall k :: 0 <= k < |events| - 1 ==> Holding(events[k])
    requires events[|events| - 1].key != Some(Escape) && !Holding(events[|events| - 1])
    ensures Feed(Capture(true, current, hotkey), events)
            == Capture(false, {}, HotKey(events[|events| - 1].key, current + ModifiersOf(events)))
    decreases |events|
  {
    if |events| == 1 {
      assert ModifiersOf(events) == events[0].modifiers;
      assert Feed(Capture(true, current, hotkey), events) == CaptureStep(Capture(true, current, hotkey), events[0]);
    } else {
      var next := CaptureStep(Capture(true, current, hotkey), events[0]);
      assert next == Capture(true, current + events[0].modifiers, hotkey);
      CaptureSessionCommits(current + events[0].modifiers, hotkey, events[1..]);
      assert events[1..][|events[1..]| - 1] == events[|events| - 1];
    }
  }

  /** Escape after any number of modifier presses leaves the hotkey as it was. */
  lemma {:induction false} CaptureSessionCancels(current: set<Modifier>, hotkey: HotKey, events: seq<AppSettings.KeyEvent>)
    requires |events| > 0
    requires forall k :: 0 <= k < |events| - 1 ==> Holding(events[k])
    requires events[|events| - 1].key == Some(Escape)
    ensures Feed(Capture(true, current, hotkey), events) == Capture(false, {}, hotkey)
    decreases |events|
  {
    if |events| == 1 {
      assert Feed(Capture(true, current, hotkey), events) == CaptureStep(Capture(true, current, hotkey), events[0]);
    } else {
      CaptureSessionCancels(current + events[0].modifiers, hotkey, events[1..]);
      assert events[1..][|events[1..]| - 1] == events[|events| - 1];
    }
  }

  /** Once capture has ended, further key events change nothing. */
  lemma {:induction false} IdleIgnoresEvents(c: Capture, events: seq<AppSettings.KeyEvent>)
    requires !c.capturing
    ensures Feed(c, events) == c
    decreases |events|
  {
    if |events| > 0 {
      IdleIgnoresEvents(c, events[1..]);
    }
  }

  // ---------------------------------------------------------------------------
  // State

  class Settings {
    var hexSettings: HexSettings
    var isSettingHotKey: bool
    var transcriptionHistory: HistoryFeature.TranscriptionHistory
    var currentModifiers: set<Modifier>
    var microphonePermission: PermissionStatus
    var accessibilityPermission: PermissionStatus
    var availableOllamaModels: seq<OllamaClient.OllamaModel>
    var ollamaAvailable: bool

    function CaptureState(): Capture
      reads this
    {
      Capture(isSettingHotKey, currentModifiers, hexSettings.hotkey)
    }

    ghost predicate Valid()
      reads this
    {
      NoStrayModifiers(CaptureState())
    }

    constructor (hexSettings: HexSettings, transcriptionHistory: HistoryFeature.TranscriptionHistory)
      ensures this.hexSettings == hexSettings && this.transcriptionHistory == transcriptionHistory
      ensures !isSettingHotKey && currentModifiers == {}
      ensures microphonePermission == NotDetermined && accessibilityPermission == NotDetermined
      ensures availableOllamaModels == [] && !ollamaAvailable
      ensures Valid()
    {
      this.hexSettings := hexSettings;
      this.transcriptionHistory := transcriptionHistory;
      isSettingHotKey := false;
      currentModifiers := {};
      microphonePermission := NotDetermined;
      accessibilityPermission := NotDetermined;
      availableOllamaModels := [];
      ollamaAvailable := false;
    }

    method StartSettingHotKey() returns (effects: seq<Effect<Action>>)
      modifies this`isSettingHotKey
      ensures isSettingHotKey
      ensures effects == []
      ensures old(Valid()) ==> Valid()
    {
      isSettingHotKey := true;
      effects := [];
    }

    /** `keyEvent`: one step of the capture state machine; only the hotkey of the settings may change. */
    method KeyEvent(event: AppSettings.KeyEvent) returns (effects: seq<Effect<Action>>)
      modifies this`isSettingHotKey, this`currentModifiers, this`hexSettings
      ensures CaptureState() == CaptureStep(old(CaptureState()), event)
      ensures hexSettings == old(hexSettings).(hotkey := hexSettings.hotkey)
      ensures effects == []
      ensures old(Valid()) ==> Valid()
    {
      effects := [];
      if !isSettingHotKey {
        return;
      }
      if event.key == Some(Escape) {
        isSettingHotKey := false;
        currentModifiers := {};
        return;
      }
      currentModifiers := event.modifiers + currentModifiers;
      var current := currentModifiers;
      if event.key.Some? {
        hexSettings := hexSettings.(hotkey := HotKey(event.key, current));
        isSettingHotKey := false;
        currentModifiers := {};
      } else if event.modifiers == {} {
        hexSettings := hexSettings.(hotkey := HotKey(None, current));
        isSettingHotKey := false;
        currentModifiers := {};
      }
    }

    /**
     * Sets the setting; switching it off also empties the history and deletes
     * the audio file of every record it held, in history order.
     */
    method ToggleSaveTranscriptionHistory(enabled: bool) returns (effects: seq<Effect<Action>>)
      modifies this`hexSettings, this`transcriptionHistory
      ensures hexSettings == old(hexSettings).(saveTranscriptionHistory := enabled)
      ensures enabled ==> transcriptionHistory == old(transcriptionHistory) && effects == []
      ensures !enabled ==> transcriptionHistory.history == []
      ensures !enabled ==> |effects| == |old(transcriptionHistory.history)|
      ensures !enabled ==> forall k :: 0 <= k < |effects| ==>
                effects[k] == DeleteFile(old(transcriptionHistory.history)[k].audioPath)
      ensures old(Valid()) ==> Valid()
    {
      hexSettings := hexSettings.(saveTranscriptionHistory := enabled);
      if !enabled {
        var transcripts := transcriptionHistory.history;
        transcriptionHistory := transcriptionHistory.(history := []);
        effects := HistoryFeature.FileDeletions(transcripts);
        return;
      }
      effects := [];
    }

    /** Asks for both permission statuses at once. */
    method CheckPermissions() returns (effects: seq<Effect<Action>>)
      ensures effects == [QueryMicrophonePermission, QueryAccessibilityPermission]
    {
      effects := [QueryMicrophonePermission, QueryAccessibilityPermission];
    }

    method SetMicrophonePermission(status: PermissionStatus) returns (effects: seq<Effect<Action>>)
      modifies this`microphonePermission
      ensures microphonePermission == status
      ensures effects == []
    {
      microphonePermission := status;
      effects := [];
    }

    /** Key monitoring starts exactly when accessibility is granted. */
    method SetAccessibilityPermission(status: PermissionStatus) returns (effects: seq<Effect<Action>>)
      modifies this`accessibilityPermission
      ensures accessibilityPermission == status
      ensures effects == if status == Granted then [StartKeyMonitoring] else []
    {
      accessibilityPermission := status;
      if status == Granted {
        effects := [StartKeyMonitoring];
      } else {
        effects := [];
      }
    }

    /** Re-reads the accessibility trust flag, passed in as `trusted`. */
    method AccessibilityStatusDidChange(trusted: bool) returns (effects: seq<Effect<Action>>)
      modifies this`accessibilityPermission
      ensures accessibilityPermission == AccessibilityPermission(trusted)
      ensures effects == []
    {
      accessibilityPermission := AccessibilityPermission(trusted);
      effects := [];
    }

    method CheckOllamaAvailability() returns (effects: seq<Effect<Action>>)
      ensures effects == [ProbeOllama(hexSettings.ollamaBaseURL)]
    {
      effects := [ProbeOllama(hexSettings.ollamaBaseURL)];
    }

    /** Records the probe's answer; only a positive answer reloads the models, a negative one keeps them. */
    method OllamaAvailabilityChecked(available: bool) returns (effects: seq<Effect<Action>>)
      modifies this`ollamaAvailable
      ensures ollamaAvailable == available
      ensures effects == if available then [Send(Action.LoadOllamaModels)] else []
    {
      ollamaAvailable := available;
      if available {
        effects := [Send(Action.LoadOllamaModels)];
      } else {
        effects := [];
      }
    }

    method LoadOllamaModels() returns (effects: seq<Effect<Action>>)
      ensures effects == [FetchOllamaModels(hexSettings.ollamaBaseURL)]
    {
      effects := [FetchOllamaModels(hexSettings.ollamaBaseURL)];
    }

    method OllamaModelsLoaded(models: seq<OllamaClient.OllamaModel>) returns (effects: seq<Effect<Action>>)
      modifies this`availableOllamaModels
      ensures availableOllamaModels == models
      ensures effects == []
    {
      availableOllamaModels := models;
      effects := [];
    }
  }
}
