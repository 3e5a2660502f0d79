/**
 * The part of the app's shared settings (`HexSettings`) and hotkey types that the
 * history and settings reducers read or write. Key codes are abstract: only the
 * escape key is told apart from the others.
 */
module AppSettings {
  import opened Wrappers

  /** Keyboard modifiers (command, option, shift, control, fn). */
  datatype Modifier = Command | OptionKey | Shift | Control | Fn

  /** A key; every key other than escape is identified only by its key code. */
  datatype Key = Escape | OtherKey(code: nat)

  /** A hotkey: an optional key plus a set of modifiers (a modifier-only hotkey has no key). */
  datatype HotKey = HotKey(key: Option<Key>, modifiers: set<Modifier>)

  /** One event from the key-event monitor. */
  datatype KeyEvent = KeyEvent(key: Option<Key>, modifiers: set<Modifier>)

  /** The settings fields this model uses. */
  datatype HexSettings = HexSettings(
    hotkey: HotKey,
    saveTranscriptionHistory: bool,
    ollamaEnabled: bool,
    ollamaModel: string,
    ollamaBaseURL: string)
}
