/**
 * The effects the reducers return, as values. Nothing here is run: each
 * constructor names what the `.run` closure or `.send` of a reducer case does.
 */
module Effects {
  /**
   * An effect a reducer case returns. `Send` feeds an action straight back; the
   * others are `.run` closures, described by what they do and what they send.
   */
  datatype Effect<A> =
    | Send(action: A)
    | AwaitPlaybackFinished           // waits for the player's finish callback, then sends `playbackFinished`
    | WriteToPasteboard(text: string)
    | DeleteFile(path: string)        // `try? FileManager.default.removeItem(at:)`: failure is ignored
    | ProbeOllama(baseURL: string)    // sends `ollamaAvailabilityChecked(isAvailable)`, see HistoryFeature.ProbeReply
    | FetchOllamaModels(baseURL: string)                        // see HistoryFeature.LoadedModels
    | RequestSummary(prompt: string, model: string, baseURL: string)  // see HistoryFeature.SummaryReply
    | QueryMicrophonePermission       // settings: see SettingsFeature.MicrophoneReply
    | QueryAccessibilityPermission    // settings: see SettingsFeature.AccessibilityReply
    | StartKeyMonitoring              // settings: starts the key-event monitor
}
