# Hex: history, summary, hotkey capture and Ollama client

Hex is a macOS dictation app. This project models three parts of it:

- **The history reducer** (`HistoryFeature`). It plays back one recorded transcript at a time. It deletes single transcripts or all of them, and deletion also removes their audio files. It keeps a multi-selection of transcripts and asks a local Ollama server for a summary of the selected ones. The prompt it sends lists the selected transcripts oldest first.
- **Part of the settings reducer** (`SettingsFeature`):
  - the state machine that captures a new hotkey from key events;
  - purging the history when "save transcription history" is switched off;
  - the Ollama availability and model-list cache;
  - the mapping of the system's permission answers to a permission status.
- **The Ollama HTTP client's decision logic** (`OllamaClient`):
  - the endpoint URLs and the shape of the generate request;
  - how HTTP outcomes become results or errors, with every error's code and message;
  - how foreign errors are reclassified by substring.

Each reducer is a class whose fields are the reducer's state. Each action is a method that updates those fields in place and returns the list of effects the action emits (`Effects.Effect`). Effects are values and are never run.

The network is a function parameter. `get` maps a URL to an HTTP outcome and a decoding result; `post` maps a request to the same. What happens when an effect runs is given by separate functions:

- `HistoryFeature.ProbeReply`
- `HistoryFeature.LoadedModels`
- `HistoryFeature.SummaryReply`
- `SettingsFeature.ModelsReply`
- `SettingsFeature.MicrophoneReply`
- `SettingsFeature.AccessibilityReply`

Other parameters stand in for the system:

- Whether an audio file opens is an oracle `opens: string -> bool`.
- Date formatting is an uninterpreted `format: Timestamp -> string`.
- The accessibility trust flag and the microphone authorization status are plain inputs.

Files:

- `wrappers.dfy`: Option and Result.
- `strings.dfy`: substring search and decimal rendering of integers.
- `app_settings.dfy`: the settings fields and hotkey types the reducers use.
- `effects.dfy`: the effect type.
- `ollama_client.dfy`, `history_feature.dfy`, `settings_feature.dfy`: the three parts above.

Two kinds of invariant are checked:

- `HistoryFeature.History.Valid`:
  - a player and its controller are held together;
  - they are held only while a transcript is marked as playing;
  - the playing transcript is in the history. Only the history reducer's own actions keep this. In the program the two reducers share one history, so turning history saving off in settings during a playback empties the history under the playing transcript and breaks this conjunct.
- `SettingsFeature.Settings.Valid`: no modifiers are held outside hotkey capture.

Every method that writes a field an invariant reads states that it keeps that invariant. The other methods cannot write those fields, because of their `modifies` clauses.

Some behaviour is modelled as the code has it. Summary generation has no guard against a summary already being generated. Deleting a transcript does not remove its id from the selection. So a selection that holds only deleted ids still passes the summary guard, and it produces the bare prompt template (`HistoryFeature.PromptWithoutSelectedRecords`).

The client's error text is modelled as an `OllamaError` value that `OllamaClient.Message` renders. `OllamaClient.Classify` reads a message back into its `OllamaError`. The round trip `Classify(Message(e)) == Some(e)` shows that the message the user sees always identifies which failure happened.

`OllamaClient.OllamaModel.Id` is a definition with no contract: a model is identified by its name.

## Model

| member | source | states |
|---|---|---|
| OllamaClient.GenerateSummaryDependsOnlyOnRequest | Hex/Clients/OllamaClient.swift:105-121 | the summary result depends only on the server's answer to one request: a POST to base URL + "/api/generate" with only a JSON Content-Type header, a 60-second timeout, and a body carrying the model and prompt with streaming off |
| OllamaClient.ToNSError | Hex/Clients/OllamaClient.swift:142-144 | every error the client builds is in the "OllamaClient" domain |
| OllamaClient.StatusError | Hex/Clients/OllamaClient.swift:129-145 | the error for a non-200 generate status has the status as its code |
| OllamaClient.NotFoundMessageNamesModel | Hex/Clients/OllamaClient.swift:132-133 | the 404 message contains the requested model's name and "not found" |
| OllamaClient.ServerStatusMessages | Hex/Clients/OllamaClient.swift:134-137 | the 500 message says to check that the model is loaded; the 503 message says to make sure Ollama is running |
| OllamaClient.OtherStatusMessage | Hex/Clients/OllamaClient.swift:138-139 | for any other non-200 status, the message contains the status in decimal |
| OllamaClient.TransportErrorFor | Hex/Clients/OllamaClient.swift:154-167 | a foreign error is always replaced by an error with code 1 |
| OllamaClient.TransportMessages | Hex/Clients/OllamaClient.swift:156-163 | the tests run in order: a description containing "timed out" gets the timeout text; otherwise one containing "connection" gets a message naming the base URL and telling the user to start Ollama; anything else becomes "Network error: " followed by the description |
| OllamaClient.ClassifyMessage | Hex/Clients/OllamaClient.swift:95-167 | reading any message the client produces back gives exactly the error it describes |
| OllamaClient.MessageInjective | Hex/Clients/OllamaClient.swift:95-167 | two different errors never share a message |
| OllamaClient.IsAvailable | Hex/Clients/OllamaClient.swift:79-87 | the server is available if and only if the tags request completes with HTTP status exactly 200; errors and non-HTTP responses give false |
| OllamaClient.GetAvailableModels | Hex/Clients/OllamaClient.swift:89-103 | succeeds if and only if the status is 200 and the body decodes, returning the decoded models unchanged; a non-HTTP response or other status gives code 1 "Ollama server not available"; transport and decoding errors propagate unchanged |
| OllamaClient.ModelsOnlyWhenAvailable | Hex/Clients/OllamaClient.swift:79-103 | models are listed only when the availability probe would say yes, and listing fails whenever it would say no |
| OllamaClient.GenerateSummary | Hex/Clients/OllamaClient.swift:105-169 | succeeds if and only if the response is HTTP 200 and decodes, returning exactly its response field; every failure is in the "OllamaClient" domain |
| OllamaClient.GenerateSummaryErrors | Hex/Clients/OllamaClient.swift:120-168 | per outcome: a non-200 status gives that code and its status message; a non-HTTP response gives code 2 "Invalid response from Ollama server"; errors in the client's own domain pass unchanged; any other transport or decoding error is reclassified by its description with code 1 |
| OllamaClient.FailureMessageIdentifiesCause | Hex/Clients/OllamaClient.swift:120-168 | when the lower layers raise only foreign errors, generation fails exactly when the outcome is not "200 and decoded", and the message shown classifies back to that outcome's category |
| HistoryFeature.Ids | Hex/Features/History/HistoryFeature.swift:244 | the set of ids is exactly the ids of the history's records |
| HistoryFeature.FirstIndex | Hex/Features/History/HistoryFeature.swift:181 | finds the first record with the id, and finds none exactly when no record has it |
| HistoryFeature.FirstTranscript | Hex/Features/History/HistoryFeature.swift:137 | returns the first history record with the id, and returns none exactly when no record has it |
| HistoryFeature.FileDeletions | Hex/Features/History/HistoryFeature.swift:217-221 | one file deletion per transcript, in order, for exactly that transcript's audio path |
| HistoryFeature.SelectedTranscripts | Hex/Features/History/HistoryFeature.swift:267-269 | keeps exactly the records whose id is selected, each as often as in the history |
| HistoryFeature.SortByTimestamp | Hex/Features/History/HistoryFeature.swift:272 | the result is in ascending timestamp order and is a permutation of the input |
| HistoryFeature.InsertByTimestamp | Hex/Features/History/HistoryFeature.swift:272 | inserting into a sorted list keeps it sorted and adds exactly the one record |
| HistoryFeature.PromptRecords | Hex/Features/History/HistoryFeature.swift:267-272 | the prompt lists exactly the selected history records, with multiplicity, in ascending timestamp order |
| HistoryFeature.JoinContainsLine | Hex/Features/History/HistoryFeature.swift:274 | every line occurs in the joined text |
| HistoryFeature.SelectedRecordInPrompt | Hex/Features/History/HistoryFeature.swift:267-284 | every selected record of the history appears in the prompt, rendered as "[" + formatted timestamp + "] " + text |
| HistoryFeature.PromptWithoutSelectedRecords | Hex/Features/History/HistoryFeature.swift:267-284 | when no history record is selected, the prompt is exactly `PromptIntro + "\n\n\n\nSummary:"` |
| HistoryFeature.OlderRecordListedFirst | Hex/Features/History/HistoryFeature.swift:271-274 | a history of exactly two records, both selected and in either order, is rendered older first, separated by a blank line |
| HistoryFeature.ProbeReply | Hex/Features/History/HistoryFeature.swift:305-309 | the availability check answers true exactly when the tags request gets HTTP 200 |
| HistoryFeature.LoadedModels | Hex/Features/History/HistoryFeature.swift:318-327 | model loading reports the decoded models on success and an empty list when the server is unavailable or the body does not decode |
| HistoryFeature.SummaryReplyIdentifiesCause | Hex/Features/History/HistoryFeature.swift:286-296 | when the lower layers raise only foreign errors, the summary effect sends the response text exactly when the exchange is HTTP 200 and decodes; otherwise it sends a failure whose text reads back as the category of what went wrong |
| HistoryFeature.NotFoundReplyNamesModel | Hex/Features/History/HistoryFeature.swift:289-294 | when the model is missing (HTTP 404), the failure shown to the user names the model and says "not found" |
| HistoryFeature.AudioPlayerController.constructor | Hex/Features/History/HistoryFeature.swift:40-42 | a new controller holds no player |
| HistoryFeature.AudioPlayerController.Play | Hex/Features/History/HistoryFeature.swift:44-50 | playing succeeds exactly when the file opens, and the controller then holds a player |
| HistoryFeature.AudioPlayerController.Stop | Hex/Features/History/HistoryFeature.swift:52-55 | after stopping, the controller holds no player |
| HistoryFeature.History.constructor | Hex/Features/History/HistoryFeature.swift:71-87 | the initial state: nothing playing, empty selection, no summary, no models, and the invariant holds |
| HistoryFeature.History.ReleasePlayer | Hex/Features/History/HistoryFeature.swift:131-134 | the previous controller is stopped, neither player nor controller is held, and the invariant is kept |
| HistoryFeature.History.PlayTranscript | Hex/Features/History/HistoryFeature.swift:121-165 | tapping the transcript that is playing stops it with no effect; otherwise the prior controller is stopped, then an existing transcript whose audio opens plays under a fresh controller and awaits its finish, while a missing or unopenable one leaves no controller but keeps the old playing id |
| HistoryFeature.History.StopPlayback | Hex/Features/History/HistoryFeature.swift:167-172 | stops the controller and clears player, controller and playing id with no effect; from a stopped state nothing changes, so stopping twice is stopping once |
| HistoryFeature.History.PlaybackFinished | Hex/Features/History/HistoryFeature.swift:167-172 | same outcome as stopping playback |
| HistoryFeature.History.CopyToClipboard | Hex/Features/History/HistoryFeature.swift:174-178 | the only effect writes the text to the pasteboard |
| HistoryFeature.History.DeleteTranscript | Hex/Features/History/HistoryFeature.swift:180-200 | an unknown id changes nothing and emits nothing; otherwise exactly the first record with the id is removed with the rest in order, the single effect deletes its audio path, playback is cleared only if that id was playing, and the selection is not in the frame |
| HistoryFeature.History.DeleteAllTranscripts | Hex/Features/History/HistoryFeature.swift:202-203 | only sends the confirmation action |
| HistoryFeature.History.ConfirmDeleteAll | Hex/Features/History/HistoryFeature.swift:205-221 | empties the history, clears playback, and deletes exactly the old records' audio paths in history order; the selection is not in the frame |
| HistoryFeature.History.NavigateToSettings | Hex/Features/History/HistoryFeature.swift:223-225 | no effect |
| HistoryFeature.History.ToggleSelectionMode | Hex/Features/History/HistoryFeature.swift:228-233 | flips the mode, clears the selection when leaving the mode and keeps it when entering |
| HistoryFeature.History.ToggleTranscriptSelection | Hex/Features/History/HistoryFeature.swift:235-241 | the new selection is the old one with the id's membership flipped |
| HistoryFeature.ToggleMembership | Hex/Features/History/HistoryFeature.swift:235-241 | the id's membership is flipped and every other id keeps its membership |
| HistoryFeature.ToggleTwice | Hex/Features/History/HistoryFeature.swift:235-241 | toggling the same id twice restores the selection |
| HistoryFeature.History.SelectAllTranscripts | Hex/Features/History/HistoryFeature.swift:243-245 | the selection becomes exactly the history's ids |
| HistoryFeature.History.DeselectAllTranscripts | Hex/Features/History/HistoryFeature.swift:247-249 | the selection becomes empty |
| HistoryFeature.History.GenerateSummary | Hex/Features/History/HistoryFeature.swift:251-296 | with an empty selection or Ollama disabled, nothing changes and nothing is emitted; otherwise the sheet opens, generation starts, both result fields clear, and the only effect requests the prompt of the selection from the configured model and server |
| HistoryFeature.History.RegenerateSummary | Hex/Features/History/HistoryFeature.swift:343-382 | the same guard and request as generating, except that the sheet is not in the frame |
| HistoryFeature.History.DismissSummarySheet | Hex/Features/History/HistoryFeature.swift:298-303 | all four summary fields are reset |
| HistoryFeature.History.SummaryGenerated | Hex/Features/History/HistoryFeature.swift:333-336 | generation ends and only the summary field is set |
| HistoryFeature.History.SummaryGenerationFailed | Hex/Features/History/HistoryFeature.swift:338-341 | generation ends and only the error field is set |
| HistoryFeature.History.CheckOllamaAvailability | Hex/Features/History/HistoryFeature.swift:305-309 | the only effect probes the configured base URL |
| HistoryFeature.History.OllamaAvailabilityChecked | Hex/Features/History/HistoryFeature.swift:311-316 | records the answer, and requests a model load if and only if the server is available; the model list is not in the frame |
| HistoryFeature.History.LoadOllamaModels | Hex/Features/History/HistoryFeature.swift:318-327 | the only effect fetches models from the configured base URL |
| HistoryFeature.History.OllamaModelsLoaded | Hex/Features/History/HistoryFeature.swift:329-331 | the model list becomes the loaded list |
| SettingsFeature.MicrophonePermission | Hex/Features/Settings/SettingsFeature.swift:368-379 | authorized gives granted; not determined stays not determined; denied, restricted and unknown statuses give denied, in both directions |
| SettingsFeature.AccessibilityPermission | Hex/Features/Settings/SettingsFeature.swift:392-396 | granted if and only if trusted, otherwise denied, never undetermined |
| SettingsFeature.MicrophoneReply | Hex/Features/Settings/SettingsFeature.swift:228-231 | the microphone query answers with a microphone-permission action that is granted exactly when authorized and undetermined exactly when not determined |
| SettingsFeature.AccessibilityReply | Hex/Features/Settings/SettingsFeature.swift:232-235 | the accessibility query answers with an accessibility-permission action that is granted exactly when trusted and never undetermined |
| SettingsFeature.ModelsReply | Hex/Features/Settings/SettingsFeature.swift:346-355 | a failed model listing is reported as an empty model list, a successful one as the listed models |
| SettingsFeature.CaptureStep | Hex/Features/Settings/SettingsFeature.swift:178-204 | capture can only end, never start; while it continues the modifiers accumulate and the hotkey is kept; a press of modifiers without a key adds them and keeps capturing; a changed hotkey is never the escape key and carries the accumulated modifiers; escape cancels with the hotkey unchanged; the invariant is kept |
| SettingsFeature.CaptureSessionCommits | Hex/Features/Settings/SettingsFeature.swift:187-203 | after a run of modifier presses, a key or a release of all modifiers commits that key with every modifier pressed in the session and ends capture |
| SettingsFeature.CaptureSessionCancels | Hex/Features/Settings/SettingsFeature.swift:181-187 | escape after any run of modifier presses ends capture with the hotkey unchanged and no modifiers held |
| SettingsFeature.IdleIgnoresEvents | Hex/Features/Settings/SettingsFeature.swift:179 | outside capture, any sequence of key events changes nothing |
| SettingsFeature.Settings.constructor | Hex/Features/Settings/SettingsFeature.swift:22-43 | the initial state: not capturing, no modifiers, both permissions undetermined, no models |
| SettingsFeature.Settings.StartSettingHotKey | Hex/Features/Settings/SettingsFeature.swift:174-176 | capture starts and nothing else changes |
| SettingsFeature.Settings.KeyEvent | Hex/Features/Settings/SettingsFeature.swift:178-204 | the capture fields and hotkey move exactly as one capture step; no other setting changes and nothing is emitted |
| SettingsFeature.Settings.ToggleSaveTranscriptionHistory | Hex/Features/Settings/SettingsFeature.swift:310-330 | sets the setting; turning it off also empties the history and deletes exactly the old records' audio paths in order; turning it on leaves the history unchanged and emits nothing; the capture invariant is kept |
| SettingsFeature.Settings.CheckPermissions | Hex/Features/Settings/SettingsFeature.swift:225-236 | one query for the microphone status and one for the accessibility status |
| SettingsFeature.Settings.SetMicrophonePermission | Hex/Features/Settings/SettingsFeature.swift:238-240 | records the status |
| SettingsFeature.Settings.SetAccessibilityPermission | Hex/Features/Settings/SettingsFeature.swift:242-250 | records the status, and starts key monitoring if and only if it is granted |
| SettingsFeature.Settings.AccessibilityStatusDidChange | Hex/Features/Settings/SettingsFeature.swift:282-285 | the status becomes the mapping of the current trust flag |
| SettingsFeature.Settings.CheckOllamaAvailability | Hex/Features/Settings/SettingsFeature.swift:333-337 | the only effect probes the configured base URL |
| SettingsFeature.Settings.OllamaAvailabilityChecked | Hex/Features/Settings/SettingsFeature.swift:339-344 | records the answer, and requests a model load if and only if the server is available |
| SettingsFeature.Settings.LoadOllamaModels | Hex/Features/Settings/SettingsFeature.swift:346-355 | the only effect fetches models from the configured base URL |
| SettingsFeature.Settings.OllamaModelsLoaded | Hex/Features/Settings/SettingsFeature.swift:357-359 | the model list becomes the loaded list |

## Left out

- AVFoundation playback is out. The player is a flag and the controller an object that only records whether it holds a player. Opening the audio file is the oracle `opens`. The delegate callback and the continuation that waits for the end of playback are the single effect `AwaitPlaybackFinished`.
- The file system and the pasteboard appear only as effect values. A failed file deletion is ignored in the code, and is not modelled.
- `@Shared` persistence and `withLock` are out. The history and the settings are plain fields of each reducer. The two reducers' histories are separate values here. In the program they are one shared value. Turning history saving off in settings empties it and does not stop a playback in the history screen; the model does not stop one either.
- URLSession is out. JSON encoding and decoding are library calls; decoding results arrive as inputs. A base URL that does not parse crashes at `URL(string:)!`, which is not modelled. The request encoding's `try` is not modelled, because encoding a record of two strings and a bool cannot fail.
- OllamaClient.TransportErrorFor: `Strings.Contains` compares characters one by one. Swift's `String.contains` compares Characters under canonical equivalence, so a description that spells "timed out" or "connection" with decomposed characters is classified differently here.
- Date formatting is the uninterpreted parameter `format`. `Date` is an integer timestamp, since only its order matters.
- `duration` is a floating-point display value, carried as a `real` and never inspected.
- HistoryFeature.SortByTimestamp: the code's `sorted(by:)` is not documented to be stable. The model sorts stably, so records with equal timestamps keep their history order; that order is a choice of the model.
- The settings `.task` case is out: language loading, device timers, notification observers, debouncing and the key-event stream. So are the login-item, sleep and media toggles, and the permission requests with their polling. The binding notification, the microphone device list and the model-download child reducer are out too. All of these are I/O, concurrency or unrelated configuration.
- The `print` logging is not modelled.
- The accessibility trust flag that `accessibilityStatusDidChange` reads from the system is a parameter of the method.
- UUIDs are natural numbers; identity of ids is all that matters.
