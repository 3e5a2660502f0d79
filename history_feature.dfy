/**
 * The transcription-history screen's reducer: playback of one recording at a
 * time, single and bulk deletion, multi-selection, and the summary of the
 * selected transcripts produced by Ollama. Each reducer case is a method of
 * `History` that updates the state in place and returns the effects the case
 * emits; effects are values here, never run.
 */
module HistoryFeature {
  import opened Wrappers
  import opened Strings
  import opened AppSettings
  import OllamaClient
  import opened Effects

  type UUID = nat

  /** Dates only need their order here. */
  type Timestamp = int

  datatype Transcript = Transcript(id: UUID, timestamp: Timestamp, text: string, audioPath: string, duration: real)

  datatype TranscriptionHistory = TranscriptionHistory(history: seq<Transcript>)

  datatype Action =
    | PlayTranscript(id: UUID)
    | StopPlayback
    | CopyToClipboard(text: string)
    | DeleteTranscript(id: UUID)
    | DeleteAllTranscripts
    | ConfirmDeleteAll
    | PlaybackFinished
    | NavigateToSettings
    | ToggleSelectionMode
    | ToggleTranscriptSelection(id: UUID)
    | SelectAllTranscripts
    | DeselectAllTranscripts
    | GenerateSummary
    | DismissSummarySheet
    | CheckOllamaAvailability
    | OllamaAvailabilityChecked(available: bool)
    | LoadOllamaModels
    | OllamaModelsLoaded(models: seq<OllamaClient.OllamaModel>)
    | SummaryGenerated(summary: string)
    | SummaryGenerationFailed(error: string)
    | RegenerateSummary

  // ---------------------------------------------------------------------------
  // Looking records up

  /** `Set(history.map(\.id))`. */
  function Ids(history: seq<Transcript>): (ids: set<UUID>)
    ensures forall id :: id in ids <==> exists i :: 0 <= i < |history| && history[i].id == id
  {
    set t | t in history :: t.id
  }

  /** `history.firstIndex(where: { $0.id == id })`. */
  function FirstIndex(history: seq<Transcript>, id: UUID): (r: Option<nat>)
    ensures r.None? <==> id !in Ids(history)
    ensures r.Some? ==> r.value < |history| && history[r.value].id == id
                        && forall j :: 0 <= j < r.value ==> history[j].id != id
  {
    if |history| == 0 then None
    else if history[0].id == id then Some(0)
    else match FirstIndex(history[1..], id)
      case None => 
        assert forall j :: 1 <= j < |history| ==> history[j] == history[1..][j - 1];
        None
      case Some(i) => Some(i + 1)
  }

  /** `history.first(where: { $0.id == id })`. */
  function FirstTranscript(history: seq<Transcript>, id: UUID): (r: Option<Transcript>)
    ensures r.None? <==> id !in Ids(history)
    ensures r.Some? ==> r.value in history && r.value.id == id
    ensures r.Some? ==> exists i :: 0 <= i < |history| && history[i] == r.value
                                    && forall j :: 0 <= j < i ==> history[j].id != id
  {
    match FirstIndex(history, id)
    case None => None
    case Some(i) => Some(history[i])
  }

  /** Removing the first record with `id` leaves every record with another id in place. */
  lemma RemoveKeepsOtherIds(history: seq<Transcript>, i: nat, other: UUID)
    requires i < |history| && history[i].id != other && other in Ids(history)
    ensures other in Ids(history[..i] + history[i + 1..])
  {
    var rest := history[..i] + history[i + 1..];
    var j :| 0 <= j < |history| && history[j].id == other;
    if j < i {
      assert rest[j] == history[j];
    } else {
      assert rest[j - 1] == history[j];
    }
  }

  /** The effects of the `.run` closure that deletes each transcript's audio, in order. */
  method FileDeletions<A>(transcripts: seq<Transcript>) returns (effects: seq<Effect<A>>)
    ensures |effects| == |transcripts|
    ensures forall k :: 0 <= k < |transcripts| ==> effects[k] == DeleteFile(transcripts[k].audioPath)
  {
    effects := [];
    for i := 0 to |transcripts|
      invariant |effects| == i
      invariant forall k :: 0 <= k < i ==> effects[k] == DeleteFile(transcripts[k].audioPath)
    {
      effects := effects + [DeleteFile(transcripts[i].audioPath)];
    }
  }

  // ---------------------------------------------------------------------------
  // Prompt construction: filter to the selection, sort by date, render, join, wrap

  /** `history.filter { selectedTranscriptIDs.contains($0.id) }`. */
  function SelectedTranscripts(history: seq<Transcript>, ids: set<UUID>): (r: seq<Transcript>)
    ensures forall t :: multiset(r)[t] == if t.id in ids then multiset(history)[t] else 0
    ensures forall k :: 0 <= k < |r| ==> r[k].id in ids
  {
    if |history| == 0 then []
    else
      var rest := SelectedTranscripts(history[1..], ids);
      assert history == [history[0]] + history[1..];
      assert multiset(history) == multiset{history[0]} + multiset(history[1..]);
      if history[0].id in ids then [history[0]] + rest else rest
  }

  ghost predicate SortedByTimestamp(s: seq<Transcript>) {
    forall i, j :: 0 <= i < j < |s| ==> s[i].timestamp <= s[j].timestamp
  }

  /** Inserts `t` before the first record of `s` that is not earlier than it. */
  function InsertByTimestamp(t: Transcript, s: seq<Transcript>): (r: seq<Transcript>)
    requires SortedByTimestamp(s)
    ensures SortedByTimestamp(r)
    ensures multiset(r) == multiset(s) + multiset{t}
    ensures forall k :: 0 <= k < |r| ==> r[k] == t || r[k] in s
  {
    if |s| == 0 || t.timestamp <= s[0].timestamp then [t] + s
    else
      var tail := InsertByTimestamp(t, s[1..]);
      assert s == [s[0]] + s[1..];
      InsertAfterHead(t, s, tail);
      [s[0]] + tail
  }

  /** The sortedness step of `InsertByTimestamp` when `t` goes after the head. */
  lemma InsertAfterHead(t: Transcript, s: seq<Transcript>, tail: seq<Transcript>)
    requires SortedByTimestamp(s) && |s| > 0 && t.timestamp > s[0].timestamp
    requires SortedByTimestamp(tail)
    requires forall k :: 0 <= k < |tail| ==> tail[k] == t || tail[k] in s[1..]
    ensures SortedByTimestamp([s[0]] + tail)
    ensures forall k :: 0 <= k < |[s[0]] + tail| ==> ([s[0]] + tail)[k] == t || ([s[0]] + tail)[k] in s
  {
    var r := [s[0]] + tail;
    forall k | 0 <= k < |tail|
      ensures s[0].timestamp <= tail[k].timestamp
    {
      if tail[k] != t {
        var m :| 0 <= m < |s[1..]| && s[1..][m] == tail[k];
        assert s[m + 1] == tail[k];
      }
    }
    forall i, j | 0 <= i < j < |r|
      ensures r[i].timestamp <= r[j].timestamp
    {
      if i > 0 {
        assert r[i] == tail[i - 1] && r[j] == tail[j - 1];
      } else {
        assert r[j] == tail[j - 1];
      }
    }
    forall k | 0 <= k < |r|
      ensures r[k] == t || r[k] in s
    {
      if k > 0 && r[k] != t {
        assert r[k] == tail[k - 1];
        var m :| 0 <= m < |s[1..]| && s[1..][m] == tail[k - 1];
        assert s[m + 1] == r[k];
      }
    }
  }

  /** `sorted(by: { $0.timestamp < $1.timestamp })`, as a stable insertion sort. */
  function SortByTimestamp(s: seq<Transcript>): (r: seq<Transcript>)
    ensures SortedByTimestamp(r)
    ensures multiset(r) == multiset(s)
  {
    if |s| == 0 then []
    else
      assert s == [s[0]] + s[1..];
      InsertByTimestamp(s[0], SortByTimestamp(s[1..]))
  }

  /**
   * The records the prompt lists, in the order it lists them: exactly the
   * history records whose id is selected (each as often as in the history),
   * in ascending timestamp order.
   */
  function PromptRecords(history: seq<Transcript>, ids: set<UUID>): (r: seq<Transcript>)
    ensures SortedByTimestamp(r)
    ensures forall t :: multiset(r)[t] == if t.id in ids then multiset(history)[t] else 0
    ensures forall k :: 0 <= k < |r| ==> r[k] in history && r[k].id in ids
  {
    var selected := SelectedTranscripts(history, ids);
    var r := SortByTimestamp(selected);
    assert forall t :: t in r ==> multiset(r)[t] > 0;
    r
  }

  /** `"[\(timestamp.formatted(...))] \(text)"`; the date formatter is the parameter `format`. */
  function RenderLine(format: Timestamp -> string, t: Transcript): string {
    "[" + format(t.timestamp) + "] " + t.text
  }

  /** One rendered line per record; the contract only spells out the comprehension for the proofs that use it. */
  function Lines(format: Timestamp -> string, records: seq<Transcript>): (lines: seq<string>)
    ensures |lines| == |records|
    ensures forall k :: 0 <= k < |records| ==> lines[k] == RenderLine(format, records[k])
  {
    seq(|records|, k requires 0 <= k < |records| => RenderLine(format, records[k]))
  }

  /** `joined(separator:)`. */
  function Join(lines: seq<string>, separator: string): string {
    if |lines| == 0 then ""
    else if |lines| == 1 then lines[0]
    else lines[0] + separator + Join(lines[1..], separator)
  }

  /** Every joined line occurs in the joined text. */
  lemma {:induction false} JoinContainsLine(lines: seq<string>, separator: string, i: nat)
    requires i < |lines|
    ensures Contains(Join(lines, separator), lines[i])
  {
    if |lines| == 1 || i == 0 {
      ContainsItself(lines[0]);
      if |lines| > 1 {
        ContainsInLeft(lines[0], separator + Join(lines[1..], separator), lines[0]);
        assert Join(lines, separator) == lines[0] + (separator + Join(lines[1..], separator));
      }
    } else {
      JoinContainsLine(lines[1..], separator, i - 1);
      ContainsInRight(lines[0] + separator, Join(lines[1..], separator), lines[i]);
    }
  }

  const PromptIntro := "Please provide a concise summary of the following transcribed conversations. "
                       + "Focus on the key topics, decisions, and action items mentioned:"
  const LineSeparator := "\n\n"
  const PromptHead := PromptIntro + "\n\n"
  const PromptTail := "\n\nSummary:"

  /** The selected transcripts' lines, oldest first, separated by blank lines. */
  function CombinedText(history: seq<Transcript>, ids: set<UUID>, format: Timestamp -> string): string {
    Join(Lines(format, PromptRecords(history, ids)), LineSeparator)
  }

  /** The multi-line prompt literal: intro, blank line, the combined text, blank line, "Summary:". */
  function SummaryPrompt(history: seq<Transcript>, ids: set<UUID>, format: Timestamp -> string): string {
    PromptHead + CombinedText(history, ids, format) + PromptTail
  }

  /** Every selected record of the history is rendered into the prompt. */
  lemma SelectedRecordInPrompt(history: seq<Transcript>, ids: set<UUID>, format: Timestamp -> string, t: Transcript)
    requires t in history && t.id in ids
    ensures Contains(SummaryPrompt(history, ids, format), RenderLine(format, t))
  {
    var records := PromptRecords(history, ids);
    assert multiset(records)[t] > 0;
    assert t in records;
    var k :| 0 <= k < |records| && records[k] == t;
    JoinContainsLine(Lines(format, records), LineSeparator, k);
    ContainsInMiddle(PromptHead, CombinedText(history, ids, format), PromptTail, RenderLine(format, t));
  }

  /**
   * Selected ids that no longer name a record (deletion keeps them selected)
   * contribute nothing: with no selected record left, the prompt is the bare template.
   */
  lemma PromptWithoutSelectedRecords(history: seq<Transcript>, ids: set<UUID>, format: Timestamp -> string)
    requires forall k :: 0 <= k < |history| ==> history[k].id !in ids
    ensures SummaryPrompt(history, ids, format) == PromptHead + PromptTail
  {
    assert PromptRecords(history, ids) == [];
    assert CombinedText(history, ids, format) == "";
  }

  /** A sorted list holding exactly two records of different timestamps lists the older first. */
  lemma SortedPair(records: seq<Transcript>, a: Transcript, b: Transcript)
    requires SortedByTimestamp(records) && multiset(records) == multiset{a, b}
    requires a.timestamp > b.timestamp
    ensures records == [b, a]
  {
    assert |records| == |multiset(records)| == 2;
    assert records[0] in multiset(records) && records[1] in multiset(records);
  }

  /** When every record of the history is selected, the prompt records are the history, reordered. */
  lemma AllSelectedRecords(history: seq<Transcript>, ids: set<UUID>)
    requires forall k :: 0 <= k < |history| ==> history[k].id in ids
    ensures multiset(PromptRecords(history, ids)) == multiset(history)
  {
    var records := PromptRecords(history, ids);
    forall t
      ensures multiset(records)[t] == multiset(history)[t]
    {
      if t in history {
        assert t.id in ids;
      }
    }
  }

  /** The prompt records of a two-record history with both selected: older first. */
  lemma PairRecords(history: seq<Transcript>, a: Transcript, b: Transcript)
    requires multiset(history) == multiset{a, b}
    requires a.timestamp > b.timestamp
    ensures PromptRecords(history, {a.id, b.id}) == [b, a]
  {
    forall k | 0 <= k < |history|
      ensures history[k].id in {a.id, b.id}
    {
      assert history[k] in multiset(history);
    }
    AllSelectedRecords(history, {a.id, b.id});
    SortedPair(PromptRecords(history, {a.id, b.id}), a, b);
  }

  /** A history of two selected records, in either order, is listed oldest first. */
  lemma OlderRecordListedFirst(history: seq<Transcript>, a: Transcript, b: Transcript, format: Timestamp -> string)
    requires multiset(history) == multiset{a, b}
    requires a.timestamp > b.timestamp
    ensures CombinedText(history, {a.id, b.id}, format)
            == RenderLine(format, b) + LineSeparator + RenderLine(format, a)
  {
    PairRecords(history, a, b);
    var lines := Lines(format, [b, a]);
    assert lines == [RenderLine(format, b), RenderLine(format, a)];
    assert lines[1..] == [RenderLine(format, a)];
    assert Join(lines[1..], LineSeparator) == RenderLine(format, a);
  }

  // ---------------------------------------------------------------------------
  // What the `.run` effects send back

  /** `checkOllamaAvailability`'s closure: the probe's answer. */
  function ProbeReply(baseURL: string, get: string -> OllamaClient.Exchange<OllamaClient.OllamaModelsResponse>)
    : (a: Action)
    ensures a == OllamaAvailabilityChecked(get(OllamaClient.TagsURL(baseURL)).outcome == OllamaClient.HttpResponse(200))
  {
    OllamaAvailabilityChecked(OllamaClient.IsAvailable(baseURL, get))
  }

  /** `loadOllamaModels`' closure: the listed models, or no models when listing throws. */
  function LoadedModels(baseURL: string, get: string -> OllamaClient.Exchange<OllamaClient.OllamaModelsResponse>)
    : (models: seq<OllamaClient.OllamaModel>)
    ensures !OllamaClient.IsAvailable(baseURL, get) ==> models == []
    ensures var x := get(OllamaClient.TagsURL(baseURL));
            x.outcome == OllamaClient.HttpResponse(200) && x.body.Decoded? ==> models == x.body.value.models
    ensures var x := get(OllamaClient.TagsURL(baseURL));
            x.body.DecodingError? ==> models == []
  {
    match OllamaClient.GetAvailableModels(baseURL, get)
    case Success(models) => models
    case Failure(_) => []
  }

  /** `generateSummary`'s closure: the summary, or the failure's localized description. */
  function SummaryReply(prompt: string, model: string, baseURL: string,
                        post: OllamaClient.HttpRequest -> OllamaClient.Exchange<OllamaClient.OllamaGenerateResponse>)
    : Action
  {
    match OllamaClient.GenerateSummary(prompt, model, baseURL, post)
    case Success(summary) => SummaryGenerated(summary)
    case Failure(error) => SummaryGenerationFailed(error.localizedDescription)
  }

  /**
   * When the lower layers raise only foreign errors, the summary effect sends
   * the response text exactly when the exchange is HTTP 200 and decodes, and
   * otherwise a failure text that reads back as the exchange's failure category.
   */
  lemma SummaryReplyIdentifiesCause(prompt: string, model: string, baseURL: string,
                                    post: OllamaClient.HttpRequest -> OllamaClient.Exchange<OllamaClient.OllamaGenerateResponse>)
    requires var x := post(OllamaClient.GenerateRequest(prompt, model, baseURL));
      && (x.outcome.TransportError? ==> x.outcome.error.domain != OllamaClient.ErrorDomain)
      && (x.body.DecodingError? ==> x.body.error.domain != OllamaClient.ErrorDomain)
    ensures var x := post(OllamaClient.GenerateRequest(prompt, model, baseURL));
            var a := SummaryReply(prompt, model, baseURL, post);
      && (a.SummaryGenerated? || a.SummaryGenerationFailed?)
      && (a.SummaryGenerated? <==> x.outcome == OllamaClient.HttpResponse(200) && x.body.Decoded?)
      && (a.SummaryGenerated? ==> a.summary == x.body.value.response)
      && (a.SummaryGenerationFailed? ==>
            OllamaClient.Classify(a.error) == OllamaClient.ExpectedError(model, baseURL, x))
  {
    OllamaClient.FailureMessageIdentifiesCause(prompt, model, baseURL, post);
  }

  /** An HTTP 404 shows the user the model's name and that it was not found. */
  lemma NotFoundReplyNamesModel(prompt: string, model: string, baseURL: string,
                                post: OllamaClient.HttpRequest -> OllamaClient.Exchange<OllamaClient.OllamaGenerateResponse>)
    requires post(OllamaClient.GenerateRequest(prompt, model, baseURL)).outcome == OllamaClient.HttpResponse(404)
    ensures var a := SummaryReply(prompt, model, baseURL, post);
      a.SummaryGenerationFailed? && Contains(a.error, model) && Contains(a.error, OllamaClient.NotFoundPhrase)
  {
    OllamaClient.GenerateSummaryErrors(prompt, model, baseURL, post);
    OllamaClient.NotFoundMessageNamesModel(model);
  }

  // ---------------------------------------------------------------------------
  // State

  /** The controller that owns one `AVAudioPlayer`; `hasPlayer` is `player != nil`. */
  class AudioPlayerController {
    var hasPlayer: bool

    constructor ()
      ensures !hasPlayer
    {
      hasPlayer := false;
    }

    /** Opens and starts the file at `url`; `opens` says whether `AVAudioPlayer(contentsOf:)` succeeds. */
    method Play(url: string, opens: string -> bool) returns (ok: bool)
      modifies this
      ensures ok == opens(url)
      ensures hasPlayer == (old(hasPlayer) || ok)
    {
      ok := opens(url);
      if ok {
        hasPlayer := true;
      }
    }

    method Stop()
      modifies this
      ensures !hasPlayer
    {
      hasPlayer := false;
    }
  }

  class History {
    var transcriptionHistory: TranscriptionHistory
    var hexSettings: HexSettings
    var playingTranscriptID: Option<UUID>
    var audioPlayer: bool   // `audioPlayer != nil`
    var audioPlayerController: AudioPlayerController?
    var selectedTranscriptIDs: set<UUID>
    var isSelectionMode: bool
    var isSummarySheetPresented: bool
    var isGeneratingSummary: bool
    var generatedSummary: Option<string>
    var summaryError: Option<string>
    var availableOllamaModels: seq<OllamaClient.OllamaModel>
    var ollamaAvailable: bool

    /**
     * Player and controller are held together, only while some transcript is
     * playing, and the playing transcript is one of the history's records.
     */
    ghost predicate Valid()
      reads this
    {
      && audioPlayer == (audioPlayerController != null)
      && (audioPlayerController != null ==> playingTranscriptID.Some?)
      && (playingTranscriptID.Some? ==> playingTranscriptID.value in Ids(transcriptionHistory.history))
    }

    constructor (transcriptionHistory: TranscriptionHistory, hexSettings: HexSettings)
      ensures this.transcriptionHistory == transcriptionHistory && this.hexSettings == hexSettings
      ensures playingTranscriptID == None && !audioPlayer && audioPlayerController == null
      ensures selectedTranscriptIDs == {} && !isSelectionMode
      ensures !isSummarySheetPresented && !isGeneratingSummary && generatedSummary == None && summaryError == None
      ensures availableOllamaModels == [] && !ollamaAvailable
      ensures Valid()
    {
      this.transcriptionHistory := transcriptionHistory;
      this.hexSettings := hexSettings;
      playingTranscriptID := None;
      audioPlayer := false;
      audioPlayerController := null;
      selectedTranscriptIDs := {};
      isSelectionMode := false;
      isSummarySheetPresented := false;
      isGeneratingSummary := false;
      generatedSummary := None;
      summaryError := None;
      availableOllamaModels := [];
      ollamaAvailable := false;
    }

    /** `audioPlayerController?.stop(); audioPlayer = nil; audioPlayerController = nil`. */
    method ReleasePlayer()
      modifies this`audioPlayer, this`audioPlayerController, audioPlayerController
      ensures old(audioPlayerController) != null ==> !old(audioPlayerController).hasPlayer
      ensures !audioPlayer && audioPlayerController == null
      ensures old(Valid()) ==> Valid()
    {
      if audioPlayerController != null {
        audioPlayerController.Stop();
      }
      audioPlayer := false;
      audioPlayerController := null;
    }

    /**
     * Tapping the transcript that is playing stops it. Any other tap stops the
     * current player first; then, if the transcript exists and its file opens,
     * it plays. When it is missing or does not open, the old player is gone but
     * `playingTranscriptID` keeps its old value.
     */
    method PlayTranscript(id: UUID, opens: string -> bool) returns (effects: seq<Effect<Action>>)
      modifies this`playingTranscriptID, this`audioPlayer, this`audioPlayerController, audioPlayerController
      ensures old(audioPlayerController) != null ==> !old(audioPlayerController).hasPlayer
      ensures old(playingTranscriptID) == Some(id) ==>
        playingTranscriptID == None && !audioPlayer && audioPlayerController == null && effects == []
      ensures old(playingTranscriptID) != Some(id) ==>
        var found := FirstTranscript(transcriptionHistory.history, id);
        if found.Some? && opens(found.value.audioPath) then
          && playingTranscriptID == Some(id) && audioPlayer
          && audioPlayerController != null && fresh(audioPlayerController) && audioPlayerController.hasPlayer
          && effects == [AwaitPlaybackFinished]
        else
          playingTranscriptID == old(playingTranscriptID) && !audioPlayer && audioPlayerController == null
          && effects == []
      ensures old(Valid()) ==> Valid()
    {
      if playingTranscriptID == Some(id) {
        ReleasePlayer();
        playingTranscriptID := None;
        return [];
      }
      ReleasePlayer();
      var found := FirstTranscript(transcriptionHistory.history, id);
      if found.None? {
        return [];
      }
      var controller := new AudioPlayerController();
      var ok := controller.Play(found.value.audioPath, opens);
      if !ok {
        return [];
      }
      audioPlayer := true;
      audioPlayerController := controller;
      playingTranscriptID := Some(id);
      effects := [AwaitPlaybackFinished];
    }

    /** `stopPlayback`: stops and forgets the player; a second stop changes nothing. */
    method StopPlayback() returns (effects: seq<Effect<Action>>)
      modifies this`playingTranscriptID, this`audioPlayer, this`audioPlayerController, audioPlayerController
      ensures old(audioPlayerController) != null ==> !old(audioPlayerController).hasPlayer
      ensures playingTranscriptID == None && !audioPlayer && audioPlayerController == null && effects == []
      ensures old(playingTranscriptID == None && !audioPlayer && audioPlayerController == null) ==> unchanged(this)
      ensures old(Valid()) ==> Valid()
    {
      ReleasePlayer();
      playingTranscriptID := None;
      effects := [];
    }

    /** `playbackFinished` is handled exactly as `stopPlayback`. */
    method PlaybackFinished() returns (effects: seq<Effect<Action>>)
      modifies this`playingTranscriptID, this`audioPlayer, this`audioPlayerController, audioPlayerController
      ensures old(audioPlayerController) != null ==> !old(audioPlayerController).hasPlayer
      ensures playingTranscriptID == None && !audioPlayer && audioPlayerController == null && effects == []
      ensures old(playingTranscriptID == None && !audioPlayer && audioPlayerController == null) ==> unchanged(this)
      ensures old(Valid()) ==> Valid()
    {
      effects := StopPlayback();
    }

    method CopyToClipboard(text: string) returns (effects: seq<Effect<Action>>)
      ensures effects == [WriteToPasteboard(text)]
    {
      effects := [WriteToPasteboard(text)];
    }

    /**
     * Deletes the first record with `id` and schedules deletion of its audio
     * file; stops playback only if that id is playing. The selection is not
     * touched, so a deleted id stays selected.
     */
    method DeleteTranscript(id: UUID) returns (effects: seq<Effect<Action>>)
      modifies this`transcriptionHistory, this`playingTranscriptID, this`audioPlayer, this`audioPlayerController,
               audioPlayerController
      ensures FirstIndex(old(transcriptionHistory.history), id).None? ==>
        unchanged(this) && (audioPlayerController != null ==> unchanged(audioPlayerController)) && effects == []
      ensures FirstIndex(old(transcriptionHistory.history), id).Some? ==>
        var before := old(transcriptionHistory.history);
        var i := FirstIndex(before, id).value;
        && transcriptionHistory.history == before[..i] + before[i + 1..]
        && effects == [DeleteFile(before[i].audioPath)]
        && (old(playingTranscriptID) == Some(id) ==>
              && playingTranscriptID == None && !audioPlayer && audioPlayerController == null
              && (old(audioPlayerController) != null ==> !old(audioPlayerController).hasPlayer))
        && (old(playingTranscriptID) != Some(id) ==>
              && playingTranscriptID == old(playingTranscriptID) && audioPlayer == old(audioPlayer)
              && audioPlayerController == old(audioPlayerController)
              && (audioPlayerController != null ==> unchanged(audioPlayerController)))
      ensures old(Valid()) ==> Valid()
    {
      var index := FirstIndex(transcriptionHistory.history, id);
      if index.None? {
        return [];
      }
      var i := index.value;
      var before := transcriptionHistory.history;
      var transcript := before[i];
      if playingTranscriptID == Some(id) {
        ReleasePlayer();
        playingTranscriptID := None;
      } else if playingTranscriptID.Some? && playingTranscriptID.value in Ids(before) {
        RemoveKeepsOtherIds(before, i, playingTranscriptID.value);
      }
      transcriptionHistory := transcriptionHistory.(history := before[..i] + before[i + 1..]);
      effects := [DeleteFile(transcript.audioPath)];
    }

    /** `deleteAllTranscripts` only asks for confirmation by sending `confirmDeleteAll`. */
    method DeleteAllTranscripts() returns (effects: seq<Effect<Action>>)
      ensures effects == [Send(Action.ConfirmDeleteAll)]
    {
      effects := [Send(Action.ConfirmDeleteAll)];
    }

    /**
     * Empties the history, stops playback and deletes the audio file of every
     * record that was in the history, in history order. The selection is kept.
     */
    method ConfirmDeleteAll() returns (effects: seq<Effect<Action>>)
      modifies this`transcriptionHistory, this`playingTranscriptID, this`audioPlayer, this`audioPlayerController,
               audioPlayerController
      ensures transcriptionHistory.history == []
      ensures playingTranscriptID == None && !audioPlayer && audioPlayerController == null
      ensures old(audioPlayerController) != null ==> !old(audioPlayerController).hasPlayer
      ensures |effects| == |old(transcriptionHistory.history)|
      ensures forall k :: 0 <= k < |effects| ==> effects[k] == DeleteFile(old(transcriptionHistory.history)[k].audioPath)
      ensures Valid()
    {
      var transcripts := transcriptionHistory.history;
      ReleasePlayer();
      playingTranscriptID := None;
      transcriptionHistory := transcriptionHistory.(history := []);
      effects := FileDeletions(transcripts);
    }

    /** Handled by the parent reducer. */
    method NavigateToSettings() returns (effects: seq<Effect<Action>>)
      ensures effects == []
    {
      effects := [];
    }

    /** Entering selection mode keeps the selection; leaving it clears the selection. */
    method ToggleSelectionMode() returns (effects: seq<Effect<Action>>)
      modifies this`isSelectionMode, this`selectedTranscriptIDs
      ensures isSelectionMode == !old(isSelectionMode)
      ensures selectedTranscriptIDs == if isSelectionMode then old(selectedTranscriptIDs) else {}
      ensures effects == []
    {
      isSelectionMode := !isSelectionMode;
      if !isSelectionMode {
        selectedTranscriptIDs := {};
      }
      effects := [];
    }

    method ToggleTranscriptSelection(id: UUID) returns (effects: seq<Effect<Action>>)
      modifies this`selectedTranscriptIDs
      ensures selectedTranscriptIDs == ToggleMembership(old(selectedTranscriptIDs), id)
      ensures effects == []
    {
      if id in selectedTranscriptIDs {
        selectedTranscriptIDs := selectedTranscriptIDs - {id};
      } else {
        selectedTranscriptIDs := selectedTranscriptIDs + {id};
      }
      effects := [];
    }

    method SelectAllTranscripts() returns (effects: seq<Effect<Action>>)
      modifies this`selectedTranscriptIDs
      ensures selectedTranscriptIDs == Ids(transcriptionHistory.history)
      ensures effects == []
    {
      selectedTranscriptIDs := Ids(transcriptionHistory.history);
      effects := [];
    }

    method DeselectAllTranscripts() returns (effects: seq<Effect<Action>>)
      modifies this`selectedTranscriptIDs
      ensures selectedTranscriptIDs == {}
      ensures effects == []
    {
      selectedTranscriptIDs := {};
      effects := [];
    }

    /** The guard of both summary actions. */
    predicate CanSummarize()
      reads this
    {
      selectedTranscriptIDs != {} && hexSettings.ollamaEnabled
    }

    /**
     * With a selection and Ollama enabled: opens the summary sheet, clears the
     * previous result and asks Ollama for a summary of the selection. There is
     * no guard against a summary already being generated.
     */
    method GenerateSummary(format: Timestamp -> string) returns (effects: seq<Effect<Action>>)
      modifies this`isSummarySheetPresented, this`isGeneratingSummary, this`generatedSummary, this`summaryError
      ensures !old(CanSummarize()) ==> unchanged(this) && effects == []
      ensures old(CanSummarize()) ==>
        && isSummarySheetPresented && isGeneratingSummary && generatedSummary == None && summaryError == None
        && effects == [RequestSummary(SummaryPrompt(transcriptionHistory.history, selectedTranscriptIDs, format),
                                      hexSettings.ollamaModel, hexSettings.ollamaBaseURL)]
    {
      if !CanSummarize() {
        return [];
      }
      isSummarySheetPresented := true;
      isGeneratingSummary := true;
      generatedSummary := None;
      summaryError := None;
      var prompt := SummaryPrompt(transcriptionHistory.history, selectedTranscriptIDs, format);
      effects := [RequestSummary(prompt, hexSettings.ollamaModel, hexSettings.ollamaBaseURL)];
    }

    /** As `GenerateSummary`, except that it leaves the sheet as it is. */
    method RegenerateSummary(format: Timestamp -> string) returns (effects: seq<Effect<Action>>)
      modifies this`isGeneratingSummary, this`generatedSummary, this`summaryError
      ensures !old(CanSummarize()) ==> unchanged(this) && effects == []
      ensures old(CanSummarize()) ==>
        && isGeneratingSummary && generatedSummary == None && summaryError == None
        && effects == [RequestSummary(SummaryPrompt(transcriptionHistory.history, selectedTranscriptIDs, format),
                                      hexSettings.ollamaModel, hexSettings.ollamaBaseURL)]
    {
      if !CanSummarize() {
        return [];
      }
      isGeneratingSummary := true;
      generatedSummary := None;
      summaryError := None;
      var prompt := SummaryPrompt(transcriptionHistory.history, selectedTranscriptIDs, format);
      effects := [RequestSummary(prompt, hexSettings.ollamaModel, hexSettings.ollamaBaseURL)];
    }

    method DismissSummarySheet() returns (effects: seq<Effect<Action>>)
      modifies this`isSummarySheetPresented, this`isGeneratingSummary, this`generatedSummary, this`summaryError
      ensures !isSummarySheetPresented && !isGeneratingSummary && generatedSummary == None && summaryError == None
      ensures effects == []
    {
      isSummarySheetPresented := false;
      isGeneratingSummary := false;
      generatedSummary := None;
      summaryError := None;
      effects := [];
    }

    /** Sets the summary; an earlier error message is left in place. */
    method SummaryGenerated(summary: string) returns (effects: seq<Effect<Action>>)
      modifies this`isGeneratingSummary, this`generatedSummary
      ensures !isGeneratingSummary && generatedSummary == Some(summary)
      ensures effects == []
    {
      isGeneratingSummary := false;
      generatedSummary := Some(summary);
      effects := [];
    }

    /** Sets the error message; an earlier summary is left in place. */
    method SummaryGenerationFailed(error: string) returns (effects: seq<Effect<Action>>)
      modifies this`isGeneratingSummary, this`summaryError
      ensures !isGeneratingSummary && summaryError == Some(error)
      ensures effects == []
    {
      isGeneratingSummary := false;
      summaryError := Some(error);
      effects := [];
    }

    method CheckOllamaAvailability() returns (effects: seq<Effect<Action>>)
      ensures effects == [ProbeOllama(hexSettings.ollamaBaseURL)]
    {
      effects := [ProbeOllama(hexSettings.ollamaBaseURL)];
    }

    /** Records the probe's answer; only a positive answer reloads the models, a negative one keeps them. */
    method OllamaAvailabilityChecked(available: bool) returns (effects: seq<Effect<Action>>)
      modifies this`ollamaAvailable
      ensures ollamaAvailable == available
      ensures effects == if available then [Send(Action.LoadOllamaModels)] else []
    {
      ollamaAvailable := available;
      if available {
        effects := [Send(Action.LoadOllamaModels)];
      } else {
        effects := [];
      }
    }

    method LoadOllamaModels() returns (effects: seq<Effect<Action>>)
      ensures effects == [FetchOllamaModels(hexSettings.ollamaBaseURL)]
    {
      effects := [FetchOllamaModels(hexSettings.ollamaBaseURL)];
    }

    method OllamaModelsLoaded(models: seq<OllamaClient.OllamaModel>) returns (effects: seq<Effect<Action>>)
      modifies this`availableOllamaModels
      ensures availableOllamaModels == models
      ensures effects == []
    {
      availableOllamaModels := models;
      effects := [];
    }
  }

  /** Membership of `id` flipped, every other id kept. */
  function ToggleMembership(ids: set<UUID>, id: UUID): (r: set<UUID>)
    ensures id in r <==> id !in ids
    ensures forall other :: other != id ==> (other in r <==> other in ids)
  {
    if id in ids then ids - {id} else ids + {id}
  }

  /** Toggling the same id twice restores the selection. */
  lemma ToggleTwice(ids: set<UUID>, id: UUID)
    ensures ToggleMembership(ToggleMembership(ids, id), id) == ids
  {
  }
}
