/**
 * The live Ollama client: liveness probe, model listing and summary
 * generation over HTTP. The URL session is a parameter: a function from the
 * request (or URL) to what the session delivers, which is a transport error, a
 * response that is not HTTP, or an HTTP status, together with what
 * `JSONDecoder` makes of the body.
 */
module OllamaClient {
  import opened Wrappers
  import opened Strings

  newtype Int64 = x: int | -0x8000_0000_0000_0000 <= x < 0x8000_0000_0000_0000

  /** A model in Ollama's catalog; JSON key of `modifiedAt` is `modified_at`. */
  datatype OllamaModel = OllamaModel(name: string, modifiedAt: string, size: Int64) {
    /** `Identifiable`: a model is identified by its name. */
    function Id(): string {
      name
    }
  }

  datatype OllamaModelsResponse = OllamaModelsResponse(models: seq<OllamaModel>)

  /** Body of a generate request; it always asks for a non-streamed answer. */
  datatype OllamaGenerateRequest = OllamaGenerateRequest(model: string, prompt: string) {
    const stream: bool := false
  }

  datatype OllamaGenerateResponse = OllamaGenerateResponse(model: string, response: string, done: bool)

  /** Foundation's `NSError`, with its localized description. */
  datatype NSError = NSError(domain: string, code: int, localizedDescription: string)

  const ErrorDomain := "OllamaClient"

  /** A `URLRequest` as `generateSummary` sets it up. */
  datatype HttpRequest = HttpRequest(
    url: string,
    httpMethod: string,
    headers: map<string, string>,
    timeoutInterval: int,
    body: OllamaGenerateRequest)

  /** What the session's `data(from:)` / `data(for:)` produced. */
  datatype HttpOutcome =
    | TransportError(error: NSError)   // the call threw
    | NonHttpResponse                  // the response is not an `HTTPURLResponse`
    | HttpResponse(statusCode: int)

  /** What `JSONDecoder.decode` makes of the response body. */
  datatype Decoding<T> = Decoded(value: T) | DecodingError(error: NSError)

  datatype Exchange<T> = Exchange(outcome: HttpOutcome, body: Decoding<T>)

  function TagsURL(baseURL: string): string {
    baseURL + "/api/tags"
  }

  function GenerateURL(baseURL: string): string {
    baseURL + "/api/generate"
  }

  /** The request `generateSummary` sends. */
  function GenerateRequest(prompt: string, model: string, baseURL: string): HttpRequest {
    HttpRequest(GenerateURL(baseURL), "POST", map["Content-Type" := "application/json"], 60,
                OllamaGenerateRequest(model, prompt))
  }

  // ---------------------------------------------------------------------------
  // The errors the client builds

  /** Every error `OllamaClientLive` creates itself (all in domain "OllamaClient"). */
  datatype OllamaError =
    | ServerNotAvailable            // model listing: no HTTP 200
    | InvalidResponse               // generate: response is not HTTP
    | ModelNotFound(model: string)  // generate: HTTP 404
    | ServerError                   // generate: HTTP 500
    | ServiceUnavailable            // generate: HTTP 503
    | HttpError(statusCode: int)    // generate: any other non-200 status
    | Timeout                       // generate: a foreign error mentioning "timed out"
    | ConnectionRefused(baseURL: string)    // ... else mentioning "connection"
    | NetworkError(description: string)    // ... any other foreign error

  // Phrases some messages contain, named so that lemmas can point at them.
  const NotFoundPhrase := "not found"
  const ModelNotLoadedPhrase := "model is loaded"
  const NotRunningPhrase := "Make sure Ollama is running"

  const NotAvailableText := "Ollama server not available"
  const InvalidResponseText := "Invalid response from Ollama server"
  const NotFoundPrefix := "Model '"
  const NotFoundSuffix := "' " + NotFoundPhrase + ". Make sure the model is installed in Ollama."
  const ServerErrorText := "Ollama server error. " + "Check if the " + ModelNotLoadedPhrase + " and working properly."
  const UnavailableText := "Ollama server unavailable. " + NotRunningPhrase + "."
  const HttpErrorPrefix := "Ollama server error (HTTP "
  const TimeoutText := "Request timed out. " + "The model might be taking too long to respond."
  const ConnectPrefix := "Cannot connect to Ollama. " + NotRunningPhrase + " on "
  const NetworkPrefix := "Network error: "

  /** The `NSLocalizedDescriptionKey` text of each error. */
  function Message(e: OllamaError): string {
    match e
    case ServerNotAvailable => NotAvailableText
    case InvalidResponse => InvalidResponseText
    case ModelNotFound(model) => NotFoundPrefix + model + NotFoundSuffix
    case ServerError => ServerErrorText
    case ServiceUnavailable => UnavailableText
    case HttpError(status) => HttpErrorPrefix + IntToString(status) + ")"
    case Timeout => TimeoutText
    case ConnectionRefused(baseURL) => ConnectPrefix + baseURL
    case NetworkError(description) => NetworkPrefix + description
  }

  /** The `NSError` code of each error. */
  function Code(e: OllamaError): int {
    match e
    case ServerNotAvailable => 1
    case InvalidResponse => 2
    case ModelNotFound(_) => 404
    case ServerError => 500
    case ServiceUnavailable => 503
    case HttpError(status) => status
    case Timeout => 1
    case ConnectionRefused(_) => 1
    case NetworkError(_) => 1
  }

  function ToNSError(e: OllamaError): (r: NSError)
    ensures r.domain == ErrorDomain
  {
    NSError(ErrorDomain, Code(e), Message(e))
  }

  /** The error for a non-200 status of a generate request. */
  function StatusError(statusCode: int, model: string): (e: OllamaError)
    ensures Code(e) == statusCode
  {
    if statusCode == 404 then ModelNotFound(model)
    else if statusCode == 500 then ServerError
    else if statusCode == 503 then ServiceUnavailable
    else HttpError(statusCode)
  }

  /**
   * The error that replaces a foreign error with description `description`: the
   * tests are made in this order, so a description mentioning both "timed out"
   * and "connection" is a timeout.
   */
  function TransportErrorFor(description: string, baseURL: string): (e: OllamaError)
    ensures Code(e) == 1
  {
    if Contains(description, "timed out") then Timeout
    else if Contains(description, "connection") then ConnectionRefused(baseURL)
    else NetworkError(description)
  }

  /**
   * What a foreign error is turned into, tested in order: a timeout gets the
   * fixed timeout text, a connection failure names the server's base URL, and
   * anything else keeps its own description behind "Network error: ".
   */
  lemma TransportMessages(description: string, baseURL: string)
    ensures Contains(description, "timed out") ==>
              Message(TransportErrorFor(description, baseURL)) == TimeoutText
    ensures !Contains(description, "timed out") && Contains(description, "connection") ==>
              Contains(Message(TransportErrorFor(description, baseURL)), baseURL)
              && Contains(Message(TransportErrorFor(description, baseURL)), NotRunningPhrase)
    ensures !Contains(description, "timed out") && !Contains(description, "connection") ==>
              Message(TransportErrorFor(description, baseURL)) == NetworkPrefix + description
  {
    if !Contains(description, "timed out") && Contains(description, "connection") {
      ContainsItself(baseURL);
      ContainsInRight(ConnectPrefix, baseURL, baseURL);
      ContainsItself(NotRunningPhrase);
      ContainsInMiddle("Cannot connect to Ollama. ", NotRunningPhrase, " on ", NotRunningPhrase);
      ContainsInLeft(ConnectPrefix, baseURL, NotRunningPhrase);
    }
  }

  /** Reads an error message back into the error it describes. */
  function Classify(message: string): Option<OllamaError> {
    if message == NotAvailableText then Some(ServerNotAvailable)
    else if message == InvalidResponseText then Some(InvalidResponse)
    else if message == ServerErrorText then Some(ServerError)
    else if message == UnavailableText then Some(ServiceUnavailable)
    else if message == TimeoutText then Some(Timeout)
    else if StartsWith(message, HttpErrorPrefix) && EndsWith(message, ")") && |HttpErrorPrefix| < |message| then
      Some(HttpError(ParseInt(message[|HttpErrorPrefix|..|message| - 1])))
    else if StartsWith(message, NotFoundPrefix) && EndsWith(message, NotFoundSuffix)
         && |NotFoundPrefix| + |NotFoundSuffix| <= |message| then
      Some(ModelNotFound(message[|NotFoundPrefix|..|message| - |NotFoundSuffix|]))
    else if StartsWith(message, ConnectPrefix) then Some(ConnectionRefused(message[|ConnectPrefix|..]))
    else if StartsWith(message, NetworkPrefix) then Some(NetworkError(message[|NetworkPrefix|..]))
    else None
  }

  lemma PartsOfConcat(a: string, b: string, c: string)
    ensures StartsWith(a + b + c, a) && EndsWith(a + b + c, c)
    ensures (a + b + c)[|a|..|a + b + c| - |c|] == b
  {
    var s := a + b + c;
    assert s[..|a|] == a;
    assert s[|s| - |c|..] == c;
    assert s[|a|..|s| - |c|] == b;
  }

  lemma ClassifyModelNotFound(model: string)
    ensures Classify(Message(ModelNotFound(model))) == Some(ModelNotFound(model))
  {
    var m := Message(ModelNotFound(model));
    PartsOfConcat(NotFoundPrefix, model, NotFoundSuffix);
    assert m[0] == 'M';
    assert !StartsWith(m, HttpErrorPrefix);
  }

  lemma ClassifyHttpError(status: int)
    ensures Classify(Message(HttpError(status))) == Some(HttpError(status))
  {
    var n := IntToString(status);
    var m := Message(HttpError(status));
    PartsOfConcat(HttpErrorPrefix, n, ")");
    assert m[0] == 'O' && m[14] == 'e' && m[19] == ' ';
    assert m != NotAvailableText by { assert NotAvailableText[14] == 'n'; }
    assert m != InvalidResponseText by { assert InvalidResponseText[0] == 'I'; }
    assert m != ServerErrorText by { assert ServerErrorText[19] == '.'; }
    assert m != UnavailableText by { assert UnavailableText[14] == 'u'; }
    assert m != TimeoutText by { assert TimeoutText[0] == 'R'; }
    assert StartsWith(m, HttpErrorPrefix) && EndsWith(m, ")") && |HttpErrorPrefix| < |m|;
    assert m[|HttpErrorPrefix|..|m| - 1] == n;
    ParseIntToString(status);
  }

  lemma ClassifyConnectionRefused(baseURL: string)
    ensures Classify(Message(ConnectionRefused(baseURL))) == Some(ConnectionRefused(baseURL))
  {
    var m := Message(ConnectionRefused(baseURL));
    assert m[..|ConnectPrefix|] == ConnectPrefix;
    assert m[|ConnectPrefix|..] == baseURL;
    assert m[0] == 'C';
    assert !StartsWith(m, HttpErrorPrefix) && !StartsWith(m, NotFoundPrefix);
  }

  lemma ClassifyNetworkError(description: string)
    ensures Classify(Message(NetworkError(description))) == Some(NetworkError(description))
  {
    var m := Message(NetworkError(description));
    assert m[..|NetworkPrefix|] == NetworkPrefix;
    assert m[|NetworkPrefix|..] == description;
    assert m[0] == 'N';
    assert !StartsWith(m, HttpErrorPrefix) && !StartsWith(m, NotFoundPrefix) && !StartsWith(m, ConnectPrefix);
  }

  /**
   * No two errors share a message: each message says which error it is, and
   * the model name, base URL, status code or description it embeds.
   */
  lemma ClassifyMessage(e: OllamaError)
    ensures Classify(Message(e)) == Some(e)
  {
    match e {
      case ServerNotAvailable =>
      case InvalidResponse =>
      case ServerError =>
      case ServiceUnavailable =>
      case Timeout =>
      case ModelNotFound(model) => ClassifyModelNotFound(model);
      case HttpError(status) => ClassifyHttpError(status);
      case ConnectionRefused(baseURL) => ClassifyConnectionRefused(baseURL);
      case NetworkError(description) => ClassifyNetworkError(description);
    }
  }

  /** Two errors with the same message are the same error. */
  lemma MessageInjective(e1: OllamaError, e2: OllamaError)
    requires Message(e1) == Message(e2)
    ensures e1 == e2
  {
    ClassifyMessage(e1);
    ClassifyMessage(e2);
  }

  /** A 404 names the missing model and says it was not found. */
  lemma NotFoundMessageNamesModel(model: string)
    ensures Contains(Message(StatusError(404, model)), model)
    ensures Contains(Message(StatusError(404, model)), NotFoundPhrase)
  {
    var m := Message(StatusError(404, model));
    var head := NotFoundPrefix + model;
    assert m == head + NotFoundSuffix;
    assert OccursAt(head, model, |NotFoundPrefix|) by {
      assert head[|NotFoundPrefix|..|NotFoundPrefix| + |model|] == model;
    }
    OccursInConcat(NotFoundSuffix, head, model, |NotFoundPrefix|);
    var tail := ". Make sure the model is installed in Ollama.";
    assert OccursAt(NotFoundSuffix, NotFoundPhrase, 2) by {
      assert NotFoundSuffix == "' " + NotFoundPhrase + tail;
      assert NotFoundSuffix[2..2 + |NotFoundPhrase|] == NotFoundPhrase;
    }
    OccursInConcat(head, NotFoundSuffix, NotFoundPhrase, 2);
  }

  /** A 503 tells the user to start Ollama; a 500 points at the model. */
  lemma ServerStatusMessages(model: string)
    ensures Contains(Message(StatusError(503, model)), NotRunningPhrase)
    ensures Contains(Message(StatusError(500, model)), ModelNotLoadedPhrase)
  {
    ContainsItself(NotRunningPhrase);
    ContainsInRight("Ollama server unavailable. ", NotRunningPhrase, NotRunningPhrase);
    ContainsInLeft("Ollama server unavailable. " + NotRunningPhrase, ".", NotRunningPhrase);
    ContainsItself(ModelNotLoadedPhrase);
    ContainsInRight("Ollama server error. " + "Check if the ", ModelNotLoadedPhrase, ModelNotLoadedPhrase);
    ContainsInLeft("Ollama server error. " + "Check if the " + ModelNotLoadedPhrase, " and working properly.", ModelNotLoadedPhrase);
  }

  /** Any other status is reported with its number. */
  lemma OtherStatusMessage(statusCode: int, model: string)
    requires statusCode !in {404, 500, 503}
    ensures Contains(Message(StatusError(statusCode, model)), IntToString(statusCode))
  {
    var n := IntToString(statusCode);
    ContainsItself(n);
    ContainsInRight(HttpErrorPrefix, n, n);
    ContainsInLeft(HttpErrorPrefix + n, ")", n);
  }

  // ---------------------------------------------------------------------------
  // The three operations

  /** `isAvailable`: GET the catalog; available iff the answer is HTTP 200. Never throws. */
  function IsAvailable(baseURL: string, get: string -> Exchange<OllamaModelsResponse>): (available: bool)
    ensures available <==> get(TagsURL(baseURL)).outcome == HttpResponse(200)
  {
    match get(TagsURL(baseURL)).outcome
    case HttpResponse(statusCode) => statusCode == 200
    case _ => false
  }

  /** `getAvailableModels`: GET the catalog and decode its `models` array. */
  function GetAvailableModels(baseURL: string, get: string -> Exchange<OllamaModelsResponse>)
    : (r: Result<seq<OllamaModel>, NSError>)
    ensures var x := get(TagsURL(baseURL));
      && (r.Success? <==> x.outcome == HttpResponse(200) && x.body.Decoded?)
      && (r.Success? ==> r.value == x.body.value.models)
      && (x.outcome.TransportError? ==> r == Failure(x.outcome.error))
      && (x.outcome.NonHttpResponse? || (x.outcome.HttpResponse? && x.outcome.statusCode != 200)
          ==> r == Failure(NSError(ErrorDomain, 1, NotAvailableText)))
      && (x.outcome == HttpResponse(200) && x.body.DecodingError? ==> r == Failure(x.body.error))
  {
    var x := get(TagsURL(baseURL));
    match x.outcome
    case TransportError(e) => Failure(e)
    case NonHttpResponse => Failure(ToNSError(ServerNotAvailable))
    case HttpResponse(statusCode) =>
      if statusCode != 200 then Failure(ToNSError(ServerNotAvailable))
      else match x.body
        case Decoded(response) => Success(response.models)
        case DecodingError(e) => Failure(e)
  }

  /** Models are only ever listed by a server that the probe reports available. */
  lemma ModelsOnlyWhenAvailable(baseURL: string, get: string -> Exchange<OllamaModelsResponse>)
    ensures GetAvailableModels(baseURL, get).Success? ==> IsAvailable(baseURL, get)
    ensures !IsAvailable(baseURL, get) ==> GetAvailableModels(baseURL, get).Failure?
  {
  }

  /** The `do` block of `generateSummary`: what it returns, or what it throws before the `catch`es. */
  function Attempt(model: string, x: Exchange<OllamaGenerateResponse>): Result<string, NSError> {
    match x.outcome
    case TransportError(e) => Failure(e)
    case NonHttpResponse => Failure(ToNSError(InvalidResponse))
    case HttpResponse(statusCode) =>
      if statusCode != 200 then Failure(ToNSError(StatusError(statusCode, model)))
      else match x.body
        case Decoded(response) => Success(response.response)
        case DecodingError(e) => Failure(e)
  }

  /** The `catch` clauses: the client's own errors pass, any other error is replaced. */
  function Rethrow(baseURL: string, attempt: Result<string, NSError>): Result<string, NSError> {
    match attempt
    case Success(summary) => Success(summary)
    case Failure(e) =>
      if e.domain == ErrorDomain then Failure(e)
      else Failure(ToNSError(TransportErrorFor(e.localizedDescription, baseURL)))
  }

  /** `generateSummary`: POST the prompt and return the generated text. */
  function GenerateSummary(prompt: string, model: string, baseURL: string,
                           post: HttpRequest -> Exchange<OllamaGenerateResponse>): (r: Result<string, NSError>)
    ensures var x := post(GenerateRequest(prompt, model, baseURL));
      && (r.Success? <==> x.outcome == HttpResponse(200) && x.body.Decoded?)
      && (r.Success? ==> r.value == x.body.value.response)
      && (r.Failure? ==> r.error.domain == ErrorDomain)
  {
    Rethrow(baseURL, Attempt(model, post(GenerateRequest(prompt, model, baseURL))))
  }

  /**
   * The outcome of `generateSummary` depends on nothing but the server's answer
   * to one request: a POST of the model and prompt (streaming off) to base URL +
   * "/api/generate" with a JSON content type and a 60-second timeout.
   */
  lemma GenerateSummaryDependsOnlyOnRequest(prompt: string, model: string, baseURL: string,
                                            post1: HttpRequest -> Exchange<OllamaGenerateResponse>,
                                            post2: HttpRequest -> Exchange<OllamaGenerateResponse>)
    requires var request := HttpRequest(baseURL + "/api/generate", "POST", map["Content-Type" := "application/json"], 60,
                                        OllamaGenerateRequest(model, prompt));
             post1(request) == post2(request)
    ensures GenerateSummary(prompt, model, baseURL, post1) == GenerateSummary(prompt, model, baseURL, post2)
  {
  }

  /**
   * The error `generateSummary` throws, stated per outcome: status errors carry
   * the status as their code, a non-HTTP response is code 2, errors of the
   * client's own domain pass unchanged, and every other error (transport or
   * decoding) becomes a code-1 error chosen from its description.
   */
  lemma GenerateSummaryErrors(prompt: string, model: string, baseURL: string,
                              post: HttpRequest -> Exchange<OllamaGenerateResponse>)
    ensures var x := post(GenerateRequest(prompt, model, baseURL));
            var r := GenerateSummary(prompt, model, baseURL, post);
      && (x.outcome.HttpResponse? && x.outcome.statusCode != 200 ==>
            r == Failure(NSError(ErrorDomain, x.outcome.statusCode, Message(StatusError(x.outcome.statusCode, model)))))
      && (x.outcome.NonHttpResponse? ==> r == Failure(NSError(ErrorDomain, 2, InvalidResponseText)))
      && (x.outcome.TransportError? && x.outcome.error.domain == ErrorDomain ==> r == Failure(x.outcome.error))
      && (x.outcome.TransportError? && x.outcome.error.domain != ErrorDomain ==>
            r == Failure(ToNSError(TransportErrorFor(x.outcome.error.localizedDescription, baseURL))))
      && (x.outcome == HttpResponse(200) && x.body.DecodingError? && x.body.error.domain != ErrorDomain ==>
            r == Failure(ToNSError(TransportErrorFor(x.body.error.localizedDescription, baseURL))))
  {
  }

  /** The failure category `generateSummary` reports for an exchange whose errors are all foreign. */
  function ExpectedError(model: string, baseURL: string, x: Exchange<OllamaGenerateResponse>): Option<OllamaError> {
    match x.outcome
    case TransportError(e) => Some(TransportErrorFor(e.localizedDescription, baseURL))
    case NonHttpResponse => Some(InvalidResponse)
    case HttpResponse(statusCode) =>
      if statusCode != 200 then Some(StatusError(statusCode, model))
      else match x.body
        case Decoded(_) => None
        case DecodingError(e) => Some(TransportErrorFor(e.localizedDescription, baseURL))
  }

  /**
   * What the user is shown (the error's localized description) identifies the
   * failure: reading it back gives the category of the exchange's outcome.
   */
  lemma FailureMessageIdentifiesCause(prompt: string, model: string, baseURL: string,
                                      post: HttpRequest -> Exchange<OllamaGenerateResponse>)
    requires var x := post(GenerateRequest(prompt, model, baseURL));
      && (x.outcome.TransportError? ==> x.outcome.error.domain != ErrorDomain)
      && (x.body.DecodingError? ==> x.body.error.domain != ErrorDomain)
    ensures var x := post(GenerateRequest(prompt, model, baseURL));
            var r := GenerateSummary(prompt, model, baseURL, post);
      && (r.Failure? <==> ExpectedError(model, baseURL, x).Some?)
      && (r.Failure? ==> Classify(r.error.localizedDescription) == ExpectedError(model, baseURL, x))
  {
    var x := post(GenerateRequest(prompt, model, baseURL));
    match ExpectedError(model, baseURL, x) {
      case None =>
      case Some(e) => ClassifyMessage(e);
    }
  }
}
