/** `callGeminiAPI` of `pages/api/chat.js`: the API-key check, the request it
    sends and how it reads the reply. The network exchange itself is an
    oracle: `UpstreamOutcome` is what `fetch` and `response.json()` produced. */
module Gemini {
  import opened Wrappers
  import opened Turns
  import opened Prompt

  const Endpoint: string :=
    "https://generativelanguage.googleapis.com/v1beta/models/gemini-1.5-flash-latest:generateContent?key="

  datatype Part = Part(text: string)
  datatype Content = Content(parts: seq<Part>)
  datatype Candidate = Candidate(content: Option<Content>)

  /** The decoded JSON reply; `candidates` is None when the field is absent. */
  datatype GeminiBody = GeminiBody(candidates: Option<seq<Candidate>>)

  /** What the outbound call produced: a transport failure, or an HTTP status
      with a body that either decoded as JSON (Some) or did not (None). */
  datatype UpstreamOutcome =
    | TransportFailure
    | Received(status: int, body: Option<GeminiBody>)

  /** Why the call threw. */
  datatype GeminiError =
    | ConfigError            // no API key configured
    | NetworkError           // fetch rejected
    | UpstreamError(status: int)  // HTTP status outside 200-299
    | ParseError             // body not JSON, or not the expected shape

  /** The outbound request: the URL (carrying the key) and the single prompt part. */
  datatype GeminiRequest = GeminiRequest(url: string, prompt: string)

  /** One call: the request sent, if any, and the text returned or the error thrown. */
  datatype GeminiCall = GeminiCall(sent: Option<GeminiRequest>, result: Result<string, GeminiError>)

  /** `response.ok`. */
  predicate IsOkStatus(status: int)
  {
    200 <= status <= 299
  }

  /** `process.env.GEMINI_API_KEY` is truthy: set and not empty. */
  predicate HasKey(apiKey: Option<string>)
  {
    apiKey.Some? && apiKey.value != ""
  }

  /** `candidates[0].content.parts[0].text`, after the shape check; a missing
      first part makes the property access throw. */
  function ReplyText(body: GeminiBody): (r: Result<string, GeminiError>)
    ensures r.Success? <==>
              body.candidates.Some? && |body.candidates.value| > 0
              && body.candidates.value[0].content.Some?
              && |body.candidates.value[0].content.value.parts| > 0
    ensures r.Success? ==> r.value == body.candidates.value[0].content.value.parts[0].text
    ensures r.Failure? ==> r.error == ParseError
  {
    match body.candidates
    case Some(cs) =>
      if |cs| > 0 && cs[0].content.Some? then
        var parts := cs[0].content.value.parts;
        if |parts| > 0 then Success(parts[0].text) else Failure(ParseError)
      else Failure(ParseError)
    case None => Failure(ParseError)
  }

  /** `callGeminiAPI(message, history)` against the upstream outcome `upstream`. */
  function CallGemini(apiKey: Option<string>, message: string, history: seq<ChatTurn>,
                      upstream: UpstreamOutcome): (call: GeminiCall)
    ensures !HasKey(apiKey) ==> call == GeminiCall(None, Failure(ConfigError))
    ensures HasKey(apiKey) ==>
              call.sent == Some(GeminiRequest(Endpoint + apiKey.value, FullPrompt(history, message)))
    ensures call.result.Success? <==>
              HasKey(apiKey) && upstream.Received? && IsOkStatus(upstream.status)
              && upstream.body.Some? && ReplyText(upstream.body.value).Success?
    ensures call.result.Success? ==> call.result == ReplyText(upstream.body.value)
    ensures HasKey(apiKey) && upstream.Received? && !IsOkStatus(upstream.status) ==>
              call.result == Failure(UpstreamError(upstream.status))
  {
    if !HasKey(apiKey) then GeminiCall(None, Failure(ConfigError))
    else
      var request := GeminiRequest(Endpoint + apiKey.value, FullPrompt(history, message));
      var result :=
        match upstream
        case TransportFailure => Failure(NetworkError)
        case Received(status, body) =>
          if !IsOkStatus(status) then Failure(UpstreamError(status))
          else if body.None? then Failure(ParseError)
          else ReplyText(body.value);
      GeminiCall(Some(request), result)
  }
}
