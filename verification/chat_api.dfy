/** The chat endpoint, `pages/api/chat.js` `handler`: method dispatch, the
    message check, the call to the model and the shaping of the JSON reply. */
module ChatApi {
  import opened Wrappers
  import opened Turns
  import opened Gemini
  import opened Http

  /** The request body: the user's message and the transcript, each of which may be absent. */
  datatype ChatRequestBody = ChatRequestBody(message: Option<string>, conversationHistory: Option<seq<ChatTurn>>)

  /** The JSON reply: `{ success: true, response, timestamp }` or `{ success: false, error }`. */
  datatype ChatBody =
    | ChatSuccess(response: string, timestamp: string)
    | ChatFailure(error: string)

  /** What the handler answers: status, body (None for a bare `end()`), and
      the request it sent upstream, if any. */
  datatype ChatReply = ChatReply(status: int, body: Option<ChatBody>, sent: Option<GeminiRequest>)

  const MethodNotAllowed: string := "Method not allowed"
  const MessageRequired: string := "Message is required"

  /** The text every failure inside the handler's `try` is reported with. */
  const ServerFallback: string :=
    "申し訳ありません。一時的に接続に問題があります。しばらく待ってから再度お試しください。お急ぎの場合は、専門機関（こころの健康相談統一ダイヤル: 0570-064-556）にご相談ください。"

  /** `!message`: absent or empty. */
  predicate IsFalsy(message: Option<string>)
  {
    message.None? || message.value == ""
  }

  /** The `conversationHistory = []` default of `callGeminiAPI`. */
  function HistoryOrEmpty(history: Option<seq<ChatTurn>>): seq<ChatTurn>
  {
    if history.Some? then history.value else []
  }

  /** The reply of the handler to `req`, given the configured key, what the
      model's endpoint would answer and the current ISO time `now`. */
  function Respond(req: Request<ChatRequestBody>, apiKey: Option<string>,
                   upstream: UpstreamOutcome, now: string): (reply: ChatReply)
    ensures req.verb == "OPTIONS" ==> reply == ChatReply(200, None, None)
    ensures req.verb != "OPTIONS" && req.verb != "POST" ==>
              reply == ChatReply(405, Some(ChatFailure(MethodNotAllowed)), None)
    ensures req.verb == "POST" && req.body.None? ==>
              reply == ChatReply(500, Some(ChatFailure(ServerFallback)), None)
    ensures req.verb == "POST" && req.body.Some? && IsFalsy(req.body.value.message) ==>
              reply == ChatReply(400, Some(ChatFailure(MessageRequired)), None)
    ensures req.verb == "POST" && req.body.Some? && !IsFalsy(req.body.value.message) ==>
              var call := CallGemini(apiKey, req.body.value.message.value,
                                     HistoryOrEmpty(req.body.value.conversationHistory), upstream);
              reply.sent == call.sent
              && (call.result.Success? ==> reply.status == 200 && reply.body == Some(ChatSuccess(call.result.value, now)))
              && (call.result.Failure? ==> reply.status == 500 && reply.body == Some(ChatFailure(ServerFallback)))
    // `success` is true exactly on a 200 that carries a body
    ensures (reply.body.Some? && reply.body.value.ChatSuccess?) <==> (reply.status == 200 && reply.body.Some?)
    // nothing leaves for the model without a key and a non-empty message
    ensures reply.sent.Some? ==>
              HasKey(apiKey) && req.verb == "POST" && req.body.Some? && !IsFalsy(req.body.value.message)
  {
    if req.verb == "OPTIONS" then ChatReply(200, None, None)
    else if req.verb != "POST" then ChatReply(405, Some(ChatFailure(MethodNotAllowed)), None)
    else match req.body
      case None => ChatReply(500, Some(ChatFailure(ServerFallback)), None)
      case Some(body) =>
        if IsFalsy(body.message) then ChatReply(400, Some(ChatFailure(MessageRequired)), None)
        else
          var call := CallGemini(apiKey, body.message.value, HistoryOrEmpty(body.conversationHistory), upstream);
          match call.result
          case Success(text) => ChatReply(200, Some(ChatSuccess(text, now)), call.sent)
          case Failure(_) => ChatReply(500, Some(ChatFailure(ServerFallback)), call.sent)
  }

  /** `handler(req, res)`: writes the reply onto `res` and returns the request
      it sent to the model, if any. */
  method Handle(req: Request<ChatRequestBody>, apiKey: Option<string>, upstream: UpstreamOutcome,
                now: string, res: ServerResponse<ChatBody>) returns (sent: Option<GeminiRequest>)
    requires res.body == None && !res.finished
    modifies res
    ensures res.headers == old(res.headers) + CorsHeaders
    ensures var reply := Respond(req, apiKey, upstream, now);
            res.statusCode == reply.status && res.body == reply.body && sent == reply.sent
    ensures res.finished
  {
    SetCorsHeaders(res);
    if req.verb == "OPTIONS" {
      res.Status(200);
      res.End();
      return None;
    }
    if req.verb != "POST" {
      res.Status(405);
      res.Json(ChatFailure(MethodNotAllowed));
      return None;
    }
    if req.body.None? {
      // destructuring an undefined body throws inside the try
      res.Status(500);
      res.Json(ChatFailure(ServerFallback));
      return None;
    }
    var message := req.body.value.message;
    if IsFalsy(message) {
      res.Status(400);
      res.Json(ChatFailure(MessageRequired));
      return None;
    }
    var call := CallGemini(apiKey, message.value, HistoryOrEmpty(req.body.value.conversationHistory), upstream);
    sent := call.sent;
    if call.result.Success? {
      res.Status(200);
      res.Json(ChatSuccess(call.result.value, now));
    } else {
      res.Status(500);
      res.Json(ChatFailure(ServerFallback));
    }
  }
}
