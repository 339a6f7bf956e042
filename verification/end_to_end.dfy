/** The page and the two endpoints together: what the page ends up showing
    for each answer the endpoints can give. */
module EndToEnd {
  import opened Wrappers
  import opened Text
  import opened Turns
  import opened Http
  import opened Gemini
  import opened Prompt
  import ChatApi
  import AuthApi
  import opened Controller

  /** A non-blank message sent with the transcript `history`: the endpoint
      asks the model with the prompt built from that transcript, and the
      turn the page appends is the model's text verbatim when the model call
      succeeds and the page's own fallback on every failure (the endpoint's
      500 text is never shown). */
  lemma ChatRoundTrip(message: string, history: seq<ChatTurn>, apiKey: Option<string>,
                      upstream: UpstreamOutcome, now: string)
    requires !IsBlank(message)
    ensures var req := Request("POST", Some(ChatApi.ChatRequestBody(Some(message), Some(history))));
            var reply := ChatApi.Respond(req, apiKey, upstream, now);
            var call := CallGemini(apiKey, message, history, upstream);
            (HasKey(apiKey) ==>
               reply.sent == Some(GeminiRequest(Endpoint + apiKey.value, FullPrompt(history, message))))
            && AssistantMessage(ChatAnswered(reply.status, reply.body))
               == (if call.result.Success? then call.result.value else ClientFallback)
  {
    assert message != "" by {
      if message == "" { assert IsBlank(message); }
    }
  }

  /** The page signs in exactly when it posted the access code, and then
      with the session id the endpoint minted; a wrong or missing password
      comes back with the endpoint's message. */
  lemma LoginRoundTrip(password: Option<string>, randomText: string, now: string)
    ensures var req := Request("POST", Some(AuthApi.AuthRequestBody(password)));
            var reply := AuthApi.Respond(req, randomText, now);
            var result := AuthenticateResult(AuthAnswered(reply.body));
            (result.AuthSuccess? <==> password == Some(AuthApi.AccessCode))
            && (result.AuthSuccess? ==> result.sessionId == Session.NewSessionId(randomText))
            && (!result.AuthSuccess? ==> result == AuthApi.AuthFailure(AuthApi.WrongPassword))
  {
  }

  /** A walk-through: a wrong password is refused, the access
      code signs in with the welcome turn, and one exchange adds the user's
      words and the reply in that order. */
  method Walkthrough(randomText: string)
  {
    var room := new CounselingRoom();

    room.EnterPassword("guess");
    var wrong := AuthApi.Respond(Request("POST", Some(AuthApi.AuthRequestBody(Some("guess")))), randomText, "t0");
    assert wrong.status == 401;
    var sent := room.Login(AuthAnswered(wrong.body), "t0");
    assert sent == "guess" && !room.isAuthenticated && room.chatHistory == [];

    room.EnterPassword(AuthApi.AccessCode);
    var right := AuthApi.Respond(Request("POST", Some(AuthApi.AuthRequestBody(Some(AuthApi.AccessCode)))), randomText, "t1");
    sent := room.Login(AuthAnswered(right.body), "t1");
    assert room.isAuthenticated && room.currentSession == Some(Session.NewSessionId(randomText));
    assert room.chatHistory == [ChatTurn(WelcomeMessage, false, "t1")];

    room.EnterMessage("相談があります");
    assert !IsBlank(room.userInput) by { assert !IsJsWhitespace(room.userInput[0]); }
    var answer := ChatAnswered(200, Some(ChatApi.ChatSuccess("お話を聞かせてください", "t2")));
    var request := room.SendAndSettle(answer, "t2", "t3");
    assert request == Some(OutboundChat("相談があります", [ChatTurn(WelcomeMessage, false, "t1")]));
    assert room.chatHistory == [ChatTurn(WelcomeMessage, false, "t1"),
                                ChatTurn("相談があります", true, "t2"),
                                ChatTurn("お話を聞かせてください", false, "t3")];

    room.EnterMessage("もう一度");
    assert !IsBlank(room.userInput) by { assert !IsJsWhitespace(room.userInput[0]); }
    request := room.SendAndSettle(ChatUnreachable, "t4", "t5");
    assert |room.chatHistory| == 5 && room.chatHistory[4] == ChatTurn(ClientFallback, false, "t5");

    room.EnterMessage(" ");
    request := room.SendAndSettle(ChatUnreachable, "t6", "t7");
    assert request == None && |room.chatHistory| == 5;

    room.EndSession(false);
    assert room.isAuthenticated && |room.chatHistory| == 5;
    room.EndSession(true);
    assert !room.isAuthenticated && room.chatHistory == [] && room.password == "";
  }
}
