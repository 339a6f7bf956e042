/** The chat page, `pages/index.js`: how it reads the two endpoints' answers
    and the component state its handlers update. Network calls, the clock,
    `Math.random` and `window.confirm` are parameters of the handlers. */
module Controller {
  import opened Wrappers
  import opened Text
  import opened Turns
  import opened Session
  import Gemini
  import ChatApi
  import AuthApi

  const WelcomeMessage: string :=
    "こんにちは。匿名カウンセリング室へようこそ。\n\nここは完全に安全で匿名の空間です。どんなことでも遠慮なくお話しください。\n\n今日はどんなことでお困りですか？"

  const NewSessionMessage: string :=
    "新しいセッションを開始しました。\n\n今日はどんなことでお困りですか？"

  /** What the page shows in place of a reply when the chat call fails. */
  const ClientFallback: string :=
    "申し訳ありません。システムに問題が発生しました。しばらく待ってから再度お試しください。お急ぎの場合は、専門機関（こころの健康相談統一ダイヤル: 0570-064-556）にご相談ください。"

  /** The result `authenticateUser` makes up when the call throws. */
  const NetworkErrorMessage: string := "ネットワークエラーが発生しました"

  /** What the page's call to `/api/auth` produced: `fetch` or `response.json()`
      threw, or a body was received (None when it was not JSON). */
  datatype AuthCallOutcome =
    | AuthUnreachable
    | AuthAnswered(body: Option<AuthApi.AuthBody>)

  /** `authenticateUser`: the decoded body whatever the status, or the
      network-error result when anything threw. */
  function AuthenticateResult(outcome: AuthCallOutcome): (result: AuthApi.AuthBody)
    ensures result.AuthSuccess? <==>
              outcome.AuthAnswered? && outcome.body.Some? && outcome.body.value.AuthSuccess?
    ensures outcome.AuthAnswered? && outcome.body.Some? ==> result == outcome.body.value
    ensures outcome.AuthUnreachable? || outcome.body.None? ==>
              result == AuthApi.AuthFailure(NetworkErrorMessage)
  {
    match outcome
    case AuthAnswered(Some(body)) => body
    case _ => AuthApi.AuthFailure(NetworkErrorMessage)
  }

  /** What the page's call to `/api/chat` produced. */
  datatype ChatCallOutcome =
    | ChatUnreachable
    | ChatAnswered(status: int, body: Option<ChatApi.ChatBody>)

  /** `callChatAPI`: the reply text, or None where it throws (transport
      failure, a status outside 200-299, a body that is not JSON, or
      `success: false`). */
  function ChatResult(outcome: ChatCallOutcome): (reply: Option<string>)
    ensures reply.Some? <==>
              outcome.ChatAnswered? && Gemini.IsOkStatus(outcome.status)
              && outcome.body.Some? && outcome.body.value.ChatSuccess?
    ensures reply.Some? ==> reply.value == outcome.body.value.response
  {
    match outcome
    case ChatUnreachable => None
    case ChatAnswered(status, body) =>
      if !Gemini.IsOkStatus(status) then None
      else match body
        case Some(ChatSuccess(response, _)) => Some(response)
        case _ => None
  }

  /** The message of the turn `getAIResponse` appends: the reply verbatim,
      or the fixed fallback on any failure. */
  function AssistantMessage(outcome: ChatCallOutcome): (message: string)
    ensures ChatResult(outcome).Some? ==> message == ChatResult(outcome).value
    ensures ChatResult(outcome).None? ==> message == ClientFallback
  {
    match ChatResult(outcome)
    case Some(reply) => reply
    case None => ClientFallback
  }

  /** The body the page posts to `/api/chat`. */
  datatype OutboundChat = OutboundChat(message: string, conversationHistory: seq<ChatTurn>)

  /** The page component's state. */
  class CounselingRoom {
    var isAuthenticated: bool
    var password: string
    var currentSession: Option<string>
    var chatHistory: seq<ChatTurn>
    var userInput: string
    var isTyping: bool

    /** Being signed in always comes with a session id. */
    ghost predicate Valid()
      reads this
    {
      isAuthenticated ==> currentSession.Some?
    }

    /** The session id the signed-in page shows in its header; the
      invariant guarantees there is one. */
    function ShownSession(): (id: string)
      reads this
      requires Valid() && isAuthenticated
      ensures currentSession == Some(id)
    {
      currentSession.value
    }

    /** The `useState` initial values. */
    constructor ()
      ensures Valid()
      ensures !isAuthenticated && password == "" && currentSession == None
      ensures chatHistory == [] && userInput == "" && !isTyping
    {
      isAuthenticated := false;
      password := "";
      currentSession := None;
      chatHistory := [];
      userInput := "";
      isTyping := false;
    }

    /** The password field's `onChange`. */
    method EnterPassword(text: string)
      requires Valid()
      modifies this
      ensures Valid()
      ensures password == text
      ensures isAuthenticated == old(isAuthenticated) && currentSession == old(currentSession)
      ensures chatHistory == old(chatHistory) && userInput == old(userInput) && isTyping == old(isTyping)
    {
      password := text;
    }

    /** The message field's `onChange`. */
    method EnterMessage(text: string)
      requires Valid()
      modifies this
      ensures Valid()
      ensures userInput == text
      ensures isAuthenticated == old(isAuthenticated) && currentSession == old(currentSession)
      ensures chatHistory == old(chatHistory) && password == old(password) && isTyping == old(isTyping)
    {
      userInput := text;
    }

    /** `handleLogin`: posts the current password (returned as `sentPassword`);
      on success signs in with the issued session id and a transcript of
      exactly the welcome turn; on any failure changes nothing. */
    method Login(outcome: AuthCallOutcome, now: string) returns (sentPassword: string)
      requires Valid()
      modifies this
      ensures Valid()
      ensures sentPassword == old(password)
      ensures var result := AuthenticateResult(outcome);
              if result.AuthSuccess? then
                isAuthenticated && currentSession == Some(result.sessionId)
                && chatHistory == [ChatTurn(WelcomeMessage, false, now)]
              else
                isAuthenticated == old(isAuthenticated) && currentSession == old(currentSession)
                && chatHistory == old(chatHistory)
      ensures password == old(password) && userInput == old(userInput) && isTyping == old(isTyping)
    {
      sentPassword := password;
      var result := AuthenticateResult(outcome);
      if result.AuthSuccess? {
        isAuthenticated := true;
        currentSession := Some(result.sessionId);
        chatHistory := [ChatTurn(WelcomeMessage, false, now)];
      }
    }

    /** `handleSendMessage` and the first half of `getAIResponse`. A blank
      input changes nothing and sends nothing. Otherwise the input, untrimmed,
      is appended as a user turn, the reply is awaited, the input is cleared,
      and the request carries the transcript as it was BEFORE the append:
      the handler reads `chatHistory` from the render it was created in. */
    method SendMessage(now: string) returns (request: Option<OutboundChat>)
      requires Valid()
      modifies this
      ensures Valid()
      ensures IsBlank(old(userInput)) ==>
                request == None && chatHistory == old(chatHistory) && userInput == old(userInput)
                && isTyping == old(isTyping)
      ensures !IsBlank(old(userInput)) ==>
                request == Some(OutboundChat(old(userInput), old(chatHistory)))
                && chatHistory == old(chatHistory) + [ChatTurn(old(userInput), true, now)]
                && userInput == "" && isTyping
      ensures isAuthenticated == old(isAuthenticated) && currentSession == old(currentSession)
      ensures password == old(password)
    {
      TrimEmptyIffBlank(userInput);
      if Trim(userInput) == "" {
        return None;
      }
      var rendered := chatHistory;
      var newMessage := ChatTurn(userInput, true, now);
      chatHistory := chatHistory + [newMessage];
      // getAIResponse(userInput): set typing, then call with the rendered transcript
      isTyping := true;
      request := Some(OutboundChat(userInput, rendered));
      userInput := "";
    }

    /** The second half of `getAIResponse`: the reply or the fallback is
      appended to the transcript as it stands now, and typing stops. */
    method SettleReply(outcome: ChatCallOutcome, now: string)
      requires Valid()
      modifies this
      ensures Valid()
      ensures chatHistory == old(chatHistory) + [ChatTurn(AssistantMessage(outcome), false, now)]
      ensures !isTyping
      ensures isAuthenticated == old(isAuthenticated) && currentSession == old(currentSession)
      ensures password == old(password) && userInput == old(userInput)
    {
      var message := AssistantMessage(outcome);
      chatHistory := chatHistory + [ChatTurn(message, false, now)];
      isTyping := false;
    }

    /** One exchange with nothing in between: a non-blank send followed by
      its reply leaves the old transcript plus the user turn and exactly one
      counselor turn. */
    method SendAndSettle(outcome: ChatCallOutcome, sentAt: string, repliedAt: string)
      returns (request: Option<OutboundChat>)
      requires Valid()
      modifies this
      ensures Valid()
      ensures IsBlank(old(userInput)) ==>
                request == None && chatHistory == old(chatHistory) && userInput == old(userInput)
                && isTyping == old(isTyping)
      ensures !IsBlank(old(userInput)) ==>
                request == Some(OutboundChat(old(userInput), old(chatHistory)))
                && chatHistory == old(chatHistory) + [ChatTurn(old(userInput), true, sentAt),
                                                      ChatTurn(AssistantMessage(outcome), false, repliedAt)]
                && userInput == "" && !isTyping
      ensures isAuthenticated == old(isAuthenticated) && currentSession == old(currentSession)
      ensures password == old(password)
    {
      request := SendMessage(sentAt);
      if request.Some? {
        SettleReply(outcome, repliedAt);
      }
    }

    /** `endSession`: when confirmed, signs out and forgets the transcript,
      the session id and the password; when declined, changes nothing. */
    method EndSession(confirmed: bool)
      requires Valid()
      modifies this
      ensures Valid()
      ensures confirmed ==>
                chatHistory == [] && currentSession == None && !isAuthenticated && password == ""
      ensures !confirmed ==>
                chatHistory == old(chatHistory) && currentSession == old(currentSession)
                && isAuthenticated == old(isAuthenticated) && password == old(password)
      ensures userInput == old(userInput) && isTyping == old(isTyping)
    {
      if confirmed {
        chatHistory := [];
        currentSession := None;
        isAuthenticated := false;
        password := "";
      }
    }

    /** `startNewSession`: when confirmed, takes a fresh session id and a
      transcript of exactly the new-session turn, staying signed in; when
      declined, changes nothing. */
    method StartNewSession(confirmed: bool, randomText: string, now: string)
      requires Valid()
      modifies this
      ensures Valid()
      ensures confirmed ==>
                currentSession == Some(NewSessionId(randomText))
                && chatHistory == [ChatTurn(NewSessionMessage, false, now)]
      ensures !confirmed ==> chatHistory == old(chatHistory) && currentSession == old(currentSession)
      ensures isAuthenticated == old(isAuthenticated) && password == old(password)
      ensures userInput == old(userInput) && isTyping == old(isTyping)
    {
      if confirmed {
        currentSession := Some(NewSessionId(randomText));
        chatHistory := [ChatTurn(NewSessionMessage, false, now)];
      }
    }
  }
}
