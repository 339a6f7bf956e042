/** The authentication endpoint, `pages/api/auth.js` `handler`: method
    dispatch, the shared-password check and the JSON reply. */
module AuthApi {
  import opened Wrappers
  import opened Session
  import opened Http

  /** The request body: the submitted password, which may be absent. */
  datatype AuthRequestBody = AuthRequestBody(password: Option<string>)

  /** The JSON reply: `{ success: true, sessionId, message, timestamp }` or
      `{ success: false, message }`. */
  datatype AuthBody =
    | AuthSuccess(sessionId: string, message: string, timestamp: string)
    | AuthFailure(message: string)

  datatype AuthReply = AuthReply(status: int, body: Option<AuthBody>)

  /** The access code, compared with `===`. */
  const AccessCode: string := "counseling2025"

  const MethodNotAllowed: string := "Method not allowed"
  const Authenticated: string := "Authentication successful"
  const WrongPassword: string := "パスワードが間違っています"
  const ServerError: string := "サーバーエラーが発生しました"

  /** The reply of the handler to `req`; `randomText` is
      `Math.random().toString(36)` and `now` the current ISO time. */
  function Respond(req: Request<AuthRequestBody>, randomText: string, now: string): (reply: AuthReply)
    ensures req.verb == "OPTIONS" ==> reply == AuthReply(200, None)
    ensures req.verb != "OPTIONS" && req.verb != "POST" ==>
              reply == AuthReply(405, Some(AuthFailure(MethodNotAllowed)))
    ensures req.verb == "POST" && req.body.None? ==> reply == AuthReply(500, Some(AuthFailure(ServerError)))
    ensures req.verb == "POST" && req.body.Some? && req.body.value.password == Some(AccessCode) ==>
              reply == AuthReply(200, Some(AuthSuccess(NewSessionId(randomText), Authenticated, now)))
    ensures req.verb == "POST" && req.body.Some? && req.body.value.password != Some(AccessCode) ==>
              reply == AuthReply(401, Some(AuthFailure(WrongPassword)))
  {
    if req.verb == "OPTIONS" then AuthReply(200, None)
    else if req.verb != "POST" then AuthReply(405, Some(AuthFailure(MethodNotAllowed)))
    else match req.body
      case None => AuthReply(500, Some(AuthFailure(ServerError)))
      case Some(body) =>
        if body.password == Some(AccessCode) then
          AuthReply(200, Some(AuthSuccess(NewSessionId(randomText), Authenticated, now)))
        else AuthReply(401, Some(AuthFailure(WrongPassword)))
  }

  /** `success` is true exactly when the password matches the access code,
      and then the status is 200; otherwise no session id is issued. */
  lemma SuccessIffAccessCode(req: Request<AuthRequestBody>, randomText: string, now: string)
    ensures var reply := Respond(req, randomText, now);
            (reply.body.Some? && reply.body.value.AuthSuccess?)
            <==> (req.verb == "POST" && req.body.Some? && req.body.value.password == Some(AccessCode))
    ensures var reply := Respond(req, randomText, now);
            reply.body.Some? && reply.body.value.AuthSuccess? ==> reply.status == 200
  {
  }

  /** An issued session id is "session_" followed by at most nine characters,
      all base-36 digits when `randomText` is a base-36 rendering. */
  lemma IssuedSessionId(req: Request<AuthRequestBody>, randomText: string, now: string)
    requires FractionIsBase36(randomText)
    ensures var reply := Respond(req, randomText, now);
            reply.body.Some? && reply.body.value.AuthSuccess? ==>
              var id := reply.body.value.sessionId;
              |SessionPrefix| <= |id| <= |SessionPrefix| + SessionDigits
              && id[..|SessionPrefix|] == SessionPrefix
              && forall i :: |SessionPrefix| <= i < |id| ==> IsBase36Digit(id[i])
  {
  }

  /** `handler(req, res)`: writes the reply onto `res`. */
  method Handle(req: Request<AuthRequestBody>, randomText: string, now: string, res: ServerResponse<AuthBody>)
    requires res.body == None && !res.finished
    modifies res
    ensures res.headers == old(res.headers) + CorsHeaders
    ensures var reply := Respond(req, randomText, now);
            res.statusCode == reply.status && res.body == reply.body
    ensures res.finished
  {
    SetCorsHeaders(res);
    if req.verb == "OPTIONS" {
      res.Status(200);
      res.End();
      return;
    }
    if req.verb != "POST" {
      res.Status(405);
      res.Json(AuthFailure(MethodNotAllowed));
      return;
    }
    if req.body.None? {
      // destructuring an undefined body throws inside the try
      res.Status(500);
      res.Json(AuthFailure(ServerError));
      return;
    }
    if req.body.value.password == Some(AccessCode) {
      var sessionId := NewSessionId(randomText);
      res.Status(200);
      res.Json(AuthSuccess(sessionId, Authenticated, now));
    } else {
      res.Status(401);
      res.Json(AuthFailure(WrongPassword));
    }
  }
}
