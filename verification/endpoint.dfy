/** The token endpoint client: which grant form is sent (sections 4.3, 4.4
    and 6 of RFC 6749), the ordered checks applied to the parsed response,
    the all-or-nothing store of a new token pair, and the fallback from a
    refresh grant rejected with `invalid_grant` (section 5.2 of RFC 6749).

    The identity provider is a script of replies: each form sent consumes the
    next reply; once the script is exhausted no response arrives. */
module Endpoint {
  import opened Results
  import opened Jwt
  import opened Credentials
  import Text

  /** The three forms the client can post. */
  datatype Form =
    | PasswordForm(clientID: string, username: string, password: string, scope: string)
    | ClientCredentialsForm(clientID: string, clientSecret: string, scope: string)
    | RefreshForm(clientID: string, clientSecret: string, refreshToken: string)

  /** The fields of the token response body, once parsed from JSON. */
  datatype TokenResponse = TokenResponse(
    error: Option<string>,
    errorDescription: Option<string>,
    tokenType: Option<string>,
    accessToken: Option<Encoded>,
    refreshToken: Option<Encoded>)

  /** Why a response body could not be turned into a `TokenResponse`. */
  datatype BodyFault = WrongContentType | Unreadable | BadJson

  datatype Body = Unusable(fault: BodyFault) | Parsed(response: TokenResponse)

  /** What the transport delivers for one request: no response at all, or a
      status code with a body. */
  datatype Reply = NoResponse | Reply(status: int, body: Body)

  /** Every way getting tokens can fail. */
  datatype Failure =
    | CannotSend
    | BadBody(fault: BodyFault)
    | ServerError(message: string)
    | BadStatus(status: int)
    | BadTokenType(tokenType: string)
    | NoAccessToken
    | BadAccessToken
    | NoRefreshToken
    | BadRefreshToken
    | NoGrant
    | BadExpiry
    | Exhausted

  /** One request sent to the endpoint and the status code it got, zero when
      no response arrived; this is what the metrics record. */
  datatype Exchange = Exchange(form: Form, code: int)

  /** The result of sending forms: the last status code, the parsed response of
      the last form if there was one, the error if any, the wrapper afterwards,
      the requests sent and the replies not yet consumed. */
  datatype Sent = Sent(
    code: int,
    result: Option<TokenResponse>,
    error: Option<Failure>,
    wrapper: Wrapper,
    exchanges: seq<Exchange>,
    rest: seq<Reply>)

  const StatusOK: int := 200

  /** The message of a failure reported through the `error` field: the code,
      followed by a colon and the description when there is one. */
  function ErrorMessage(code: string, description: Option<string>): string
  {
    if description.Some? then code + ": " + description.value else code
  }

  /** Independent description of a response that yields a token pair. */
  predicate Acceptable(status: int, r: TokenResponse)
  {
    && r.error.None?
    && status == StatusOK
    && (r.tokenType.None? || r.tokenType.value == "bearer")
    && r.accessToken.Some? && Parse(r.accessToken.value).Some?
    && r.refreshToken.Some? && Parse(r.refreshToken.value).Some?
  }

  /** The chain of checks on a parsed response, in the order the client makes
      them: `error` field, status code, token type, access token, refresh
      token. The first check that fails decides the error. */
  function CheckResponse(status: int, r: TokenResponse): (c: Result<(Token, Token), Failure>)
    ensures c.Success? <==> Acceptable(status, r)
    ensures c.Success? ==> c.value == (Parse(r.accessToken.value).value, Parse(r.refreshToken.value).value)
    // An `error` field wins over every other defect, whatever the status.
    ensures r.error.Some? ==> c == Failure(ServerError(ErrorMessage(r.error.value, r.errorDescription)))
    // A non-200 status is reported before anything about the tokens.
    ensures r.error.None? && status != StatusOK ==> c == Failure(BadStatus(status))
    ensures r.error.None? && status == StatusOK && r.tokenType.Some? && r.tokenType.value != "bearer" ==>
              c == Failure(BadTokenType(r.tokenType.value))
    // A missing refresh token is only reported once the access token is good.
    ensures c == Failure(NoRefreshToken) ==> r.accessToken.Some? && Parse(r.accessToken.value).Some?
  {
    if r.error.Some? then Failure(ServerError(ErrorMessage(r.error.value, r.errorDescription)))
    else if status != StatusOK then Failure(BadStatus(status))
    else if r.tokenType.Some? && r.tokenType.value != "bearer" then Failure(BadTokenType(r.tokenType.value))
    else if r.accessToken.None? then Failure(NoAccessToken)
    else if Parse(r.accessToken.value).None? then Failure(BadAccessToken)
    else if r.refreshToken.None? then Failure(NoRefreshToken)
    else if Parse(r.refreshToken.value).None? then Failure(BadRefreshToken)
    else Success((Parse(r.accessToken.value).value, Parse(r.refreshToken.value).value))
  }

  /** The next reply of the script, and the script after it. */
  function Next(replies: seq<Reply>): (Reply, seq<Reply>)
  {
    if |replies| == 0 then (NoResponse, []) else (replies[0], replies[1..])
  }

  /** `sendTokenFormTimed` together with the metric bookkeeping of
      `sendTokenForm`: post one form, check the reply, and replace the token
      pair only when every check has passed. */
  function SendTokenForm(w: Wrapper, form: Form, replies: seq<Reply>): (s: Sent)
    ensures s.exchanges == [Exchange(form, s.code)]
    ensures s.rest == Next(replies).1
    ensures s.error.None? <==> (var reply := Next(replies).0;
              reply.Reply? && reply.body.Parsed? && Acceptable(reply.status, reply.body.response))
    // All or nothing: a failure leaves the stored pair as it was, a success
    // replaces both halves and nothing else.
    ensures s.error.Some? ==> s.wrapper == w
    ensures s.error.None? ==>
              var r := Next(replies).0.body.response;
              s.wrapper == w.(access := Parse(r.accessToken.value), refresh := Parse(r.refreshToken.value))
    ensures s.result.Some? <==> Next(replies).0.Reply? && Next(replies).0.body.Parsed?
  {
    var (reply, rest) := Next(replies);
    match reply
    case NoResponse => Sent(0, None, Some(CannotSend), w, [Exchange(form, 0)], rest)
    case Reply(status, body) =>
      match body
      case Unusable(fault) => Sent(status, None, Some(BadBody(fault)), w, [Exchange(form, status)], rest)
      case Parsed(r) =>
        match CheckResponse(status, r)
        case Failure(f) => Sent(status, Some(r), Some(f), w, [Exchange(form, status)], rest)
        case Success(pair) =>
          Sent(status, Some(r), None, w.(access := Some(pair.0), refresh := Some(pair.1)),
               [Exchange(form, status)], rest)
  }

  /** The grant `sendRequestTokenForm` chooses: the password grant when a user
      name and password are set, otherwise the client credentials grant when a
      client identifier and secret are set, otherwise none. The scope is the
      list of scopes joined by single spaces. */
  function SelectGrant(w: Wrapper): (f: Option<Form>)
    ensures f.Some? <==> HaveCredentials(w)
    ensures f.Some? && f.value.PasswordForm? <==> HavePassword(w)
    ensures f.Some? && f.value.ClientCredentialsForm? <==> !HavePassword(w) && HaveSecret(w)
    ensures f.Some? ==> !f.value.RefreshForm? && f.value.clientID == w.clientID
    ensures f.Some? ==> f.value.scope == Text.Join(w.scopes, " ")
  {
    var scope := Text.Join(w.scopes, " ");
    if HavePassword(w) then Some(PasswordForm(w.clientID, w.user, w.password, scope))
    else if HaveSecret(w) then Some(ClientCredentialsForm(w.clientID, w.clientSecret, scope))
    else None
  }

  /** `sendRequestTokenForm`: without credentials nothing is sent. */
  function SendRequestTokenForm(w: Wrapper, replies: seq<Reply>): (s: Sent)
    ensures !HaveCredentials(w) ==> s == Sent(0, None, Some(NoGrant), w, [], replies)
    ensures HaveCredentials(w) ==> s == SendTokenForm(w, SelectGrant(w).value, replies)
  {
    match SelectGrant(w)
    case None => Sent(0, None, Some(NoGrant), w, [], replies)
    case Some(form) => SendTokenForm(w, form, replies)
  }

  /** The refresh grant form built from the current refresh token. */
  function RefreshFormOf(w: Wrapper): Form
    requires w.refresh.Some?
  {
    RefreshForm(w.clientID, w.clientSecret, w.refresh.value.raw)
  }

  /** Whether a reply is a parsed response whose `error` field is exactly
      `invalid_grant`. */
  predicate InvalidGrant(reply: Reply)
  {
    reply.Reply? && reply.body.Parsed? && reply.body.response.error == Some("invalid_grant")
  }

  /** `sendRefreshTokenForm`: send the refresh grant; if the server rejects it
      with `invalid_grant` and credentials are configured, send one credential
      grant instead and report that one's result. */
  function SendRefreshTokenForm(w: Wrapper, replies: seq<Reply>): (s: Sent)
    requires w.refresh.Some?
  {
    var first := SendTokenForm(w, RefreshFormOf(w), replies);
    if first.error.Some? && first.result.Some? && first.result.value.error == Some("invalid_grant")
       && HaveCredentials(first.wrapper)
    then
      var second := SendRequestTokenForm(first.wrapper, first.rest);
      second.(exchanges := first.exchanges + second.exchanges)
    else first
  }

  /** The fallback, stated over the replies: the refresh grant always goes
      first; a credential grant follows it exactly when the first reply is an
      `invalid_grant` rejection and credentials exist, and then its outcome is
      the outcome of the whole call; otherwise the refresh grant's outcome is
      returned unchanged. */
  lemma RefreshFallback(w: Wrapper, replies: seq<Reply>)
    requires w.refresh.Some?
    ensures var s := SendRefreshTokenForm(w, replies);
            var first := SendTokenForm(w, RefreshFormOf(w), replies);
            && 1 <= |s.exchanges| <= 2
            && s.exchanges[0] == Exchange(RefreshFormOf(w), first.code)
            && (|s.exchanges| == 2 <==> InvalidGrant(Next(replies).0) && HaveCredentials(w))
            && (|s.exchanges| == 2 ==>
                  var second := SendTokenForm(w, SelectGrant(w).value, Next(replies).1);
                  && s.exchanges[1] == Exchange(SelectGrant(w).value, second.code)
                  && s.error == second.error && s.wrapper == second.wrapper
                  && s.code == second.code && s.rest == second.rest)
            && (|s.exchanges| == 1 ==> s == first)
  {
    var first := SendTokenForm(w, RefreshFormOf(w), replies);
    var reply := Next(replies).0;
    if InvalidGrant(reply) {
      assert !Acceptable(reply.status, reply.body.response);
    }
  }

  /** Whatever the replies, a refresh call that fails leaves the token pair as
      it was: neither grant stores anything unless all its checks pass. */
  lemma RefreshFailureKeepsPair(w: Wrapper, replies: seq<Reply>)
    requires w.refresh.Some?
    requires SendRefreshTokenForm(w, replies).error.Some?
    ensures SendRefreshTokenForm(w, replies).wrapper == w
  {
  }
}
