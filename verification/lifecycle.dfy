/** The token lifecycle manager: the priority decision of `tokens`, one
    attempt of it against the endpoint, and the retry classification of
    `Tokens`. The mutex and the backoff delays are outside the model: an
    attempt is a sequential step over the wrapper at the time the clock gives
    for it, and the backoff budget is a number of further attempts. */
module Lifecycle {
  import opened Results
  import opened Jwt
  import opened Credentials
  import opened Endpoint

  /** The expiry of an optional token; a missing token reads as Go's zero
      values, "does not expire, nothing left". */
  function ExpiryOf(t: Option<Token>, now: int): (r: Result<Expiry, ExpiryError>)
    ensures t.None? ==> r == Success(Expiry(false, 0))
    ensures t.Some? ==> r == GetTokenExpiry(t.value, now)
  {
    if t.None? then Success(Expiry(false, 0)) else GetTokenExpiry(t.value, now)
  }

  /** The six outcomes of the decision, in priority order. */
  datatype Decision =
    | UseCurrent          // fresh access token
    | Refresh             // fresh refresh token
    | RequestNew          // password or client credentials grant
    | RefreshAnyway       // refresh token below the window but not expired
    | UseCurrentAnyway    // access token below the window but not expired
    | GiveUp              // nothing usable and no way to get anything

  /** A token that is present and fresh for the window. */
  predicate FreshToken(t: Option<Token>, e: Expiry, window: int)
  {
    t.Some? && Fresh(e, window)
  }

  /** A token that is present and has some positive time left. */
  predicate LiveToken(t: Option<Token>, e: Expiry)
  {
    t.Some? && e.expires && e.left > 0
  }

  /** The decision of `tokens` for given expiries of the current pair. */
  function Choose(w: Wrapper, a: Expiry, r: Expiry, window: int): (d: Decision)
    // Priority order: each outcome is taken only when every earlier one is
    // ruled out.
    ensures d == UseCurrent <==> FreshToken(w.access, a, window)
    ensures d == Refresh <==> !FreshToken(w.access, a, window) && FreshToken(w.refresh, r, window)
    ensures d == RequestNew <==>
              !FreshToken(w.access, a, window) && !FreshToken(w.refresh, r, window) && HaveCredentials(w)
    ensures d == RefreshAnyway <==>
              !FreshToken(w.access, a, window) && !FreshToken(w.refresh, r, window) && !HaveCredentials(w)
              && LiveToken(w.refresh, r)
    ensures d == UseCurrentAnyway <==>
              !FreshToken(w.access, a, window) && !FreshToken(w.refresh, r, window) && !HaveCredentials(w)
              && !LiveToken(w.refresh, r) && LiveToken(w.access, a)
  {
    if w.access.Some? && (!a.expires || a.left >= window) then UseCurrent
    else if w.refresh.Some? && (!r.expires || r.left >= window) then Refresh
    else if HaveCredentials(w) then RequestNew
    else if w.refresh.Some? && r.left > 0 then RefreshAnyway
    else if w.access.Some? && a.left > 0 then UseCurrentAnyway
    else GiveUp
  }

  /** Giving up happens exactly when no token of the pair is usable at all
      (present and either never expiring or with time left) and there are no
      credentials. A window of zero or less would count a token that expires
      right now as fresh, so the window is taken positive (the default is one
      minute). */
  lemma GiveUpIffNothingUsable(w: Wrapper, a: Expiry, r: Expiry, window: int)
    requires window > 0
    ensures Choose(w, a, r, window) == GiveUp <==>
              && !HaveCredentials(w)
              && !(w.access.Some? && Alive(a))
              && !(w.refresh.Some? && Alive(r))
  {
  }

  /** The result of one attempt of `tokens`: the status code of the last
      request (zero when none was answered or sent), the token texts returned,
      the error, the wrapper afterwards, the requests sent and the replies
      left. */
  datatype Attempt = Attempt(
    code: int,
    access: string,
    refresh: string,
    error: Option<Failure>,
    wrapper: Wrapper,
    exchanges: seq<Exchange>,
    rest: seq<Reply>)

  /** Turn the outcome of a grant into the outcome of the attempt: on success
      the (new) current pair is returned, on failure empty texts. */
  function AfterGrant(s: Sent, replies: seq<Reply>): Attempt
  {
    if s.error.Some? then Attempt(s.code, "", "", s.error, s.wrapper, s.exchanges, s.rest)
    else
      var (access, refresh) := CurrentTokens(s.wrapper);
      Attempt(s.code, access, refresh, None, s.wrapper, s.exchanges, s.rest)
  }

  /** One attempt of `tokens`, at time `now`, requiring `window` seconds of
      remaining life from the access token. */
  function TokensAttempt(w: Wrapper, now: int, window: int, replies: seq<Reply>): (t: Attempt)
    ensures t.error.Some? ==> t.wrapper == w && t.access == "" && t.refresh == ""
    ensures t.error.None? ==> (t.access, t.refresh) == CurrentTokens(t.wrapper)
    ensures t.wrapper.(access := w.access, refresh := w.refresh) == w
    ensures |t.exchanges| <= 2
    ensures |t.exchanges| == 0 ==> t.wrapper == w && t.rest == replies && t.code == 0
    // An expiry that cannot be read fails before any decision is made.
    ensures ExpiryOf(w.access, now).Failure? || ExpiryOf(w.refresh, now).Failure? ==>
              t == Attempt(0, "", "", Some(BadExpiry), w, [], replies)
  {
    match ExpiryOf(w.access, now)
    case Failure(_) => Attempt(0, "", "", Some(BadExpiry), w, [], replies)
    case Success(a) =>
      match ExpiryOf(w.refresh, now)
      case Failure(_) => Attempt(0, "", "", Some(BadExpiry), w, [], replies)
      case Success(r) =>
        match Choose(w, a, r, window)
        case UseCurrent =>
          var (access, refresh) := CurrentTokens(w);
          Attempt(0, access, refresh, None, w, [], replies)
        case Refresh => AfterGrant(SendRefreshTokenForm(w, replies), replies)
        case RequestNew => AfterGrant(SendRequestTokenForm(w, replies), replies)
        case RefreshAnyway => AfterGrant(SendRefreshTokenForm(w, replies), replies)
        case UseCurrentAnyway =>
          var (access, refresh) := CurrentTokens(w);
          Attempt(0, access, refresh, None, w, [], replies)
        case GiveUp => Attempt(0, "", "", Some(Exhausted), w, [], replies)
  }

  /** Once both expiries are read, the decision of `Choose` determines what
      is sent: nothing when the current pair is used or when the wrapper has
      nothing left to try, the refresh form when refreshing, and the form of
      the wrapper's credentials when a new pair is requested; and when a grant
      is sent, its outcome is the attempt's. */
  lemma AttemptFollowsChoice(w: Wrapper, now: int, window: int, replies: seq<Reply>)
    requires ExpiryOf(w.access, now).Success? && ExpiryOf(w.refresh, now).Success?
    ensures var t := TokensAttempt(w, now, window, replies);
            var d := Choose(w, ExpiryOf(w.access, now).value, ExpiryOf(w.refresh, now).value, window);
            && (d == UseCurrent || d == UseCurrentAnyway ==>
                  t == Attempt(0, CurrentTokens(w).0, CurrentTokens(w).1, None, w, [], replies))
            && (d == Refresh || d == RefreshAnyway ==>
                  && w.refresh.Some? && |t.exchanges| >= 1 && t.exchanges[0].form == RefreshFormOf(w)
                  && GrantDecides(t, SendRefreshTokenForm(w, replies)))
            && (d == RequestNew ==>
                  && t.exchanges == [Exchange(SelectGrant(w).value, t.code)]
                  && GrantDecides(t, SendRequestTokenForm(w, replies)))
            && (d == GiveUp ==> t == Attempt(0, "", "", Some(Exhausted), w, [], replies))
  {
  }

  /** The attempt's outcome is the grant's: the same status code, error,
      stored pair, requests and remaining replies, and on success the texts
      of the pair the grant stored. */
  predicate GrantDecides(t: Attempt, s: Sent)
  {
    && t.code == s.code
    && t.error == s.error
    && t.wrapper == s.wrapper
    && t.exchanges == s.exchanges
    && t.rest == s.rest
    && (s.error.None? ==> (t.access, t.refresh) == CurrentTokens(s.wrapper))
  }

  /** A fresh access token is returned as it is, with the refresh token that
      goes with it, without contacting the endpoint. */
  lemma FreshAccessNeedsNoRequest(w: Wrapper, now: int, window: int, replies: seq<Reply>)
    requires w.access.Some? && GetTokenExpiry(w.access.value, now).Success?
    requires Fresh(GetTokenExpiry(w.access.value, now).value, window)
    requires ExpiryOf(w.refresh, now).Success?
    ensures var t := TokensAttempt(w, now, window, replies);
            && t.exchanges == [] && t.wrapper == w && t.error.None?
            && t.access == w.access.value.raw
            && t.refresh == CurrentTokens(w).1
  {
  }

  /** A stale access token with a fresh refresh token leads to exactly one
      refresh grant request when that grant succeeds, and the new pair both
      replaces the stored pair and is what the attempt returns. */
  lemma StaleAccessFreshRefresh(w: Wrapper, now: int, window: int, replies: seq<Reply>)
    requires w.refresh.Some?
    requires ExpiryOf(w.access, now).Success? && ExpiryOf(w.refresh, now).Success?
    requires !FreshToken(w.access, ExpiryOf(w.access, now).value, window)
    requires Fresh(ExpiryOf(w.refresh, now).value, window)
    requires SendTokenForm(w, RefreshFormOf(w), replies).error.None?
    ensures var t := TokensAttempt(w, now, window, replies);
            var r := Next(replies).0.body.response;
            && t.exchanges == [Exchange(RefreshFormOf(w), Next(replies).0.status)]
            && t.error.None?
            && t.wrapper.access == Parse(r.accessToken.value)
            && t.wrapper.refresh == Parse(r.refreshToken.value)
            && t.access == Parse(r.accessToken.value).value.raw
            && t.refresh == Parse(r.refreshToken.value).value.raw
  {
  }

  /** Without tokens and without credentials the attempt fails at once with
      the exhaustion error and sends nothing. */
  lemma NothingConfiguredFails(w: Wrapper, now: int, window: int, replies: seq<Reply>)
    requires w.access.None? && w.refresh.None? && !HaveCredentials(w)
    ensures TokensAttempt(w, now, window, replies) == Attempt(0, "", "", Some(Exhausted), w, [], replies)
  {
  }

  // ---------------------------------------------------------------------
  // Retries

  /** The retry predicate of `Tokens`: only a failure answered with a server
      error status (500 and above) is retried; everything else, including a
      request that got no response at all (code zero), is permanent. */
  predicate Retryable(code: int)
  {
    code >= 500
  }

  /** A metric observation: the attempt number and the status code. */
  datatype Observation = Observation(attempt: nat, code: int)

  function Observe(attempt: nat, exchanges: seq<Exchange>): (obs: seq<Observation>)
    ensures |obs| == |exchanges|
    ensures forall i :: 0 <= i < |obs| ==> obs[i] == Observation(attempt, exchanges[i].code)
  {
    if |exchanges| == 0 then [] else [Observation(attempt, exchanges[0].code)] + Observe(attempt, exchanges[1..])
  }

  /** The result of `Tokens`: the token texts, the error, the wrapper
      afterwards, the code and number of the last attempt, the metric
      observations, and the replies left. */
  datatype Outcome = Outcome(
    access: string,
    refresh: string,
    error: Option<Failure>,
    wrapper: Wrapper,
    lastCode: int,
    attempts: nat,
    observations: seq<Observation>,
    rest: seq<Reply>)

  /** The time each attempt reads from the clock, by attempt number. */
  type Clock = nat -> int

  /** The retry loop from attempt number `attempt` on, with `budget` more
      attempts allowed after this one. Each attempt reads the clock afresh. */
  function Retry(w: Wrapper, clock: Clock, window: int, replies: seq<Reply>, attempt: nat, budget: nat): (o: Outcome)
    requires attempt >= 1
    ensures o.attempts >= attempt && o.attempts <= attempt + budget
    ensures o.error.Some? ==> o.wrapper == w && o.access == "" && o.refresh == ""
    ensures o.error.Some? ==> !Retryable(o.lastCode) || o.attempts == attempt + budget
    ensures o.error.None? ==> (o.access, o.refresh) == CurrentTokens(o.wrapper)
    ensures o.wrapper.(access := w.access, refresh := w.refresh) == w
    ensures |o.observations| <= 2 * (o.attempts - attempt + 1)
    decreases budget
  {
    var t := TokensAttempt(w, clock(attempt), window, replies);
    var obs := Observe(attempt, t.exchanges);
    if t.error.Some? && Retryable(t.code) && budget > 0 then
      var o := Retry(t.wrapper, clock, window, t.rest, attempt + 1, budget - 1);
      o.(observations := obs + o.observations)
    else
      Outcome(t.access, t.refresh, t.error, t.wrapper, t.code, attempt, obs, t.rest)
  }

  /** A successful attempt ends the loop with its own pair and wrapper, and
      any failure other than a server error with budget left is final. */
  lemma RetryStops(w: Wrapper, clock: Clock, window: int, replies: seq<Reply>, attempt: nat, budget: nat)
    requires attempt >= 1
    ensures var t := TokensAttempt(w, clock(attempt), window, replies);
            var o := Retry(w, clock, window, replies, attempt, budget);
            t.error.None? ==>
              && o.error.None? && o.attempts == attempt && o.lastCode == t.code
              && o.access == t.access && o.refresh == t.refresh && o.wrapper == t.wrapper
              && o.observations == Observe(attempt, t.exchanges) && o.rest == t.rest
    ensures var t := TokensAttempt(w, clock(attempt), window, replies);
            var o := Retry(w, clock, window, replies, attempt, budget);
            t.error.Some? && (!Retryable(t.code) || budget == 0) ==>
              && o.error == t.error && o.attempts == attempt && o.lastCode == t.code
              && o.observations == Observe(attempt, t.exchanges) && o.rest == t.rest
  {
  }

  /** A server error with budget left is retried on the remaining replies:
      the outcome is that of the next attempt, after this attempt's exchanges
      are recorded. */
  lemma RetryContinues(w: Wrapper, clock: Clock, window: int, replies: seq<Reply>, attempt: nat, budget: nat)
    requires attempt >= 1
    ensures var t := TokensAttempt(w, clock(attempt), window, replies);
            t.error.Some? && Retryable(t.code) && budget > 0 ==>
              var o := Retry(w, clock, window, replies, attempt, budget);
              var next := Retry(t.wrapper, clock, window, t.rest, attempt + 1, budget - 1);
              && o.attempts == next.attempts && o.error == next.error && o.wrapper == next.wrapper
              && o.access == next.access && o.refresh == next.refresh && o.lastCode == next.lastCode
              && o.rest == next.rest
              && o.observations == Observe(attempt, t.exchanges) + next.observations
  {
  }

  /** The freshness window `Tokens` uses when the caller gives none. */
  const DefaultWindow: int := 60

  /** The window of `Tokens(ctx, expiresIn...)`: the one value given, and the
      default of one minute when none, or more than one, is given. */
  function ExpiresIn(windows: seq<int>): (window: int)
    ensures |windows| == 1 ==> window == windows[0]
    ensures |windows| != 1 ==> window == DefaultWindow
  {
    if |windows| == 1 then windows[0] else DefaultWindow
  }

  /** `Tokens`: attempts are numbered from one. At most `budget` retries
      follow the first attempt; a failure is returned only when it is not a
      server error or the budget is spent, with empty texts and the stored
      pair untouched; a success returns the pair it stores. */
  function Tokens(w: Wrapper, clock: Clock, windows: seq<int>, replies: seq<Reply>, budget: nat): (o: Outcome)
    ensures 1 <= o.attempts <= budget + 1
    ensures o.error.Some? ==> !Retryable(o.lastCode) || o.attempts == budget + 1
    ensures o.error.Some? ==> o.wrapper == w && o.access == "" && o.refresh == ""
    ensures o.error.None? ==> (o.access, o.refresh) == CurrentTokens(o.wrapper)
    ensures o.wrapper.(access := w.access, refresh := w.refresh) == w
  {
    Retry(w, clock, ExpiresIn(windows), replies, 1, budget)
  }

  /** A failure that is not retryable ends `Tokens` after its first attempt,
      with that attempt's error. */
  lemma PermanentFailureStops(w: Wrapper, clock: Clock, windows: seq<int>, replies: seq<Reply>, budget: nat)
    requires TokensAttempt(w, clock(1), ExpiresIn(windows), replies).error.Some?
    requires !Retryable(TokensAttempt(w, clock(1), ExpiresIn(windows), replies).code)
    ensures var o := Tokens(w, clock, windows, replies, budget);
            o.attempts == 1 && o.error == TokensAttempt(w, clock(1), ExpiresIn(windows), replies).error
  {
  }

  /** The client credentials configuration of the scenario below. */
  function ClientOnly(): Wrapper
  {
    Wrapper(DefaultTokenURL, "client", "secret", "", "", ["openid"], None, None)
  }

  function ServerBusy(): Reply
  {
    Reply(503, Parsed(TokenResponse(Some("temporarily_unavailable"), None, None, None, None)))
  }

  function Granted(access: Encoded, refresh: Encoded): Reply
  {
    Reply(200, Parsed(TokenResponse(None, None, Some("bearer"), Some(access), Some(refresh))))
  }

  /** One attempt of the scenario below against a busy server. */
  lemma BusyAttempt(now: int, window: int, rest: seq<Reply>)
    ensures var t := TokensAttempt(ClientOnly(), now, window, [ServerBusy()] + rest);
            && t.error.Some? && t.code == 503 && t.wrapper == ClientOnly() && t.rest == rest
            && t.exchanges == [Exchange(SelectGrant(ClientOnly()).value, 503)]
  {
    assert Next([ServerBusy()] + rest) == (ServerBusy(), rest);
  }

  /** One attempt of the scenario below that is granted a new pair. */
  lemma GrantedAttempt(now: int, window: int, access: Encoded, refresh: Encoded)
    requires access.decoded.Some? && refresh.decoded.Some?
    ensures var t := TokensAttempt(ClientOnly(), now, window, [Granted(access, refresh)]);
            && t.error.None? && t.code == 200
            && t.exchanges == [Exchange(SelectGrant(ClientOnly()).value, 200)]
            && t.wrapper.access == Parse(access) && t.wrapper.refresh == Parse(refresh)
            && t.access == access.text && t.refresh == refresh.text
  {
  }

  /** A busy reply is retried while budget is left, and its attempt is
      observed with code 503. */
  lemma RetryBusy(clock: Clock, window: int, rest: seq<Reply>, attempt: nat, budget: nat)
    requires attempt >= 1 && budget > 0
    ensures var o := Retry(ClientOnly(), clock, window, [ServerBusy()] + rest, attempt, budget);
            var next := Retry(ClientOnly(), clock, window, rest, attempt + 1, budget - 1);
            && o.error == next.error && o.attempts == next.attempts
            && o.wrapper == next.wrapper && o.access == next.access && o.refresh == next.refresh
            && o.observations == [Observation(attempt, 503)] + next.observations
  {
    BusyAttempt(clock(attempt), window, rest);
    RetryContinues(ClientOnly(), clock, window, [ServerBusy()] + rest, attempt, budget);
  }

  /** The granted reply ends the loop with the new pair. */
  lemma RetryGranted(clock: Clock, window: int, access: Encoded, refresh: Encoded, attempt: nat, budget: nat)
    requires access.decoded.Some? && refresh.decoded.Some?
    requires attempt >= 1
    ensures var o := Retry(ClientOnly(), clock, window, [Granted(access, refresh)], attempt, budget);
            && o.error.None? && o.attempts == attempt
            && o.observations == [Observation(attempt, 200)]
            && o.wrapper.access == Parse(access) && o.wrapper.refresh == Parse(refresh)
            && o.access == access.text && o.refresh == refresh.text
  {
    GrantedAttempt(clock(attempt), window, access, refresh);
  }

  /** `n` replies with status 503. */
  function BusyReplies(n: nat): (replies: seq<Reply>)
    ensures |replies| == n
    ensures forall i :: 0 <= i < n ==> replies[i] == ServerBusy()
  {
    if n == 0 then [] else [ServerBusy()] + BusyReplies(n - 1)
  }

  /** What the metrics see for `n` rejected attempts from `attempt` on. */
  function BusyObservations(attempt: nat, n: nat): (obs: seq<Observation>)
    ensures |obs| == n
    ensures forall i :: 0 <= i < n ==> obs[i] == Observation(attempt + i, 503)
    decreases n
  {
    if n == 0 then [] else [Observation(attempt, 503)] + BusyObservations(attempt + 1, n - 1)
  }

  /** `o` ends in success on attempt `attempts` with the pair `access`,
      `refresh`, after the metrics saw `obs`. */
  predicate GrantedAfter(o: Outcome, access: Encoded, refresh: Encoded, attempts: nat, obs: seq<Observation>)
  {
    && o.error.None? && o.attempts == attempts && o.observations == obs
    && o.wrapper.access == Parse(access) && o.wrapper.refresh == Parse(refresh)
    && o.access == access.text && o.refresh == refresh.text
  }

  /** A busy reply in front of a script that ends in success adds one
      rejected attempt to what the metrics see. */
  lemma BusyThenGranted(clock: Clock, window: int, access: Encoded, refresh: Encoded, rest: seq<Reply>,
                        attempt: nat, budget: nat, attempts: nat, obs: seq<Observation>)
    requires attempt >= 1 && budget > 0
    requires GrantedAfter(Retry(ClientOnly(), clock, window, rest, attempt + 1, budget - 1), access, refresh, attempts, obs)
    ensures GrantedAfter(Retry(ClientOnly(), clock, window, [ServerBusy()] + rest, attempt, budget),
                         access, refresh, attempts, [Observation(attempt, 503)] + obs)
  {
    RetryBusy(clock, window, rest, attempt, budget);
  }

  /** While the budget lasts, any number of 503 replies followed by a good one
      ends in success on the attempt after the last 503, with every rejected
      attempt recorded before the successful one. */
  lemma {:induction false} RetryUntilGranted(clock: Clock, window: int, access: Encoded, refresh: Encoded,
                                             n: nat, attempt: nat, budget: nat, last: nat,
                                             replies: seq<Reply>, obs: seq<Observation>)
    requires access.decoded.Some? && refresh.decoded.Some?
    requires attempt >= 1 && budget >= n && last == attempt + n
    requires replies == BusyReplies(n) + [Granted(access, refresh)]
    requires obs == BusyObservations(attempt, n) + [Observation(last, 200)]
    ensures GrantedAfter(Retry(ClientOnly(), clock, window, replies, attempt, budget), access, refresh, last, obs)
    decreases n
  {
    var granted := Granted(access, refresh);
    var done := [Observation(last, 200)];
    BusySplit(n, attempt, granted, done);
    if n == 0 {
      RetryGranted(clock, window, access, refresh, attempt, budget);
    } else {
      var rest := BusyReplies(n - 1) + [granted];
      var later := BusyObservations(attempt + 1, n - 1) + done;
      RetryUntilGranted(clock, window, access, refresh, n - 1, attempt + 1, budget - 1, last, rest, later);
      BusyThenGranted(clock, window, access, refresh, rest, attempt, budget, last, later);
    }
  }

  /** How the script and the observations of `RetryUntilGranted` lose their
      first busy reply. */
  lemma BusySplit(n: nat, attempt: nat, granted: Reply, done: seq<Observation>)
    ensures n == 0 ==> BusyReplies(n) + [granted] == [granted] && BusyObservations(attempt, n) + done == done
    ensures n > 0 ==> BusyReplies(n) + [granted] == [ServerBusy()] + (BusyReplies(n - 1) + [granted])
    ensures n > 0 ==>
              BusyObservations(attempt, n) + done == [Observation(attempt, 503)] + (BusyObservations(attempt + 1, n - 1) + done)
  {
    if n > 0 {
      var bs := BusyObservations(attempt + 1, n - 1);
      assert ([Observation(attempt, 503)] + bs) + done == [Observation(attempt, 503)] + (bs + done);
    }
  }

  /** The script and the observations of the scenario below, spelled out. */
  lemma ThreeBusy(access: Encoded, refresh: Encoded)
    ensures BusyReplies(3) + [Granted(access, refresh)] == [ServerBusy(), ServerBusy(), ServerBusy(), Granted(access, refresh)]
    ensures BusyObservations(1, 3) + [Observation(4, 200)]
         == [Observation(1, 503), Observation(2, 503), Observation(3, 503), Observation(4, 200)]
  {
    assert BusyReplies(3) == [ServerBusy(), ServerBusy(), ServerBusy()];
    assert BusyObservations(1, 3) == [Observation(1, 503), Observation(2, 503), Observation(3, 503)];
  }

  /** Three replies with status 503 followed by a good one: `Tokens` succeeds
      on the fourth attempt, the metrics see attempts one to three with code
      503 and attempt four with code 200, and the new pair is stored. */
  lemma RetriesServerErrors(access: Encoded, refresh: Encoded, clock: Clock, windows: seq<int>, budget: nat)
    requires access.decoded.Some? && refresh.decoded.Some?
    requires budget >= 3
    ensures var o := Tokens(ClientOnly(), clock, windows, [ServerBusy(), ServerBusy(), ServerBusy(), Granted(access, refresh)], budget);
            && o.error.None?
            && o.attempts == 4
            && o.observations == [Observation(1, 503), Observation(2, 503), Observation(3, 503), Observation(4, 200)]
            && o.wrapper.access == Parse(access) && o.wrapper.refresh == Parse(refresh)
            && o.access == access.text && o.refresh == refresh.text
  {
    ThreeBusy(access, refresh);
    RetryUntilGranted(clock, ExpiresIn(windows), access, refresh, 3, 1, budget, 4,
                      [ServerBusy(), ServerBusy(), ServerBusy(), Granted(access, refresh)],
                      [Observation(1, 503), Observation(2, 503), Observation(3, 503), Observation(4, 200)]);
  }
}
