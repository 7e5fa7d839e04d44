/** The credential store: the configuration a `TransportWrapperBuilder`
    collects, the `TransportWrapper` that `Build` makes of it, and the
    classification of pre-supplied tokens by their `typ` claim. */
module Credentials {
  import opened Results
  import opened Jwt
  import Text

  const DefaultTokenURL: string := "https://sso.redhat.com/auth/realms/redhat-external/protocol/openid-connect/token"
  const DefaultClientID: string := "cloud-services"
  const DefaultClientSecret: string := ""
  const DefaultScopes: seq<string> := ["openid"]

  /** What the builder methods have recorded. `hasLogger` stands for the
      logger being non-nil; tokens are kept in the order they were added. */
  datatype Builder = Builder(
    hasLogger: bool,
    tokenURL: string,
    clientID: string,
    clientSecret: string,
    user: string,
    password: string,
    tokens: seq<Encoded>,
    scopes: seq<string>)

  /** The built wrapper: immutable configuration plus the current token pair,
      either half of which may be missing. */
  datatype Wrapper = Wrapper(
    tokenURL: string,
    clientID: string,
    clientSecret: string,
    user: string,
    password: string,
    scopes: seq<string>,
    access: Option<Token>,
    refresh: Option<Token>)

  predicate HavePassword(w: Wrapper)
  {
    w.user != "" && w.password != ""
  }

  predicate HaveSecret(w: Wrapper)
  {
    w.clientID != "" && w.clientSecret != ""
  }

  /** Credentials that can obtain a new token pair without any token. */
  predicate HaveCredentials(w: Wrapper)
  {
    HavePassword(w) || HaveSecret(w)
  }

  /** The raw texts of the current pair, the empty string for a missing half. */
  function CurrentTokens(w: Wrapper): (pair: (string, string))
    ensures w.access.Some? ==> pair.0 == w.access.value.raw
    ensures w.access.None? ==> pair.0 == ""
    ensures w.refresh.Some? ==> pair.1 == w.refresh.value.raw
    ensures w.refresh.None? ==> pair.1 == ""
  {
    (if w.access.Some? then w.access.value.raw else "",
     if w.refresh.Some? then w.refresh.value.raw else "")
  }

  // ---------------------------------------------------------------------
  // Classification of pre-supplied tokens

  /** Which of the two slots a token goes to. */
  datatype Slot = AccessSlot | RefreshSlot

  /** What the classification of one encoded token finds. */
  datatype TokenKind =
    | Undecodable
    | NoTyp
    | TypNotText
    | UnknownTyp(typ: string)
    | Typed(slot: Slot, token: Token)

  /** The kind of an encoded token: `Bearer` tokens are access tokens,
      `Refresh` and `Offline` tokens are refresh tokens, the comparison being
      case-insensitive as `strings.EqualFold` makes it. */
  function KindOf(e: Encoded): (k: TokenKind)
    ensures k.Typed? ==> Parse(e) == Some(k.token)
    ensures k.Undecodable? <==> e.decoded.None?
    ensures e.decoded.Some? && e.decoded.value.typ.Text? ==>
              var typ := e.decoded.value.typ.s;
              var t := Token(e.text, e.decoded.value);
              && (k == Typed(AccessSlot, t) <==> Text.EqualFold(typ, "Bearer"))
              && (k == Typed(RefreshSlot, t) <==> Text.EqualFold(typ, "Refresh") || Text.EqualFold(typ, "Offline"))
              && (k == UnknownTyp(typ) <==>
                    !Text.EqualFold(typ, "Bearer") && !Text.EqualFold(typ, "Refresh") && !Text.EqualFold(typ, "Offline"))
    ensures e.decoded.Some? && e.decoded.value.typ.Absent? ==> k == NoTyp
    ensures e.decoded.Some? && (e.decoded.value.typ.Number? || e.decoded.value.typ.OtherType?) ==> k == TypNotText
  {
    match Parse(e)
    case None => Undecodable
    case Some(t) =>
      match t.claims.typ
      case Absent => NoTyp
      case Text(typ) =>
        if Text.EqualFold(typ, "Bearer") then Typed(AccessSlot, t)
        else if Text.EqualFold(typ, "Refresh") then Typed(RefreshSlot, t)
        else if Text.EqualFold(typ, "Offline") then Typed(RefreshSlot, t)
        else UnknownTyp(typ)
      case _ => TypNotText
  }

  /** What is wrong with a pre-supplied token. */
  datatype TokenFault = Unparsable | MissingTyp | TypNotString | UnknownType(typ: string)

  /** Why `Build` refused the configuration; a token error carries the
      zero-based position of the offending token. */
  datatype BuildError =
    | MissingLogger
    | MissingCredentials
    | BadToken(index: nat, fault: TokenFault)

  function KindFault(k: TokenKind): TokenFault
    requires !k.Typed?
  {
    match k
    case Undecodable => Unparsable
    case NoTyp => MissingTyp
    case TypNotText => TypNotString
    case UnknownTyp(typ) => UnknownType(typ)
  }

  /** Reference definition: the token of the last element of `tokens` that
      belongs to `slot`, found by looking from the end. */
  function LastIn(tokens: seq<Encoded>, slot: Slot): Option<Token>
  {
    if |tokens| == 0 then None
    else
      var k := KindOf(tokens[|tokens| - 1]);
      if k.Typed? && k.slot == slot then Some(k.token)
      else LastIn(tokens[..|tokens| - 1], slot)
  }

  predicate AllTyped(tokens: seq<Encoded>)
  {
    forall i :: 0 <= i < |tokens| ==> KindOf(tokens[i]).Typed?
  }

  /** The loop of `Build` over the pre-supplied tokens: it stops at the first
      token that cannot be classified and reports it; otherwise a later token
      of a slot replaces an earlier one. */
  method ClassifyTokens(tokens: seq<Encoded>) returns (r: Result<(Option<Token>, Option<Token>), BuildError>)
    ensures r.Success? <==> AllTyped(tokens)
    ensures r.Success? ==> r.value == (LastIn(tokens, AccessSlot), LastIn(tokens, RefreshSlot))
    ensures r.Failure? ==>
              && r.error.BadToken?
              && r.error.index < |tokens|
              && !KindOf(tokens[r.error.index]).Typed?
              && r.error.fault == KindFault(KindOf(tokens[r.error.index]))
              && AllTyped(tokens[..r.error.index])
  {
    var access: Option<Token> := None;
    var refresh: Option<Token> := None;
    var i := 0;
    while i < |tokens|
      invariant 0 <= i <= |tokens|
      invariant AllTyped(tokens[..i])
      invariant access == LastIn(tokens[..i], AccessSlot)
      invariant refresh == LastIn(tokens[..i], RefreshSlot)
    {
      var k := KindOf(tokens[i]);
      assert tokens[..i + 1][..i] == tokens[..i];
      if !k.Typed? {
        return Failure(BadToken(i, KindFault(k)));
      }
      match k.slot {
        case AccessSlot => access := Some(k.token);
        case RefreshSlot => refresh := Some(k.token);
      }
      i := i + 1;
    }
    assert tokens[..i] == tokens;
    return Success((access, refresh));
  }

  /** Whether the builder holds some way to authenticate: a token, a user
      name and password, or a client identifier and secret. */
  predicate BuilderHasCredentials(b: Builder)
  {
    |b.tokens| > 0 || (b.user != "" && b.password != "") || (b.clientID != "" && b.clientSecret != "")
  }

  /** `TransportWrapperBuilder.Build`, without the parts that talk to the
      outside world (URL parsing, HTTP client selection, metrics). */
  method Build(b: Builder) returns (r: Result<Wrapper, BuildError>)
    ensures !b.hasLogger ==> r == Failure(MissingLogger)
    ensures b.hasLogger && !BuilderHasCredentials(b) ==> r == Failure(MissingCredentials)
    ensures r.Success? <==> b.hasLogger && BuilderHasCredentials(b) && AllTyped(b.tokens)
    ensures r.Failure? && b.hasLogger && BuilderHasCredentials(b) ==>
              && r.error.BadToken?
              && r.error.index < |b.tokens|
              && !KindOf(b.tokens[r.error.index]).Typed?
              && r.error.fault == KindFault(KindOf(b.tokens[r.error.index]))
              && AllTyped(b.tokens[..r.error.index])
    ensures r.Success? ==>
              && r.value.access == LastIn(b.tokens, AccessSlot)
              && r.value.refresh == LastIn(b.tokens, RefreshSlot)
              && r.value.tokenURL == (if b.tokenURL == "" then DefaultTokenURL else b.tokenURL)
              && r.value.clientID == (if b.clientID == "" then DefaultClientID else b.clientID)
              && r.value.clientSecret == b.clientSecret
              && r.value.user == b.user && r.value.password == b.password
              && r.value.scopes == (if |b.scopes| == 0 then DefaultScopes else b.scopes)
    // The default client identifier makes a secret alone enough at run time,
    // although `Build` itself asked for an identifier too.
    ensures r.Success? ==> (HaveSecret(r.value) <==> b.clientSecret != "")
  {
    if !b.hasLogger {
      return Failure(MissingLogger);
    }
    if !BuilderHasCredentials(b) {
      return Failure(MissingCredentials);
    }
    var pair := ClassifyTokens(b.tokens);
    if pair.Failure? {
      return Failure(pair.error);
    }
    var tokenURL := if b.tokenURL == "" then DefaultTokenURL else b.tokenURL;
    var clientID := if b.clientID == "" then DefaultClientID else b.clientID;
    var clientSecret := if b.clientSecret == "" then DefaultClientSecret else b.clientSecret;
    var scopes := if |b.scopes| == 0 then DefaultScopes else b.scopes;
    return Success(Wrapper(tokenURL, clientID, clientSecret, b.user, b.password, scopes,
                           pair.value.0, pair.value.1));
  }

  /** A pre-supplied token whose `typ` is `Offline`, in any letter case, is
      kept as the refresh token and never as the access token. */
  lemma OfflineIsRefresh(e: Encoded, typ: string)
    requires e.decoded.Some? && e.decoded.value.typ == Text(typ)
    requires |typ| == 7 && forall i :: 0 <= i < 7 ==> Text.ToLowerAscii(typ[i]) == "offline"[i]
    ensures KindOf(e) == Typed(RefreshSlot, Token(e.text, e.decoded.value))
  {
    assert Text.EqualFold(typ, "Offline") by {
      forall i | 0 <= i < 7
        ensures Text.FoldsTo(typ[i], "Offline"[i])
      {
        assert Text.ToLowerAscii("Offline"[i]) == "offline"[i];
      }
    }
    assert !Text.EqualFold(typ, "Bearer");
    assert !Text.FoldsTo(typ[0], "Refresh"[0]);
  }

  /** Appending one classified token to the list only changes its own slot. */
  lemma LastInSnoc(tokens: seq<Encoded>, e: Encoded, slot: Slot)
    ensures var k := KindOf(e);
            LastIn(tokens + [e], slot) ==
              if k.Typed? && k.slot == slot then Some(k.token) else LastIn(tokens, slot)
  {
    assert (tokens + [e])[..|tokens|] == tokens;
  }
}
