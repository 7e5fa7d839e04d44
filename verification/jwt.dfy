/** Tokens as the lifecycle manager sees them. The JWT library decodes a token
    without checking its signature; the model keeps only the two claims the
    manager reads, `typ` and `exp` (section 4.1.4 of RFC 7519), and the raw
    text that is sent as the bearer credential. Times are whole seconds. */
module Jwt {
  import opened Results

  /** The value a decoded claim set holds under one name: missing, a JSON
      string, a JSON number, or anything else (object, array, boolean). */
  datatype Claim = Absent | Text(s: string) | Number(n: int) | OtherType

  datatype Claims = Claims(typ: Claim, exp: Claim)

  /** A decoded token; `raw` is the encoded text it was decoded from. */
  datatype Token = Token(raw: string, claims: Claims)

  /** An encoded token together with what the unverified decoder makes of
      it: `None` when the text is not a decodable JWT. */
  datatype Encoded = Encoded(text: string, decoded: Option<Claims>)

  /** `Parser.ParseUnverified`: the decoded token keeps the encoded text. */
  function Parse(e: Encoded): (r: Option<Token>)
    ensures r.Some? <==> e.decoded.Some?
    ensures r.Some? ==> r.value.raw == e.text && r.value.claims == e.decoded.value
  {
    match e.decoded
    case None => None
    case Some(c) => Some(Token(e.text, c))
  }

  /** Whether a token expires, and the seconds left until it does. */
  datatype Expiry = Expiry(expires: bool, left: int)

  datatype ExpiryError = ExpNotNumeric

  /** `GetTokenExpiry`: a token without an `exp` claim, or with `exp` equal to
      zero, never expires and has nothing left; otherwise the time left is
      `exp - now`, negative once the token has expired. An `exp` that is not a
      number is an error. */
  function GetTokenExpiry(t: Token, now: int): (r: Result<Expiry, ExpiryError>)
    ensures r.Failure? <==> (t.claims.exp.Text? || t.claims.exp.OtherType?)
    ensures r.Success? && r.value.expires ==> t.claims.exp.Number? && r.value.left == t.claims.exp.n - now
    ensures r.Success? && !r.value.expires ==> r.value.left == 0
    ensures r.Success? ==> (r.value.expires <==> t.claims.exp.Number? && t.claims.exp.n != 0)
  {
    match t.claims.exp
    case Absent => Success(Expiry(false, 0))
    case Number(exp) =>
      if exp == 0 then Success(Expiry(false, 0)) else Success(Expiry(true, exp - now))
    case _ => Failure(ExpNotNumeric)
  }

  /** A token that is usable for at least `window` more seconds. */
  predicate Fresh(e: Expiry, window: int)
  {
    !e.expires || e.left >= window
  }

  /** A token that has not yet expired (it may be below any freshness window). */
  predicate Alive(e: Expiry)
  {
    !e.expires || e.left > 0
  }

  /** Freshness read back in terms of the claim: a token is fresh at `now` iff
      it has no expiry, or its `exp` is at least `now + window`. */
  lemma FreshIffExpLater(t: Token, now: int, window: int)
    requires GetTokenExpiry(t, now).Success?
    ensures Fresh(GetTokenExpiry(t, now).value, window) <==>
              (t.claims.exp.Absent? || t.claims.exp.n == 0 || t.claims.exp.n >= now + window)
  {
  }

  /** A token fresh at some instant is fresh at every earlier instant, and for
      every smaller window. */
  lemma FreshAntitone(t: Token, now1: int, now2: int, w1: int, w2: int)
    requires now1 <= now2 && w1 <= w2
    requires GetTokenExpiry(t, now2).Success?
    requires Fresh(GetTokenExpiry(t, now2).value, w2)
    ensures GetTokenExpiry(t, now1).Success?
    ensures Fresh(GetTokenExpiry(t, now1).value, w1)
  {
  }
}
