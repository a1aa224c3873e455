/** Authorization tokens (remembrance-consent/app/consent/tokens.py) with an ideal signature:
    a signature verifies only over claims the issuer signed. */
module Tokens {
  import opened Wrappers
  import opened Kernel

  type Jti = nat

  const MAX_TOKEN_TTL_SECONDS := 300
  const CLOCK_SKEW_SECONDS := 5

  datatype Claims = Claims(
    jti: Jti, user: UserId, iat: int, nbf: int, exp: int, action: Action, profile: ProfileId,
    grant: Option<GrantId>, purpose: Purpose, disclosure: bool)

  // A row of authorization_token: the ledger every validation consults.
  datatype TokenRow = TokenRow(
    grant: Option<GrantId>, profile: ProfileId, action: Action, purpose: Purpose, user: UserId,
    issuedAt: int, expiresAt: int, revoked: bool)

  datatype Failure =
    | Missing | Malformed | UnsupportedAlgorithm | WrongType | UnknownKey | BadSignature | WrongIssuer | WrongAudience
    | Expired | NotYetValid | TtlExceedsLimit | ActionMismatch | ProfileMismatch | UnknownToken | Revoked

  // What a caller presents. `signed` says whether the signature verifies under the named key, and
  // `claims` is None when the claims do not have the required shape.
  datatype Credential =
    | NoCredential
    | Garbage
    | Credential(algOk: bool, typOk: bool, keyKnown: bool, signed: bool, issOk: bool, audOk: bool,
        claims: Option<Claims>)

  function Issue(jti: Jti, user: UserId, action: Action, profile: ProfileId, grant: Option<GrantId>, purpose: Purpose,
                 now: real, ttl: int): Claims
  {
    var iat := now.Floor;
    Claims(jti, user, iat, iat, iat + ttl, action, profile, grant, purpose, IsUse(action) && !action.ViewMemorial?)
  }

  function RowOf(c: Claims): TokenRow {
    TokenRow(c.grant, c.profile, c.action, c.purpose, c.user, c.iat, c.exp, false)
  }

  function Validate(
      cred: Credential, tokens: map<Jti, TokenRow>, now: real, action: Action,
      profile: ProfileId): Result<Claims, Failure> {
    match cred
    case NoCredential => Err(Missing)
    case Garbage => Err(Malformed)
    case Credential(algOk, typOk, keyKnown, signed, issOk, audOk, claims) =>
      if !algOk then Err(UnsupportedAlgorithm)
      else if !typOk then Err(WrongType)
      else if !keyKnown then Err(UnknownKey)
      else if !signed then Err(BadSignature)
      else if !issOk then Err(WrongIssuer)
      else if !audOk then Err(WrongAudience)
      else if claims.None? then Err(Malformed)
      else
        var c := claims.value;
        if c.exp - c.iat > MAX_TOKEN_TTL_SECONDS || c.exp <= c.iat then Err(TtlExceedsLimit)
        else if now > (c.exp + CLOCK_SKEW_SECONDS) as real then Err(Expired)
        else if now + CLOCK_SKEW_SECONDS as real < c.nbf as real then Err(NotYetValid)
        else if c.action != action then Err(ActionMismatch)
        else if c.profile != profile then Err(ProfileMismatch)
        else if c.jti !in tokens then Err(UnknownToken)
        else if tokens[c.jti].revoked then Err(Revoked)
        else Ok(c)
  }

  /** A token the issuer signed with a permitted lifetime is accepted exactly in its time window (with skew), for
      its own action and profile, while the ledger lists it unrevoked; no fault of the token itself is left. */
  lemma IssuedTokenAcceptedExactlyWhen(c: Claims, tokens: map<Jti, TokenRow>, issued: real, ttl: int, now: real,
                                       action: Action, profile: ProfileId)
    requires c == Issue(c.jti, c.user, c.action, c.profile, c.grant, c.purpose, issued, ttl)
    requires 1 <= ttl <= MAX_TOKEN_TTL_SECONDS
    ensures var r := Validate(Credential(true, true, true, true, true, true, Some(c)), tokens, now, action, profile);
            && (r.Ok? <==> && c.action == action && c.profile == profile
                           && c.jti in tokens && !tokens[c.jti].revoked
                           && (issued.Floor - CLOCK_SKEW_SECONDS) as real <= now
                           && now <= (issued.Floor + ttl + CLOCK_SKEW_SECONDS) as real)
            && (r.Ok? ==> r.value == c && now - issued <= (MAX_TOKEN_TTL_SECONDS + CLOCK_SKEW_SECONDS) as real)
  {
  }

  /** What the issuer writes into a token: a lifetime of `ttl` seconds from the second of the issue on, valid at once,
      and the disclosure flag for everything synthesized. */
  lemma IssuedClaims(jti: Jti, user: UserId, action: Action, profile: ProfileId, grant: Option<GrantId>,
                     purpose: Purpose, now: real, ttl: int)
    ensures var c := Issue(jti, user, action, profile, grant, purpose, now, ttl);
            && c.iat as real <= now < (c.iat + 1) as real && c.nbf == c.iat && c.exp == c.iat + ttl
            && c.jti == jti && c.user == user && c.action == action && c.profile == profile
            && c.grant == grant && c.purpose == purpose
            && (c.disclosure <==> action in {InitiateVoiceSynthesis, GenerateScript, DeliverMessage})
  {
  }

  /** A token is good from the moment it is issued until its lifetime is over. */
  lemma FreshTokenIsAccepted(c: Claims, tokens: map<Jti, TokenRow>, issued: real, ttl: int, now: real)
    requires c == Issue(c.jti, c.user, c.action, c.profile, c.grant, c.purpose, issued, ttl)
    requires 1 <= ttl <= MAX_TOKEN_TTL_SECONDS && issued <= now <= issued.Floor as real + ttl as real
    ensures Validate(Credential(true, true, true, true, true, true, Some(c)), tokens[c.jti := RowOf(c)], now, c.action,
                     c.profile) == Ok(c)
  {
  }

  // A token of the right kind, signed under a known key by this issuer for this audience.
  predicate Trusted(cred: Credential) {
    cred.Credential? && cred.algOk && cred.typOk && cred.keyKnown && cred.signed && cred.issOk && cred.audOk
  }

  predicate Genuine(cred: Credential) {
    Trusted(cred) && cred.claims.Some?
  }

  predicate ShortLived(c: Claims) {
    1 <= c.exp - c.iat <= 300
  }

  predicate InTime(c: Claims, now: real) {
    c.nbf as real - 5.0 <= now <= c.exp as real + 5.0
  }

  /** Any credential whatever is accepted exactly when it is genuine and its claims are short-lived, in time, for this
      action and this profile, and listed unrevoked; what is handed on are those claims. */
  lemma AcceptedExactlyWhen(
      cred: Credential, tokens: map<Jti, TokenRow>, now: real, action: Action, profile: ProfileId)
    ensures var r := Validate(cred, tokens, now, action, profile);
            && (r.Ok? <==>
                && Genuine(cred)
                && var c := cred.claims.value;
                && ShortLived(c) && InTime(c, now) && c.action == action && c.profile == profile
                && c.jti in tokens && !tokens[c.jti].revoked)
            && (r.Ok? ==> r.value == cred.claims.value)
  {
  }

  /** Each failure is reported exactly when its own check is the first to fail. */
  lemma FailuresExactly(
      cred: Credential, tokens: map<Jti, TokenRow>, now: real, action: Action, profile: ProfileId)
    ensures var r := Validate(cred, tokens, now, action, profile);
            && (r == Err(Missing) <==> cred == NoCredential)
            && (r == Err(UnsupportedAlgorithm) <==> cred.Credential? && !cred.algOk)
            && (r == Err(WrongType) <==> cred.Credential? && cred.algOk && !cred.typOk)
            && (r == Err(UnknownKey) <==> cred.Credential? && cred.algOk && cred.typOk && !cred.keyKnown)
            && (r == Err(BadSignature) <==>
                cred.Credential? && cred.algOk && cred.typOk && cred.keyKnown && !cred.signed)
            && (r == Err(WrongIssuer) <==>
                cred.Credential? && cred.algOk && cred.typOk && cred.keyKnown && cred.signed && !cred.issOk)
            && (r == Err(WrongAudience) <==>
                cred.Credential? && cred.algOk && cred.typOk && cred.keyKnown && cred.signed && cred.issOk
                && !cred.audOk)
            && (r == Err(Malformed) <==> cred == Garbage || (Trusted(cred) && cred.claims.None?))
            && (Genuine(cred) ==>
                  var c := cred.claims.value;
                  var mine := ShortLived(c) && InTime(c, now) && c.action == action && c.profile == profile;
                  && (r == Err(TtlExceedsLimit) <==> !ShortLived(c))
                  && (r == Err(Expired) <==> ShortLived(c) && now > c.exp as real + 5.0)
                  && (r == Err(NotYetValid) <==>
                      ShortLived(c) && now <= c.exp as real + 5.0 && now < c.nbf as real - 5.0)
                  && (r == Err(ActionMismatch) <==> ShortLived(c) && InTime(c, now) && c.action != action)
                  && (r == Err(ProfileMismatch) <==>
                      ShortLived(c) && InTime(c, now) && c.action == action && c.profile != profile)
                  && (r == Err(UnknownToken) <==> mine && c.jti !in tokens)
                  && (r == Err(Revoked) <==> mine && c.jti in tokens && tokens[c.jti].revoked))
  {
  }
}
