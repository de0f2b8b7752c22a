/**
 `JwtTokenManager`: issuing, renewing, revoking and validating token pairs over a renewable-token
 store. Signing, verifying, hashing and the calendar's range are functions of the configuration;
 random values (token ids and refresh tokens) and clock readings are arguments.
 */
module TokenManager {
  import opened Wrappers
  import opened Json
  import opened TokenTypes
  import opened RenewableTokenStore

  const RESERVED_CLAIMS: seq<string> := ["iss", "sub", "aud", "exp", "iat", "nbf", "jti"]

  datatype Config = Config(
    issuer: string,
    issuerId: Option<string>,
    refreshEndpoint: string,
    tokenDuration: int,
    renewalTokenDuration: int,
    hash: string -> string,
    sign: (ParticipantContext, TokenClaims) -> Result<string, TokenError>,
    clientVerify: (string, string) -> Result<TokenClaims, TokenError>,
    providerVerify: (string, string) -> Result<TokenClaims, TokenError>,
    validTimestamp: int -> bool)

  predicate Reserved(name: string) { name in RESERVED_CLAIMS }

  predicate AllowedClaims(claims: Claims) { forall name :: name in claims ==> !Reserved(name) }

  function CreateClaims(c: Config, aud: string, jti: string, subject: string, claims: Claims, now: int): TokenClaims {
    TokenClaims(c.issuer, subject, aud, now + c.tokenDuration, claims["jti" := String(jti)])
  }

  function IssuerContext(c: Config): ParticipantContext {
    ParticipantContext(if c.issuerId.Some? then c.issuerId.value else c.issuer, c.issuer, "anonymous")
  }

  function RenewalExpiration(c: Config, now: int): Result<int, TokenError> {
    var t := now + c.renewalTokenDuration;
    if c.validTimestamp(t) then Ok(t)
    else Err(GeneralError("Failed to calculate token expiration time - timestamp is out of valid range"))
  }

  /** The entry `generate_pair` saves, or the error it stops with before saving. */
  function NewEntry(c: Config, pc: ParticipantContext, subject: string, claims: Claims, flowId: string,
                    now: int, jti: string, refreshToken: string): Result<Entry, TokenError>
  {
    match c.sign(IssuerContext(c), CreateClaims(c, pc.audience, jti, subject, claims, now))
    case Err(e) => Err(e)
    case Ok(token) =>
      match RenewalExpiration(c, now)
      case Err(e) => Err(e)
      case Ok(expiresAt) =>
        Ok(Entry(jti, token, c.hash(refreshToken), expiresAt, subject, claims, pc.id, pc.audience, flowId))
  }

  /** What `renew` requires of the bound token for the entry the refresh token named. */
  function CheckBound(c: Config, entry: Entry, bound: string): Result<TokenClaims, TokenError> {
    match c.clientVerify(entry.audience, bound)
    case Err(e) => Err(e)
    case Ok(v) =>
      if v.sub != entry.subject then Err(NotAuthorized("Subject mismatch"))
      else if "token" !in v.custom then Err(NotAuthorized("Missing token claim"))
      else if v.custom["token"] != String(entry.token) then Err(NotAuthorized("Invalid token"))
      else Ok(v)
  }

  /** The entry `renew` replaces `entry` by. It keeps everything `generate_pair` was given. */
  function NextEntry(c: Config, entry: Entry, bound: string, now: int, jti: string, refreshToken: string)
    : Result<Entry, TokenError>
  {
    match CheckBound(c, entry, bound)
    case Err(e) => Err(e)
    case Ok(v) =>
      match RenewalExpiration(c, now)
      case Err(e) => Err(e)
      case Ok(expiresAt) =>
        match c.sign(IssuerContext(c), CreateClaims(c, entry.audience, jti, v.sub, entry.claims, now))
        case Err(e) => Err(e)
        case Ok(token) =>
          Ok(entry.(id := jti, token := token, hash := c.hash(refreshToken), expiresAt := expiresAt))
  }

  /** The signed token is for the audience and the subject, carries the id and every custom claim, expires a
      token's lifetime after `now`, and is signed in the issuer's own context. */
  ghost predicate TokenCarries(c: Config, token: string, audience: string, subject: string, claims: Claims, id: string, now: int) {
    c.sign(ParticipantContext(if c.issuerId.Some? then c.issuerId.value else c.issuer, c.issuer, "anonymous"),
           TokenClaims(c.issuer, subject, audience, now + c.tokenDuration, claims["jti" := String(id)])) == Ok(token)
  }

  /** What `generate_pair` saves: the token it signed, under the id, the hash and the flow, for exactly what
      it was given, and with the expiry of its refresh token. */
  lemma NewEntryIs(c: Config, pc: ParticipantContext, subject: string, claims: Claims, flowId: string,
                   now: int, jti: string, refreshToken: string)
    ensures var r := NewEntry(c, pc, subject, claims, flowId, now, jti, refreshToken);
            && (r.Ok? ==>
                  && TokenCarries(c, r.value.token, pc.audience, subject, claims, jti, now)
                  && r.value == Entry(jti, r.value.token, c.hash(refreshToken), now + c.renewalTokenDuration, subject, claims,
                                      pc.id, pc.audience, flowId))
            && (r.Err? <==> !c.validTimestamp(now + c.renewalTokenDuration) ||
                            forall token :: !TokenCarries(c, token, pc.audience, subject, claims, jti, now))
  {
    var signed := c.sign(IssuerContext(c), CreateClaims(c, pc.audience, jti, subject, claims, now));
    assert signed.Ok? ==> TokenCarries(c, signed.value, pc.audience, subject, claims, jti, now);
  }

  /** Exactly when a bound token is accepted for an entry: it verifies for the entry's audience, is the
      subject's, and names the entry's token. */
  lemma BoundAcceptedIff(c: Config, entry: Entry, bound: string)
    ensures var v, r := c.clientVerify(entry.audience, bound), CheckBound(c, entry, bound);
            && (r.Ok? <==> && v.Ok? && v.value.sub == entry.subject
                           && "token" in v.value.custom && v.value.custom["token"] == String(entry.token))
            && (r.Ok? ==> r == v)
            && (v.Err? ==> r == Err(v.error))
            && (r.Err? && v.Ok? ==> r.error.NotAuthorized?)
  {
  }

  /** What `renew` puts in the place of an entry: a new token, id, hash and expiry for the very same grant. */
  lemma NextEntryIs(c: Config, entry: Entry, bound: string, now: int, jti: string, refreshToken: string)
    requires NextEntry(c, entry, bound, now, jti, refreshToken).Ok?
    ensures var e := NextEntry(c, entry, bound, now, jti, refreshToken).value;
            && TokenCarries(c, e.token, entry.audience, entry.subject, entry.claims, jti, now)
            && e == Entry(jti, e.token, c.hash(refreshToken), now + c.renewalTokenDuration, entry.subject, entry.claims,
                          entry.participantContextId, entry.audience, entry.flowId)
  {
  }

  /** It does so exactly when the bound token is accepted and signing and dating succeed. */
  lemma NextEntryIff(c: Config, entry: Entry, bound: string, now: int, jti: string, refreshToken: string)
    ensures NextEntry(c, entry, bound, now, jti, refreshToken).Ok? <==>
            && CheckBound(c, entry, bound).Ok?
            && c.validTimestamp(now + c.renewalTokenDuration)
            && exists token :: TokenCarries(c, token, entry.audience, entry.subject, entry.claims, jti, now)
  {
    var signed := c.sign(IssuerContext(c), CreateClaims(c, entry.audience, jti, entry.subject, entry.claims, now));
    if signed.Ok? {
      assert TokenCarries(c, signed.value, entry.audience, entry.subject, entry.claims, jti, now);
    }
  }

  /** `validate_token`: a verified token is accepted when its `jti` names a live entry. */
  function Validate(c: Config, s: Index, audience: string, token: string): Result<TokenClaims, TokenError> {
    match c.providerVerify(audience, token)
    case Err(e) => Err(e)
    case Ok(claims) =>
      if "jti" !in claims.custom || !claims.custom["jti"].String? then Err(Invalid)
      else if claims.custom["jti"].s !in s.byId then Err(NotAuthorized("Token not found"))
      else Ok(claims)
  }

  lemma ReservedAre(claims: Claims)
    ensures AllowedClaims(claims) <==> {"iss", "sub", "aud", "exp", "iat", "nbf", "jti"} !! claims.Keys
  {
    var reserved := {"iss", "sub", "aud", "exp", "iat", "nbf", "jti"};
    assert forall name :: Reserved(name) <==> name in reserved by {
      forall name ensures Reserved(name) <==> name in reserved { ReservedName(name); }
    }
  }

  lemma ReservedName(name: string)
    ensures Reserved(name) <==> name in {"iss", "sub", "aud", "exp", "iat", "nbf", "jti"}
  {
    var l := RESERVED_CLAIMS;
    assert l[0] == "iss" && l[1] == "sub" && l[2] == "aud" && l[3] == "exp" && l[4] == "iat" && l[5] == "nbf" && l[6] == "jti";
  }

  /** `claims` are those a token can carry: nothing reserved among them. */
  method ValidateCustomClaims(claims: Claims) returns (r: Result<(), TokenError>)
    ensures r.Ok? <==> AllowedClaims(claims)
    ensures r.Ok? <==> {"iss", "sub", "aud", "exp", "iat", "nbf", "jti"} !! claims.Keys
    ensures r.Err? ==> r.error.GeneralError?
  {
    var i := 0;
    while i < |RESERVED_CLAIMS|
      invariant i <= |RESERVED_CLAIMS|
      invariant forall j :: 0 <= j < i ==> RESERVED_CLAIMS[j] !in claims
    {
      if RESERVED_CLAIMS[i] in claims {
        ReservedAre(claims);
        return Err(GeneralError("Custom claims cannot contain reserved claim: " + RESERVED_CLAIMS[i]));
      }
      i := i + 1;
    }
    r := Ok(());
    ReservedAre(claims);
  }

  class JwtTokenManager {
    const config: Config
    const store: MemoryRenewableTokenStore

    constructor (config: Config, store: MemoryRenewableTokenStore)
      ensures this.config == config && this.store == store
    {
      this.config, this.store := config, store;
    }

    /** Either refuses and leaves the store alone, or saves exactly one entry under the new id. */
    method GeneratePair(pc: ParticipantContext, subject: string, claims: Claims, flowId: string,
                        now: int, jti: string, refreshToken: string)
      returns (r: Result<TokenPair, TokenError>)
      modifies store
      ensures r.Ok? <==> AllowedClaims(claims) && NewEntry(config, pc, subject, claims, flowId, now, jti, refreshToken).Ok?
      ensures r.Err? ==> store.Contents() == old(store.Contents())
      ensures r.Ok? ==>
                var e := NewEntry(config, pc, subject, claims, flowId, now, jti, refreshToken).value;
                && store.Contents() == Saved(old(store.Contents()), e)
                && r.value == TokenPair(e.token, refreshToken, e.expiresAt, config.refreshEndpoint)
      ensures r.Ok? ==>
                && TokenCarries(config, r.value.token, pc.audience, subject, claims, jti, now)
                && r.value == TokenPair(r.value.token, refreshToken, now + config.renewalTokenDuration, config.refreshEndpoint)
    {
      var checked := ValidateCustomClaims(claims);
      if checked.Err? {
        return Err(checked.error);
      }
      var tokenClaims := CreateClaims(config, pc.audience, jti, subject, claims, now);
      var token := config.sign(IssuerContext(config), tokenClaims);
      if token.Err? {
        return Err(token.error);
      }
      var hashed := config.hash(refreshToken);
      var expiresAt := RenewalExpiration(config, now);
      if expiresAt.Err? {
        return Err(expiresAt.error);
      }
      store.Save(Entry(jti, token.value, hashed, expiresAt.value, subject, claims, pc.id, pc.audience, flowId));
      r := Ok(TokenPair(token.value, refreshToken, expiresAt.value, config.refreshEndpoint));
    }

    /** `renew` with nobody else at work between its steps. */
    method Renew(bound: string, refreshToken: string, now: int, jti: string, newRefreshToken: string)
      returns (r: Result<TokenPair, TokenError>)
      modifies store
      ensures var s, h := old(store.Contents()), config.hash(refreshToken);
              if h !in s.byHash then r == Err(NotAuthorized("Invalid refresh token")) && store.Contents() == s
              else match NextEntry(config, s.byHash[h], bound, now, jti, newRefreshToken)
                   case Err(e) => r == Err(e) && store.Contents() == s
                   case Ok(e) => && Updated(s, h, e) == Ok(store.Contents())
                                 && r == Ok(TokenPair(e.token, newRefreshToken, e.expiresAt, config.refreshEndpoint))
      ensures r.Ok? ==>
                && config.hash(refreshToken) in old(store.Contents()).byHash
                && var e := old(store.Contents()).byHash[config.hash(refreshToken)];
                   && TokenCarries(config, r.value.token, e.audience, e.subject, e.claims, jti, now)
                   && r.value == TokenPair(r.value.token, newRefreshToken, now + config.renewalTokenDuration, config.refreshEndpoint)
    {
      ghost var next := if config.hash(refreshToken) in store.Contents().byHash
                        then NextEntry(config, store.Contents().byHash[config.hash(refreshToken)], bound, now, jti, newRefreshToken)
                        else Err(Invalid);
      if next.Ok? {
        NextEntryIs(config, store.Contents().byHash[config.hash(refreshToken)], bound, now, jti, newRefreshToken);
      }
      var hashed := config.hash(refreshToken);
      var found := store.FindByRenewal(hashed);
      if found.Err? {
        return Err(NotAuthorized("Invalid refresh token"));
      }
      var entry := found.value;
      var verified := CheckBound(config, entry, bound);
      if verified.Err? {
        return Err(verified.error);
      }
      var expiresAt := RenewalExpiration(config, now);
      if expiresAt.Err? {
        return Err(expiresAt.error);
      }
      var newHashed := config.hash(newRefreshToken);
      var newClaims := CreateClaims(config, entry.audience, jti, verified.value.sub, entry.claims, now);
      var token := config.sign(IssuerContext(config), newClaims);
      if token.Err? {
        return Err(token.error);
      }
      var newEntry := Entry(jti, token.value, newHashed, expiresAt.value, entry.subject, entry.claims,
                            entry.participantContextId, entry.audience, entry.flowId);
      var updated := store.Update(hashed, newEntry);
      r := match updated
           case Err(e) => Err(e)
           case Ok(_) => Ok(TokenPair(token.value, newRefreshToken, expiresAt.value, config.refreshEndpoint));
    }

    method RevokeToken(flowId: string) returns (r: Result<(), TokenError>)
      modifies store
      ensures match Removed(old(store.Contents()), flowId)
              case Ok(s) => r == Ok(()) && store.Contents() == s
              case Err(e) => r == Err(e) && store.Contents() == old(store.Contents())
    {
      r := store.RemoveByFlowId(flowId);
    }

    /** What verifying yields, if its `jti` is a string and the id of a live entry. */
    method ValidateToken(audience: string, token: string) returns (r: Result<TokenClaims, TokenError>)
      ensures r == Validate(config, store.Contents(), audience, token)
      ensures var v := config.providerVerify(audience, token);
              && (r.Ok? ==> r == v)
              && (r.Ok? <==> v.Ok? && exists id :: id in store.Contents().byId && "jti" in v.value.custom
                                                   && v.value.custom["jti"] == String(id))
              && (v.Err? ==> r == Err(v.error))
    {
      var claims := config.providerVerify(audience, token);
      if claims.Err? {
        return Err(claims.error);
      }
      var custom := claims.value.custom;
      if "jti" !in custom || !custom["jti"].String? {
        return Err(Invalid);
      }
      var found := store.FindById(custom["jti"].s);
      r := if found.Err? then Err(NotAuthorized("Token not found")) else claims;
    }
  }
}
