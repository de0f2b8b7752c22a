/**
 The consumer side: the token stores and `TokenClientApi`, which hands out a stored token and refreshes
 it first when it is about to expire. Both stores are proved against one view, `Lookup`: what is stored
 under a participant context and identifier. Times are in milliseconds.
 */
module TokenClient {
  import opened Wrappers
  import opened Json
  import opened TokenTypes
  import opened MemoryLocks

  datatype TokenData = TokenData(
    identifier: string,
    participantContext: string,
    participantId: string,
    counterPartyId: string,
    token: string,
    refreshToken: string,
    expiresAt: int,
    refreshEndpoint: string,
    endpoint: string)

  /** What a refresh changes. */
  datatype RefreshedTokenData = RefreshedTokenData(token: string, refreshToken: string, expiresAt: int, refreshEndpoint: string)

  datatype TokenResult = TokenResult(token: string, endpoint: string)

  datatype RefreshRequest = RefreshRequest(
    context: ParticipantContext,
    counterPartyId: string,
    token: string,
    refreshToken: string,
    refreshEndpoint: string)

  /** Whether a token is due for refresh. */
  predicate Expiring(now: int, expiresAt: int, refreshBeforeExpiry: int) { now >= expiresAt - refreshBeforeExpiry }

  /** A refresh replaces the token, the refresh token, the expiry and the refresh endpoint, nothing else. */
  function Refreshed(d: TokenData, r: RefreshedTokenData): TokenData {
    d.(token := r.token, refreshToken := r.refreshToken, expiresAt := r.expiresAt, refreshEndpoint := r.refreshEndpoint)
  }

  /** What a refresh leaves as it was: whose token it is, with whom, and where it is used. */
  predicate Keeps(was: Option<TokenData>, d: Option<TokenData>) {
    && was.Some? && d.Some? && d.value.identifier == was.value.identifier
    && d.value.participantContext == was.value.participantContext && d.value.participantId == was.value.participantId
    && d.value.counterPartyId == was.value.counterPartyId && d.value.endpoint == was.value.endpoint
  }

  /** What it brings in. */
  predicate Takes(d: Option<TokenData>, r: RefreshedTokenData) {
    && d.Some? && d.value.token == r.token && d.value.refreshToken == r.refreshToken
    && d.value.expiresAt == r.expiresAt && d.value.refreshEndpoint == r.refreshEndpoint
  }

  /** The request for a stored token; the identifier of the context is the stored one. */
  function RequestFor(pc: ParticipantContext, d: TokenData): RefreshRequest {
    RefreshRequest(ParticipantContext(pc.id, d.participantId, "anonymous"), d.counterPartyId, d.token, d.refreshToken,
                   d.refreshEndpoint)
  }

  /** `OAuth2TokenClient`'s bound token: issued by and for the participant, naming the token it renews. */
  function BoundClaims(r: RefreshRequest, jti: string, now: int, expirationSeconds: int): TokenClaims {
    TokenClaims(r.context.identifier, r.context.identifier, r.counterPartyId, now + expirationSeconds,
                map["token" := String(r.token), "jti" := String(jti)])
  }

  /** The authorization server's answer (section 5.1 of RFC 6749); `expiresIn` is in seconds. */
  datatype TokenResponse = TokenResponse(accessToken: string, refreshToken: Option<string>, expiresIn: int)

  /** A server that does not rotate the refresh token leaves it out, and then it stays what it is. */
  function RefreshedFrom(r: RefreshRequest, answer: TokenResponse, now: int): RefreshedTokenData {
    RefreshedTokenData(answer.accessToken, if answer.refreshToken.Some? then answer.refreshToken.value else r.refreshToken,
                       now + 1000 * answer.expiresIn, r.refreshEndpoint)
  }

  /** `refresh_token`: signs the bound token, sends it with the refresh token, and takes the answer apart. */
  class OAuth2TokenClient {
    const expirationSeconds: int
    const generate: (ParticipantContext, TokenClaims) -> Result<string, TokenError>
    const post: (string, string, string) -> Result<TokenResponse, TokenError>

    constructor (expirationSeconds: int, generate: (ParticipantContext, TokenClaims) -> Result<string, TokenError>,
                 post: (string, string, string) -> Result<TokenResponse, TokenError>)
      ensures this.expirationSeconds == expirationSeconds && this.generate == generate && this.post == post
    {
      this.expirationSeconds, this.generate, this.post := expirationSeconds, generate, post;
    }

    /** `post(endpoint, refresh token, bearer token)` is the exchange; `now` is read in seconds before it and
        `received` in milliseconds after it. */
    method RefreshToken(request: RefreshRequest, jti: string, now: int, received: int)
      returns (r: Result<RefreshedTokenData, TokenError>)
      ensures var id := request.context.identifier;
              match generate(request.context, TokenClaims(id, id, request.counterPartyId, now + expirationSeconds,
                                                          map["token" := String(request.token), "jti" := String(jti)]))
              case Err(e) => r == Err(e)
              case Ok(jwt) =>
                match post(request.refreshEndpoint, request.refreshToken, jwt)
                case Err(e) => r == Err(e)
                case Ok(a) =>
                  && r.Ok? && r.value.token == a.accessToken && r.value.expiresAt == received + 1000 * a.expiresIn
                  && r.value.refreshEndpoint == request.refreshEndpoint
                  && (a.refreshToken.None? ==> r.value.refreshToken == request.refreshToken)
                  && (a.refreshToken.Some? ==> r.value.refreshToken == a.refreshToken.value)
    {
      var custom: Claims := map[];
      custom := custom["token" := String(request.token)];
      custom := custom["jti" := String(jti)];
      assert custom == BoundClaims(request, jti, now, expirationSeconds).custom;
      var jwt := generate(request.context, BoundClaims(request, jti, now, expirationSeconds));
      if jwt.Err? {
        return Err(jwt.error);
      }
      var answer := post(request.refreshEndpoint, request.refreshToken, jwt.value);
      r := match answer case Ok(a) => Ok(RefreshedFrom(request, a, received)) case Err(e) => Err(e);
    }
  }

  datatype TokenRecord = TokenRecord(
    participantContext: string,
    participantId: string,
    counterPartyId: string,
    identifier: string,
    token: string,
    refreshToken: string,
    refreshEndpoint: string,
    endpoint: string,
    expiresAt: int,
    lastAccessed: int)

  function DataOf(r: TokenRecord): TokenData {
    TokenData(r.identifier, r.participantContext, r.participantId, r.counterPartyId, r.token, r.refreshToken,
              r.expiresAt, r.refreshEndpoint, r.endpoint)
  }

  class MemoryTokenStore {
    var tokens: map<(string, string), TokenRecord>

    ghost predicate Valid()
      reads this
    {
      forall k :: k in tokens ==> tokens[k].participantContext == k.0 && tokens[k].identifier == k.1
    }

    function Lookup(pc: string, identifier: string): Option<TokenData>
      reads this
    {
      if (pc, identifier) in tokens then Some(DataOf(tokens[(pc, identifier)])) else None
    }

    constructor ()
      ensures Valid() && forall pc, identifier :: Lookup(pc, identifier) == None
    {
      tokens := map[];
    }

    method GetToken(pc: string, identifier: string, now: int) returns (r: Result<TokenData, TokenError>)
      requires Valid()
      modifies this
      ensures Valid()
      ensures r == match Lookup(pc, identifier) case Some(d) => Ok(d) case None => Err(TokenNotFound(identifier))
      ensures forall pc', id' :: Lookup(pc', id') == old(Lookup(pc', id'))
    {
      var key := (pc, identifier);
      if key !in tokens {
        return Err(TokenNotFound(identifier));
      }
      var record := tokens[key];
      if record.participantContext != pc {
        return Err(TokenNotFound(identifier));
      }
      tokens := tokens[key := record.(lastAccessed := now)];
      r := Ok(DataOf(record));
    }

    method SaveToken(d: TokenData, now: int)
      requires Valid()
      modifies this
      ensures Valid()
      ensures Lookup(d.participantContext, d.identifier) == Some(d)
      ensures forall pc', id' :: (pc', id') != (d.participantContext, d.identifier) ==> Lookup(pc', id') == old(Lookup(pc', id'))
    {
      var record := TokenRecord(d.participantContext, d.participantId, d.counterPartyId, d.identifier, d.token,
                                d.refreshToken, d.refreshEndpoint, d.endpoint, d.expiresAt, now);
      tokens := tokens[(d.participantContext, d.identifier) := record];
    }

    method UpdateToken(pc: string, identifier: string, d: RefreshedTokenData, now: int) returns (r: Result<(), TokenError>)
      requires Valid()
      modifies this
      ensures Valid()
      ensures match old(Lookup(pc, identifier))
              case Some(was) => r == Ok(()) && Lookup(pc, identifier) == Some(Refreshed(was, d))
              case None => r == Err(TokenNotFound(identifier)) && Lookup(pc, identifier) == None
      ensures r.Ok? ==> Keeps(old(Lookup(pc, identifier)), Lookup(pc, identifier)) && Takes(Lookup(pc, identifier), d)
      ensures forall pc', id' :: (pc', id') != (pc, identifier) ==> Lookup(pc', id') == old(Lookup(pc', id'))
    {
      var key := (pc, identifier);
      if key !in tokens {
        return Err(TokenNotFound(identifier));
      }
      tokens := tokens[key := tokens[key].(token := d.token, refreshToken := d.refreshToken, expiresAt := d.expiresAt,
                                           refreshEndpoint := d.refreshEndpoint, lastAccessed := now)];
      r := Ok(());
    }

    method RemoveToken(pc: string, identifier: string) returns (r: Result<(), TokenError>)
      requires Valid()
      modifies this
      ensures Valid() && Lookup(pc, identifier) == None
      ensures r == if old(Lookup(pc, identifier)).Some? then Ok(()) else Err(TokenNotFound(identifier))
      ensures forall pc', id' :: (pc', id') != (pc, identifier) ==> Lookup(pc', id') == old(Lookup(pc', id'))
    {
      var key := (pc, identifier);
      if key !in tokens {
        return Err(TokenNotFound(identifier));
      }
      tokens := tokens - {key};
      r := Ok(());
    }
  }

  /** The record kept in Vault: what is in the key is not in it. */
  datatype VaultTokenRecord = VaultTokenRecord(
    participantId: string,
    counterPartyId: string,
    token: string,
    refreshToken: string,
    expiresAt: int,
    refreshEndpoint: string,
    endpoint: string)

  /** The store over Vault secrets. `folder` is the configured subpath without surrounding white space and
      slashes; `secrets` are the token records by participant context id and path. */
  class VaultTokenStore {
    var secrets: map<(string, string), VaultTokenRecord>
    const folder: string

    /** The identifier, in the folder if there is one. */
    function Key(identifier: string): (path: string)
      ensures folder == "" ==> path == identifier
      ensures folder != "" ==> folder + "/" <= path && path[|folder| + 1..] == identifier
    {
      if folder == "" then identifier else folder + "/" + identifier
    }

    lemma KeyInjective(i: string, j: string)
      ensures Key(i) == Key(j) ==> i == j
    {
      if folder != "" && Key(i) == Key(j) {
        assert (folder + "/" + i)[|folder| + 1..] == i && (folder + "/" + j)[|folder| + 1..] == j;
      }
    }

    function Lookup(pc: string, identifier: string): Option<TokenData>
      reads this
    {
      if (pc, Key(identifier)) !in secrets then None else
      var r := secrets[(pc, Key(identifier))];
      Some(TokenData(identifier, pc, r.participantId, r.counterPartyId, r.token, r.refreshToken, r.expiresAt,
                     r.refreshEndpoint, r.endpoint))
    }

    constructor (folder: string)
      ensures this.folder == folder && forall pc, identifier :: Lookup(pc, identifier) == None
    {
      this.folder := folder;
      secrets := map[];
    }

    /** The record at the identifier's path, with the context and identifier it was asked for, which the
        record does not hold. */
    method GetToken(pc: string, identifier: string) returns (r: Result<TokenData, TokenError>)
      ensures r == match Lookup(pc, identifier) case Some(d) => Ok(d) case None => Err(TokenNotFound(identifier))
      ensures r.Ok? ==> r.value.participantContext == pc && r.value.identifier == identifier
    {
      var key := (pc, Key(identifier));
      if key !in secrets {
        return Err(TokenNotFound(identifier));
      }
      var record := secrets[key];
      r := Ok(TokenData(identifier, pc, record.participantId, record.counterPartyId, record.token, record.refreshToken,
                        record.expiresAt, record.refreshEndpoint, record.endpoint));
    }

    method SaveToken(d: TokenData)
      modifies this
      ensures Lookup(d.participantContext, d.identifier) == Some(d)
      ensures forall pc', id' :: (pc', id') != (d.participantContext, d.identifier) ==> Lookup(pc', id') == old(Lookup(pc', id'))
    {
      var record := VaultTokenRecord(d.participantId, d.counterPartyId, d.token, d.refreshToken, d.expiresAt,
                                     d.refreshEndpoint, d.endpoint);
      secrets := secrets[(d.participantContext, Key(d.identifier)) := record];
      forall i | i != d.identifier ensures Key(i) != Key(d.identifier) { KeyInjective(i, d.identifier); }
    }

    /** Reads the record, keeps what a refresh does not change, and writes it back. */
    method UpdateToken(pc: string, identifier: string, d: RefreshedTokenData) returns (r: Result<(), TokenError>)
      modifies this
      ensures match old(Lookup(pc, identifier))
              case Some(was) => r == Ok(()) && Lookup(pc, identifier) == Some(Refreshed(was, d))
              case None => r == Err(TokenNotFound(identifier)) && Lookup(pc, identifier) == None
      ensures r.Ok? ==> Keeps(old(Lookup(pc, identifier)), Lookup(pc, identifier)) && Takes(Lookup(pc, identifier), d)
      ensures forall pc', id' :: (pc', id') != (pc, identifier) ==> Lookup(pc', id') == old(Lookup(pc', id'))
    {
      var key := (pc, Key(identifier));
      if key !in secrets {
        return Err(TokenNotFound(identifier));
      }
      var current := secrets[key];
      secrets := secrets[key := VaultTokenRecord(current.participantId, current.counterPartyId, d.token, d.refreshToken,
                                                 d.expiresAt, d.refreshEndpoint, current.endpoint)];
      forall i | i != identifier ensures Key(i) != Key(identifier) { KeyInjective(i, identifier); }
      r := Ok(());
    }
  }

  class TokenClientApi {
    const locks: MemoryLockManager
    const store: MemoryTokenStore
    const refreshBeforeExpiry: int

    constructor (locks: MemoryLockManager, store: MemoryTokenStore, refreshBeforeExpiry: int)
      ensures this.locks == locks && this.store == store && this.refreshBeforeExpiry == refreshBeforeExpiry
    {
      this.locks, this.store, this.refreshBeforeExpiry := locks, store, refreshBeforeExpiry;
    }

    /** `get_token` undisturbed. `clock(k)` is the k-th reading of the clock; `refresh` is what the
        authorization server answers. The guard is released on every path that acquired it. */
    method GetToken(pc: ParticipantContext, identifier: string, owner: string, clock: nat -> int,
                    refresh: RefreshRequest -> Result<RefreshedTokenData, TokenError>)
      returns (r: Result<TokenResult, TokenError>)
      requires locks.Valid() && store.Valid() && locks.timeout >= 0
      modifies locks, store
      ensures locks.Valid() && store.Valid()
      ensures forall pc', id' :: (pc', id') != (pc.id, identifier) ==> store.Lookup(pc', id') == old(store.Lookup(pc', id'))
      ensures match old(store.Lookup(pc.id, identifier))
              case None =>
                && r == Err(TokenNotFound(identifier))
                && store.Lookup(pc.id, identifier) == None && locks.locks == old(locks.locks)
              case Some(d) =>
                if clock(0) < d.expiresAt - refreshBeforeExpiry then
                  && r == Ok(TokenResult(d.token, d.endpoint))
                  && store.Lookup(pc.id, identifier) == Some(d) && locks.locks == old(locks.locks)
                else match Acquired(old(locks.locks), identifier, owner, clock(1), locks.timeout)
                  case Err(_) =>
                    r.Err? && r.error.GeneralError? && store.Lookup(pc.id, identifier) == Some(d) && locks.locks == old(locks.locks)
                  case Ok(held) =>
                    && Released(held, identifier, owner) == Ok(locks.locks)
                    && if clock(2) < d.expiresAt - refreshBeforeExpiry then
                         r == Ok(TokenResult(d.token, d.endpoint)) && store.Lookup(pc.id, identifier) == Some(d)
                       else match refresh(RefreshRequest(ParticipantContext(pc.id, d.participantId, "anonymous"), d.counterPartyId,
                                                         d.token, d.refreshToken, d.refreshEndpoint))
                         case Err(e) => r == Err(e) && store.Lookup(pc.id, identifier) == Some(d)
                         case Ok(n) => && r == Ok(TokenResult(n.token, d.endpoint))
                                       && store.Lookup(pc.id, identifier) == Some(Refreshed(d, n))
    {
      var first := store.GetToken(pc.id, identifier, clock(0));
      if first.Err? {
        return Err(first.error);
      }
      var endpoint := first.value.endpoint;
      if !Expiring(clock(0), first.value.expiresAt, refreshBeforeExpiry) {
        return Ok(TokenResult(first.value.token, endpoint));
      }
      var guard := locks.Lock(identifier, owner, clock(1));
      if guard.Err? {
        return Err(GeneralError("Failed to acquire lock"));
      }
      var token := RefreshLocked(pc, identifier, clock(2), refresh);
      var _ := locks.Unlock(identifier, owner);
      r := match token case Ok(t) => Ok(TokenResult(t, endpoint)) case Err(e) => Err(e);
    }

    /** `save_token` stores under the lock: refused, and nothing stored, while another owner is refreshing. */
    method SaveToken(data: TokenData, owner: string, now: int) returns (r: Result<(), TokenError>)
      requires locks.Valid() && store.Valid() && locks.timeout >= 0
      modifies locks, store
      ensures locks.Valid() && store.Valid()
      ensures forall pc', id' :: (pc', id') != (data.participantContext, data.identifier) ==>
                store.Lookup(pc', id') == old(store.Lookup(pc', id'))
      ensures var was := old(store.Lookup(data.participantContext, data.identifier));
              match Acquired(old(locks.locks), data.identifier, owner, now, locks.timeout)
              case Err(_) => && r.Err? && r.error.GeneralError? && locks.locks == old(locks.locks)
                             && store.Lookup(data.participantContext, data.identifier) == was
              case Ok(held) => && r == Ok(()) && Released(held, data.identifier, owner) == Ok(locks.locks)
                               && store.Lookup(data.participantContext, data.identifier) == Some(data)
    {
      var guard := locks.Lock(data.identifier, owner, now);
      if guard.Err? {
        return Err(GeneralError("Failed to acquire lock"));
      }
      store.SaveToken(data, now);
      var _ := locks.Unlock(data.identifier, owner);
      r := Ok(());
    }

    /** `delete_token` likewise; deleting what is not there is an error. */
    method DeleteToken(pc: string, identifier: string, owner: string, now: int) returns (r: Result<(), TokenError>)
      requires locks.Valid() && store.Valid() && locks.timeout >= 0
      modifies locks, store
      ensures locks.Valid() && store.Valid()
      ensures forall pc', id' :: (pc', id') != (pc, identifier) ==> store.Lookup(pc', id') == old(store.Lookup(pc', id'))
      ensures var was := old(store.Lookup(pc, identifier));
              match Acquired(old(locks.locks), identifier, owner, now, locks.timeout)
              case Err(_) => && r.Err? && r.error.GeneralError? && locks.locks == old(locks.locks)
                             && store.Lookup(pc, identifier) == was
              case Ok(held) => && r == (if was.Some? then Ok(()) else Err(TokenNotFound(identifier)))
                               && Released(held, identifier, owner) == Ok(locks.locks)
                               && store.Lookup(pc, identifier) == None
    {
      var guard := locks.Lock(identifier, owner, now);
      if guard.Err? {
        return Err(GeneralError("Failed to acquire lock"));
      }
      r := store.RemoveToken(pc, identifier);
      var _ := locks.Unlock(identifier, owner);
    }

    /** The part of `get_token` that runs under the lock. */
    method RefreshLocked(pc: ParticipantContext, identifier: string, now: int,
                         refresh: RefreshRequest -> Result<RefreshedTokenData, TokenError>)
      returns (r: Result<string, TokenError>)
      requires store.Valid()
      modifies store
      ensures store.Valid()
      ensures forall pc', id' :: (pc', id') != (pc.id, identifier) ==> store.Lookup(pc', id') == old(store.Lookup(pc', id'))
      ensures match old(store.Lookup(pc.id, identifier))
              case None => r == Err(TokenNotFound(identifier)) && store.Lookup(pc.id, identifier) == None
              case Some(d) =>
                if now < d.expiresAt - refreshBeforeExpiry then
                  r == Ok(d.token) && store.Lookup(pc.id, identifier) == Some(d)
                else match refresh(RefreshRequest(ParticipantContext(pc.id, d.participantId, "anonymous"), d.counterPartyId,
                                                  d.token, d.refreshToken, d.refreshEndpoint))
                  case Err(e) => r == Err(e) && store.Lookup(pc.id, identifier) == Some(d)
                  case Ok(n) => r == Ok(n.token) && store.Lookup(pc.id, identifier) == Some(Refreshed(d, n))
    {
      var data := store.GetToken(pc.id, identifier, now);
      if data.Err? {
        return Err(data.error);
      }
      if !Expiring(now, data.value.expiresAt, refreshBeforeExpiry) {
        return Ok(data.value.token);
      }
      var refreshed := refresh(RequestFor(pc, data.value));
      if refreshed.Err? {
        return Err(refreshed.error);
      }
      var updated := store.UpdateToken(pc.id, identifier, refreshed.value, now);
      r := match updated case Ok(_) => Ok(refreshed.value.token) case Err(e) => Err(e);
    }
  }
}
