/**
 The signaling handler: what a provider hands out when a flow starts or is prepared, what the consumer
 reads from it and stores, and what ending a flow removes. Times of tokens are whole seconds; `DataFlow`
 and `DataAddress` are the data plane SDK's, of which only what is used here is modelled.
 */
module Signaling {
  import opened Wrappers
  import opened Json
  import opened TokenTypes
  import opened RenewableTokenStore
  import opened TokenManager
  import opened ClaimMapping
  import Decimal
  import TokenClient

  datatype Property = Property(name: string, value: string)

  datatype DataAddress = DataAddress(endpointType: string, endpoint: string, properties: seq<Property>)

  datatype DataFlow = DataFlow(
    id: string,
    profile: string,
    agreementId: string,
    datasetId: string,
    participantId: string,
    counterPartyId: string,
    participantContextId: string,
    metadata: map<string, Value>,
    dataAddress: Option<DataAddress>)

  datatype TokenSource = Provider | Client

  datatype EndpointMapping = EndpointMapping(key: string, value: string, endpoint: string, claimMappings: seq<Mapping>)

  datatype TransferType = TransferType(
    transferType: string,
    endpointType: string,
    tokenSource: TokenSource,
    endpoint: Option<string>,
    endpointMappings: seq<EndpointMapping>,
    txRenewalSupport: bool,
    claimMappings: seq<Mapping>)

  /** The names under which a data address carries a token; one style also names the refresh audience. */
  datatype Names = Names(authorization: string, authType: string, refreshToken: string, expiresIn: string,
                         refreshEndpoint: string, refreshAudience: Option<string>)

  /** The five names under which a token is read differ from each other. */
  predicate NamesDiffer(s: Names) {
    && s.authorization != s.authType && s.authorization != s.refreshToken && s.authorization != s.expiresIn
    && s.authorization != s.refreshEndpoint && s.authType != s.refreshToken && s.authType != s.expiresIn
    && s.authType != s.refreshEndpoint && s.refreshToken != s.expiresIn && s.refreshToken != s.refreshEndpoint
    && s.expiresIn != s.refreshEndpoint
  }

  type Style = s: Names | NamesDiffer(s) witness Names("a", "t", "r", "x", "e", None)

  const PLAIN: Style :=
    var s := Names("authorization", "authType", "refreshToken", "expiresIn", "refreshEndpoint", None);
    assert |s.authorization| == 13 && |s.authType| == 8 && |s.refreshToken| == 12;
    assert |s.expiresIn| == 9 && |s.refreshEndpoint| == 15;
    s

  /** The namespace of the token renewal protocol's names. */
  const TX_AUTH: string := "https://w3id.org/tractusx/auth/"

  const TX_RENEWAL: Style :=
    var s := Names(
      "https://w3id.org/edc/v0.0.1/ns/authorization",
      TX_AUTH + "authType",
      TX_AUTH + "refreshToken",
      TX_AUTH + "expiresIn",
      TX_AUTH + "refreshEndpoint",
      Some(TX_AUTH + "refreshAudience"));
    assert |s.authorization| == 44 && |s.authType| == 39 && |s.refreshToken| == 43;
    assert |s.expiresIn| == 40 && |s.refreshEndpoint| == 46;
    s

  /** The style of a transfer type with or without support for the renewal protocol. */
  function StyleOf(txRenewalSupport: bool): Style { if txRenewalSupport then TX_RENEWAL else PLAIN }

  /** How values that are not string literals are read, how values are written, and which names data
      addresses use; the handler's are `StyleOf`. */
  datatype Codec = Codec(other: string -> Option<Value>, write: Value -> string, styles: bool -> Style)

  // ---------------------------------------------------------------- endpoint resolution

  function ClaimString(c: Codec, v: Value): string {
    match Unwrap(v, c.other)
    case Null => ""
    case Bool(b) => if b then "true" else "false"
    case Number(text) => text
    case String(s) => s
    case w => c.write(w)
  }

  predicate Matches(c: Codec, flow: DataFlow, m: EndpointMapping) {
    m.key in flow.metadata && ClaimString(c, flow.metadata[m.key]) == m.value
  }

  /** The position of the first mapping that matches, or the number of mappings. */
  function FirstMatch(c: Codec, flow: DataFlow, ms: seq<EndpointMapping>): (i: nat)
    ensures i <= |ms| && (i < |ms| ==> Matches(c, flow, ms[i]))
    ensures forall j :: 0 <= j < i ==> !Matches(c, flow, ms[j])
  {
    if ms == [] then 0 else if Matches(c, flow, ms[0]) then 0 else 1 + FirstMatch(c, flow, ms[1..])
  }

  /** Why a flow is refused. */
  datatype Refusal =
    | MappingsUnavailable(message: string)
    | UnsupportedProfile(profile: string)
    | NoEndpoint(transferType: string)
    | NoEndpointMapping(flowId: string, profile: string)
    | ClaimsNotMapped(cause: MapError)
    | NoTokenPair
    | BadDataAddress(message: string)
    | NotRevoked(error: TokenError)
    | NotRemoved(error: TokenError)

  /** Without endpoint mappings the transfer type's own endpoint, else that of the first mapping that
      matches. */
  function ResolveEndpoint(c: Codec, t: TransferType, flow: DataFlow): Result<(string, Option<EndpointMapping>), Refusal> {
    if t.endpointMappings == [] then
      if t.endpoint.Some? then Ok((t.endpoint.value, None)) else Err(NoEndpoint(t.transferType))
    else
      var i := FirstMatch(c, flow, t.endpointMappings);
      if i < |t.endpointMappings| then Ok((t.endpointMappings[i].endpoint, Some(t.endpointMappings[i])))
      else Err(NoEndpointMapping(flow.id, flow.profile))
  }

  /** `w` is `v`, or a control plane has JSON-encoded it any number of times. */
  ghost predicate Encodes(c: Codec, v: Value, w: Value) {
    || v == w
    || (v.String? && exists n: nat :: w == String(QuoteTimes(v.s, n)))
    || (!v.String? && exists text: string, n: nat :: Parse(text, c.other) == Some(v) && w == String(QuoteTimes(text, n)))
  }

  lemma EncodedMatchesAlike(c: Codec, v: Value, w: Value)
    requires Encodes(c, v, w)
    ensures ClaimString(c, w) == ClaimString(c, v)
  {
    if v != w {
      if v.String? {
        var n: nat :| w == String(QuoteTimes(v.s, n));
        UnwrapQuotes(v.s, n, c.other);
      } else {
        var text: string, n: nat :| Parse(text, c.other) == Some(v) && w == String(QuoteTimes(text, n));
        UnwrapQuotedValue(v, text, n, c.other);
      }
    }
  }

  /** What a value is compared as, however often it has been encoded: a string that is no JSON is itself,
      null is empty, booleans and numbers are their JSON texts, anything else is written as JSON. */
  lemma ComparedAs(c: Codec, v: Value, w: Value)
    requires Encodes(c, v, w) && (v.String? ==> Parse(v.s, c.other) == None)
    ensures v == Null ==> ClaimString(c, w) == ""
    ensures v == Bool(true) ==> ClaimString(c, w) == "true"
    ensures v == Bool(false) ==> ClaimString(c, w) == "false"
    ensures v.Number? ==> ClaimString(c, w) == v.text
    ensures v.String? ==> ClaimString(c, w) == v.s
    ensures v.Array? || v.Object? ==> ClaimString(c, w) == c.write(v)
  {
    EncodedMatchesAlike(c, v, w);
  }

  /** However often metadata values have been JSON-encoded on their way, the endpoint is the same. */
  lemma EncodedFlowResolvesAlike(c: Codec, t: TransferType, flow: DataFlow, metadata: map<string, Value>)
    requires metadata.Keys == flow.metadata.Keys
    requires forall k :: k in metadata ==> Encodes(c, flow.metadata[k], metadata[k])
    ensures ResolveEndpoint(c, t, flow.(metadata := metadata)) == ResolveEndpoint(c, t, flow)
  {
    var flow', ms := flow.(metadata := metadata), t.endpointMappings;
    forall i | 0 <= i < |ms| ensures Matches(c, flow', ms[i]) == Matches(c, flow, ms[i]) {
      if ms[i].key in metadata {
        EncodedMatchesAlike(c, flow.metadata[ms[i].key], metadata[ms[i].key]);
      }
    }
    var i, j := FirstMatch(c, flow', ms), FirstMatch(c, flow, ms);
    assert !(i < j) && !(j < i);
  }

  /** What resolving answers: the transfer type's own endpoint exactly when it has no mappings, and otherwise
      the endpoint of the first mapping whose key the flow has with the mapping's value. */
  lemma EndpointIs(c: Codec, t: TransferType, flow: DataFlow, i: nat)
    ensures t.endpointMappings == [] ==>
              ResolveEndpoint(c, t, flow) ==
              if t.endpoint.Some? then Ok((t.endpoint.value, None)) else Err(NoEndpoint(t.transferType))
    ensures var ms := t.endpointMappings;
            && i < |ms| && ms[i].key in flow.metadata && ClaimString(c, flow.metadata[ms[i].key]) == ms[i].value
            && (forall j :: 0 <= j < i ==>
                  ms[j].key !in flow.metadata || ClaimString(c, flow.metadata[ms[j].key]) != ms[j].value)
            ==> ResolveEndpoint(c, t, flow) == Ok((ms[i].endpoint, Some(ms[i])))
    ensures var ms := t.endpointMappings;
            && ms != []
            && (forall j :: 0 <= j < |ms| ==>
                  ms[j].key !in flow.metadata || ClaimString(c, flow.metadata[ms[j].key]) != ms[j].value)
            ==> ResolveEndpoint(c, t, flow) == Err(NoEndpointMapping(flow.id, flow.profile))
  {
  }

  /** A context's stored mappings are authoritative unless there are none. `stored` is what the repository
      answered, None for a context without a row. */
  function ResolveTransferType(stored: Result<Option<map<string, TransferType>>, string>, fallback: map<string, TransferType>,
                               flow: DataFlow): Result<TransferType, Refusal>
  {
    match stored
    case Err(e) => Err(MappingsUnavailable(e))
    case Ok(m) =>
      var types := if m.Some? && m.value != map[] then m.value else fallback;
      if flow.profile in types then Ok(types[flow.profile]) else Err(UnsupportedProfile(flow.profile))
  }

  /** Exactly which transfer type a flow gets: the stored one of its profile, and the configured one only when
      the context has nothing stored. */
  lemma TransferTypeIs(stored: Result<Option<map<string, TransferType>>, string>, fallback: map<string, TransferType>,
                       flow: DataFlow, t: TransferType)
    ensures ResolveTransferType(stored, fallback, flow) == Ok(t) <==>
            && stored.Ok?
            && if stored.value.Some? && stored.value.value != map[]
               then flow.profile in stored.value.value && stored.value.value[flow.profile] == t
               else flow.profile in fallback && fallback[flow.profile] == t
    ensures var r := ResolveTransferType(stored, fallback, flow);
            r.Err? ==> r == Err(if stored.Err? then MappingsUnavailable(stored.error) else UnsupportedProfile(flow.profile))
  {
  }

  // ---------------------------------------------------------------- the wire form

  function StyledProperties(s: Style, pair: TokenPair, expiresIn: string): seq<Property> {
    [ Property(s.authorization, pair.token),
      Property(s.authType, "bearer"),
      Property(s.refreshToken, pair.refreshToken),
      Property(s.expiresIn, expiresIn),
      Property(s.refreshEndpoint, pair.refreshEndpoint) ]
  }

  function RefreshAudience(s: Style, audience: string): seq<Property> {
    if s.refreshAudience.Some? then [Property(s.refreshAudience.value, audience)] else []
  }

  /** `create_auth_properties` and `create_tx_renewal_properties`: the expiry is written relative to the
      writer's clock. */
  function WriteProperties(s: Style, audience: string, pair: TokenPair, now: int): seq<Property> {
    StyledProperties(s, pair, Decimal.PrintInt(pair.expiresAt - now)) + RefreshAudience(s, audience)
  }

  /** The first property of that name. */
  function GetProperty(ps: seq<Property>, name: string): Option<string> {
    if ps == [] then None else if ps[0].name == name then Some(ps[0].value) else GetProperty(ps[1..], name)
  }

  datatype RenewalProperties = RenewalProperties(token: string, refreshEndpoint: string, refreshToken: string, expiresAt: int)

  /** `read_renewal_properties` and `read_tx_renewal_properties`. */
  function ReadProperties(s: Style, ps: seq<Property>, now: int, validTimestamp: int -> bool): Result<RenewalProperties, Refusal> {
    var token := GetProperty(ps, s.authorization);
    var refreshToken := GetProperty(ps, s.refreshToken);
    var refreshEndpoint := GetProperty(ps, s.refreshEndpoint);
    var expiresIn := GetProperty(ps, s.expiresIn);
    if token.None? then Err(BadDataAddress("Data address must contain an authorization property"))
    else if refreshToken.None? then Err(BadDataAddress("Data address must contain a refreshToken property"))
    else if refreshEndpoint.None? then Err(BadDataAddress("Data address must contain a refreshEndpoint property"))
    else if expiresIn.None? then Err(BadDataAddress("Data address must contain an expiresIn property"))
    else
      var seconds := Decimal.ParseI64(expiresIn.value);
      if seconds.None? then Err(BadDataAddress("Invalid expiresIn format"))
      else if !validTimestamp(now + seconds.value) then Err(BadDataAddress("Invalid expiration timestamp"))
      else Ok(RenewalProperties(token.value, refreshEndpoint.value, refreshToken.value, now + seconds.value))
  }

  /** A property of a name that does not occur before it is the one that is found. */
  lemma {:induction false} FirstProperty(ps: seq<Property>, i: nat)
    requires i < |ps| && forall j :: 0 <= j < i ==> ps[j].name != ps[i].name
    ensures GetProperty(ps, ps[i].name) == Some(ps[i].value)
  {
    if i > 0 {
      assert ps[0].name != ps[i].name;
      forall j | 0 <= j < i - 1 ensures ps[1..][j].name != ps[1..][i - 1].name {
        assert ps[j + 1].name != ps[i].name;
      }
      FirstProperty(ps[1..], i - 1);
    }
  }

  lemma {:induction false} NoProperty(ps: seq<Property>, name: string)
    ensures GetProperty(ps, name).None? <==> forall i :: 0 <= i < |ps| ==> ps[i].name != name
  {
    if ps != [] {
      NoProperty(ps[1..], name);
      assert forall i :: 0 < i < |ps| ==> ps[i] == ps[1..][i - 1];
    }
  }

  /** Exactly when a data address can be read: it has the four properties, and its relative expiry is a number
      that makes a timestamp. */
  lemma ReadableIff(s: Style, ps: seq<Property>, now: int, valid: int -> bool)
    ensures var expiresIn := GetProperty(ps, s.expiresIn);
            ReadProperties(s, ps, now, valid).Ok? <==>
            && GetProperty(ps, s.authorization).Some? && GetProperty(ps, s.refreshToken).Some?
            && GetProperty(ps, s.refreshEndpoint).Some? && expiresIn.Some?
            && exists seconds :: Decimal.ParseI64(expiresIn.value) == Some(seconds) && valid(now + seconds)
    ensures ReadProperties(s, ps, now, valid).Err? ==> ReadProperties(s, ps, now, valid).error.BadDataAddress?
  {
  }

  lemma StyledPropertiesFound(s: Style, pair: TokenPair, expiresIn: string, more: seq<Property>)
    ensures var ps := StyledProperties(s, pair, expiresIn) + more;
            && GetProperty(ps, s.authorization) == Some(pair.token)
            && GetProperty(ps, s.refreshToken) == Some(pair.refreshToken)
            && GetProperty(ps, s.refreshEndpoint) == Some(pair.refreshEndpoint)
            && GetProperty(ps, s.expiresIn) == Some(expiresIn)
  {
    var ps := StyledProperties(s, pair, expiresIn) + more;
    FirstProperty(ps, 0);
    FirstProperty(ps, 2);
    FirstProperty(ps, 3);
    FirstProperty(ps, 4);
  }

  /** A data address says that the token is a bearer token, in how many seconds it expires, and in the style
      that names it for whom it is refreshed. */
  lemma WrittenProperties(s: Style, audience: string, pair: TokenPair, now: int)
    ensures var ps := WriteProperties(s, audience, pair, now);
            && GetProperty(ps, s.authorization) == Some(pair.token)
            && GetProperty(ps, s.authType) == Some("bearer")
            && GetProperty(ps, s.refreshToken) == Some(pair.refreshToken)
            && GetProperty(ps, s.refreshEndpoint) == Some(pair.refreshEndpoint)
            && GetProperty(ps, s.expiresIn) == Some(Decimal.PrintInt(pair.expiresAt - now))
            && (s.refreshAudience.Some? ==> Property(s.refreshAudience.value, audience) in ps)
            && |ps| == if s.refreshAudience.Some? then 6 else 5
  {
    var expiresIn, more := Decimal.PrintInt(pair.expiresAt - now), RefreshAudience(s, audience);
    StyledPropertiesFound(s, pair, expiresIn, more);
    FirstProperty(StyledProperties(s, pair, expiresIn) + more, 1);
    assert s.refreshAudience.Some? ==> more[0] in StyledProperties(s, pair, expiresIn) + more;
  }

  lemma ReadsFound(s: Style, ps: seq<Property>, pair: TokenPair, expiresIn: string, seconds: int, now: int, valid: int -> bool)
    requires GetProperty(ps, s.authorization) == Some(pair.token) && GetProperty(ps, s.refreshToken) == Some(pair.refreshToken)
    requires GetProperty(ps, s.refreshEndpoint) == Some(pair.refreshEndpoint) && GetProperty(ps, s.expiresIn) == Some(expiresIn)
    requires Decimal.ParseI64(expiresIn) == Some(seconds)
    ensures ReadProperties(s, ps, now, valid) ==
            if valid(now + seconds) then Ok(RenewalProperties(pair.token, pair.refreshEndpoint, pair.refreshToken, now + seconds))
            else Err(BadDataAddress("Invalid expiration timestamp"))
  {
  }

  lemma ReadsStyled(s: Style, pair: TokenPair, seconds: int, more: seq<Property>, now: int, valid: int -> bool)
    requires Decimal.I64_MIN <= seconds <= Decimal.I64_MAX
    ensures ReadProperties(s, StyledProperties(s, pair, Decimal.PrintInt(seconds)) + more, now, valid) ==
            if valid(now + seconds) then Ok(RenewalProperties(pair.token, pair.refreshEndpoint, pair.refreshToken, now + seconds))
            else Err(BadDataAddress("Invalid expiration timestamp"))
  {
    StyledPropertiesFound(s, pair, Decimal.PrintInt(seconds), more);
    Decimal.ParsePrintI64(seconds);
    ReadsFound(s, StyledProperties(s, pair, Decimal.PrintInt(seconds)) + more, pair, Decimal.PrintInt(seconds), seconds, now, valid);
  }

  /** What the reader of the same style gets back from what the writer wrote: everything, with the expiry
      moved by the difference of the two clocks, unless that is no timestamp any more. */
  lemma ReadsWhatWasWritten(s: Style, audience: string, pair: TokenPair, writerNow: int, readerNow: int, valid: int -> bool)
    requires Decimal.I64_MIN <= pair.expiresAt - writerNow <= Decimal.I64_MAX
    ensures var shifted := pair.expiresAt + (readerNow - writerNow);
            ReadProperties(s, WriteProperties(s, audience, pair, writerNow), readerNow, valid) ==
            if valid(shifted) then Ok(RenewalProperties(pair.token, pair.refreshEndpoint, pair.refreshToken, shifted))
            else Err(BadDataAddress("Invalid expiration timestamp"))
  {
    var seconds := pair.expiresAt - writerNow;
    ReadsStyled(s, pair, seconds, RefreshAudience(s, audience), readerNow, valid);
    assert pair.expiresAt + (readerNow - writerNow) == readerNow + seconds;
  }

  // ---------------------------------------------------------------- issuing

  function ContextOf(flow: DataFlow): ParticipantContext {
    ParticipantContext(flow.participantContextId, flow.participantId, flow.participantId)
  }

  function FlowClaims(source: TokenSource, flow: DataFlow): Claims {
    if source == Client then map[] else
    map["agreementId" := String(flow.agreementId), "participantId" := String(flow.participantId),
        "counterPartyId" := String(flow.counterPartyId), "datasetId" := String(flow.datasetId)]
  }

  /** The flow's own claims: four of it when the provider issues the token, none for a client's. */
  lemma FlowClaimsAre(source: TokenSource, flow: DataFlow, name: string)
    ensures name in FlowClaims(source, flow) <==>
            source == Provider && name in {"agreementId", "participantId", "counterPartyId", "datasetId"}
    ensures source == Provider ==>
              var claims := FlowClaims(source, flow);
              && claims["agreementId"] == String(flow.agreementId) && claims["participantId"] == String(flow.participantId)
              && claims["counterPartyId"] == String(flow.counterPartyId) && claims["datasetId"] == String(flow.datasetId)
  {
    assert "agreementId"[0] == 'a' && "participantId"[0] == 'p' && "counterPartyId"[0] == 'c' && "datasetId"[0] == 'd';
  }

  /** The claim mappings of a flow: the matched endpoint's laid over the transfer type's. */
  function MappingsFor(t: TransferType, matched: Option<EndpointMapping>): seq<Mapping> {
    Merged(t.claimMappings, if matched.Some? then matched.value.claimMappings else [])
  }

  /** What issuing for a flow comes to: the answer's data address and the entry that is saved. */
  datatype Handover = Handover(address: DataAddress, entry: Entry)

  /** The readings and random values that go into one token pair. */
  datatype Draw = Draw(now: int, writtenAt: int, jti: string, refreshToken: string)

  function Issue<P(!new), V(!new)>(c: Config, codec: Codec, e: Engine<P, V>, t: TransferType, flow: DataFlow, d: Draw)
    : Result<Handover, Refusal>
  {
    match ResolveEndpoint(codec, t, flow)
    case Err(refusal) => Err(refusal)
    case Ok((endpoint, matched)) =>
      match ClaimMapping.Claims(e, MappingsFor(t, matched))
      case Err(error) => Err(ClaimsNotMapped(error))
      case Ok(mapped) =>
        var claims := FlowClaims(t.tokenSource, flow) + mapped;
        if !AllowedClaims(claims) then Err(NoTokenPair) else
        match NewEntry(c, ContextOf(flow), flow.counterPartyId, claims, flow.id, d.now, d.jti, d.refreshToken)
        case Err(_) => Err(NoTokenPair)
        case Ok(entry) =>
          var pair := TokenPair(entry.token, d.refreshToken, entry.expiresAt, c.refreshEndpoint);
          Ok(Handover(
               DataAddress(t.endpointType, endpoint,
                           WriteProperties(codec.styles(t.txRenewalSupport), flow.participantId, pair, d.writtenAt)),
               entry))
  }

  /** The consumer's token data for a flow that has started, if its data address can be read. */
  function StartedData(s: Style, flow: DataFlow, address: DataAddress, now: int, validTimestamp: int -> bool)
    : Result<TokenClient.TokenData, Refusal>
  {
    match ReadProperties(s, address.properties, now, validTimestamp)
    case Err(refusal) => Err(refusal)
    case Ok(p) =>
      Ok(TokenClient.TokenData(flow.id, flow.participantContextId, flow.participantId, flow.counterPartyId,
                               p.token, p.refreshToken, 1000 * p.expiresAt, p.refreshEndpoint, address.endpoint))
  }

  class SigletDataFlowHandler<P(!new), V(!new)> {
    const manager: JwtTokenManager
    const tokenStore: TokenClient.MemoryTokenStore
    const mapper: CelClaimMapper<P, V>
    const project: DataFlow -> Engine<P, V>
    const codec: Codec
    const transferTypes: map<string, TransferType>

    ghost predicate Valid()
      reads mapper, tokenStore
    {
      mapper.Valid() && tokenStore.Valid() && forall flow :: project(flow).compile == mapper.compile
    }

    constructor (manager: JwtTokenManager, tokenStore: TokenClient.MemoryTokenStore, mapper: CelClaimMapper<P, V>,
                 project: DataFlow -> Engine<P, V>, codec: Codec, transferTypes: map<string, TransferType>)
      requires mapper.Valid() && tokenStore.Valid() && forall flow :: project(flow).compile == mapper.compile
      ensures Valid()
      ensures this.manager == manager && this.tokenStore == tokenStore && this.mapper == mapper
      ensures this.project == project && this.codec == codec && this.transferTypes == transferTypes
    {
      this.manager, this.tokenStore, this.mapper := manager, tokenStore, mapper;
      this.project, this.codec, this.transferTypes := project, codec, transferTypes;
    }

    method GenerateToken(t: TransferType, matched: Option<EndpointMapping>, flow: DataFlow, required: TokenSource, d: Draw)
      returns (r: Result<TokenPair, Refusal>)
      requires Valid()
      modifies manager.store, mapper
      ensures Valid()
      ensures var s, mapped := old(manager.store.Contents()), ClaimMapping.Claims(project(flow), MappingsFor(t, matched));
              if mapped.Err? then r == Err(ClaimsNotMapped(mapped.error)) && manager.store.Contents() == s
              else
                var claims := FlowClaims(required, flow) + mapped.value;
                var e := NewEntry(manager.config, ContextOf(flow), flow.counterPartyId, claims, flow.id, d.now, d.jti, d.refreshToken);
                if AllowedClaims(claims) && e.Ok? then
                  && r == Ok(TokenPair(e.value.token, d.refreshToken, e.value.expiresAt, manager.config.refreshEndpoint))
                  && manager.store.Contents() == Saved(s, e.value)
                else r == Err(NoTokenPair) && manager.store.Contents() == s
    {
      var claims: Claims := map[];
      if required == Provider {
        claims := claims["agreementId" := String(flow.agreementId)];
        claims := claims["participantId" := String(flow.participantId)];
        claims := claims["counterPartyId" := String(flow.counterPartyId)];
        claims := claims["datasetId" := String(flow.datasetId)];
      }
      assert claims == FlowClaims(required, flow);
      var mappings := MergeClaimMappings(t.claimMappings, if matched.Some? then Some(matched.value.claimMappings) else None);
      if mappings != [] {
        var mapped := mapper.MapClaims(project(flow), mappings);
        if mapped.Err? {
          return Err(ClaimsNotMapped(mapped.error));
        }
        claims := claims + mapped.value;
      } else {
        assert claims + map[] == claims;
      }
      var pair := manager.GeneratePair(ContextOf(flow), flow.counterPartyId, claims, flow.id, d.now, d.jti, d.refreshToken);
      r := if pair.Ok? then Ok(pair.value) else Err(NoTokenPair);
    }

    /** `on_start` requires the provider to be the token's source, `on_prepare` the client. */
    method HandleFlow(flow: DataFlow, required: TokenSource, stored: Result<Option<map<string, TransferType>>, string>, d: Draw)
      returns (r: Result<Option<DataAddress>, Refusal>)
      requires Valid()
      modifies manager.store, mapper
      ensures Valid()
      ensures var s, t := old(manager.store.Contents()), ResolveTransferType(stored, transferTypes, flow);
              if t.Err? then r == Err(t.error) && manager.store.Contents() == s
              else if t.value.tokenSource != required then r == Ok(None) && manager.store.Contents() == s
              else match Issue(manager.config, codec, project(flow), t.value, flow, d)
                   case Err(refusal) => r == Err(refusal) && manager.store.Contents() == s
                   case Ok(h) => r == Ok(Some(h.address)) && manager.store.Contents() == Saved(s, h.entry)
    {
      var resolved := ResolveTransferType(stored, transferTypes, flow);
      if resolved.Err? {
        return Err(resolved.error);
      }
      var t := resolved.value;
      if t.tokenSource != required {
        return Ok(None);
      }
      var endpoint := ResolveEndpoint(codec, t, flow);
      if endpoint.Err? {
        return Err(endpoint.error);
      }
      var pair := GenerateToken(t, endpoint.value.1, flow, required, d);
      if pair.Err? {
        return Err(pair.error);
      }
      var properties := WriteProperties(codec.styles(t.txRenewalSupport), flow.participantId, pair.value, d.writtenAt);
      r := Ok(Some(DataAddress(t.endpointType, endpoint.value.0, properties)));
    }

    /** `on_started`: the token of the data address is stored under the flow's own id. */
    method OnStarted(flow: DataFlow, stored: Result<Option<map<string, TransferType>>, string>, now: int)
      returns (r: Result<(), Refusal>)
      requires Valid()
      modifies tokenStore
      ensures Valid()
      ensures var t := ResolveTransferType(stored, transferTypes, flow);
              var data := if flow.dataAddress.None? || t.Err? then None
                          else Some(StartedData(codec.styles(t.value.txRenewalSupport), flow, flow.dataAddress.value, now, manager.config.validTimestamp));
              && (r.Ok? <==> flow.dataAddress.None? || (data.Some? && data.value.Ok?))
              && (r.Err? && t.Err? ==> r == Err(t.error))
              && (r.Err? && t.Ok? ==> data.Some? && r == Err(data.value.error))
              && forall pc, id :: tokenStore.Lookup(pc, id) ==
                   if data.Some? && data.value.Ok? && (pc, id) == (flow.participantContextId, flow.id) then Some(data.value.value)
                   else old(tokenStore.Lookup(pc, id))
    {
      if flow.dataAddress.None? {
        return Ok(());
      }
      var resolved := ResolveTransferType(stored, transferTypes, flow);
      if resolved.Err? {
        return Err(resolved.error);
      }
      var data := StartedData(codec.styles(resolved.value.txRenewalSupport), flow, flow.dataAddress.value, now, manager.config.validTimestamp);
      if data.Err? {
        return Err(data.error);
      }
      tokenStore.SaveToken(data.value, now);
      r := Ok(());
    }

    /** `on_terminate` and `on_suspend`: revokes the flow's live entry, or failing that removes the stored
        token; it is an error when there is neither. */
    method CleanupTokens(flow: DataFlow) returns (r: Result<(), Refusal>)
      requires Valid()
      modifies manager.store, tokenStore
      ensures Valid()
      ensures var s := old(manager.store.Contents());
              var issued, held := flow.id in s.byFlow, old(tokenStore.Lookup(flow.participantContextId, flow.id)).Some?;
              && r == (if issued || held then Ok(()) else Err(NotRemoved(TokenNotFound(flow.id))))
              && (if issued then Removed(s, flow.id) == Ok(manager.store.Contents()) else manager.store.Contents() == s)
              && forall pc, id :: tokenStore.Lookup(pc, id) ==
                   if !issued && (pc, id) == (flow.participantContextId, flow.id) then None
                   else old(tokenStore.Lookup(pc, id))
    {
      var revoked := manager.RevokeToken(flow.id);
      if revoked.Ok? {
        return Ok(());
      }
      if !revoked.error.TokenNotFound? {
        return Err(NotRevoked(revoked.error));
      }
      var removed := tokenStore.RemoveToken(flow.participantContextId, flow.id);
      r := if removed.Ok? then Ok(()) else Err(NotRemoved(removed.error));
    }
  }
}
