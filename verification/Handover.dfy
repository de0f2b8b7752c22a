/**
 Handing a token over: what the provider's handler issues for a flow, its data address carries to the
 consumer's handler, and the two together make the step by which the rotation protocol starts a flow.
 */
module Handover {
  import opened Wrappers
  import opened TokenTypes
  import opened RenewableTokenStore
  import opened TokenManager
  import opened ClaimMapping
  import opened Signaling
  import opened Json
  import TokenClient
  import Decimal
  import P = ProviderProtocol
  import R = RotationProtocol

  /** The pair that was issued for a flow. */
  function PairOf(c: Config, e: Entry, d: Draw): TokenPair { TokenPair(e.token, d.refreshToken, e.expiresAt, c.refreshEndpoint) }

  /** What the consumer stores for its flow `held` when it can read the expiry: the token and refresh token
      of the very entry that was saved, and the resolved endpoint. */
  function HandedOver(c: Config, h: Signaling.Handover, d: Draw, held: DataFlow, readAt: int): TokenClient.TokenData {
    TokenClient.TokenData(held.id, held.participantContextId, held.participantId, held.counterPartyId, h.entry.token,
                          d.refreshToken, 1000 * (h.entry.expiresAt + (readAt - d.writtenAt)), c.refreshEndpoint, h.address.endpoint)
  }

  predicate EntryFor(c: Config, e: Entry, flow: DataFlow, d: Draw) {
    && e.id == d.jti && e.flowId == flow.id && e.hash == c.hash(d.refreshToken)
    && e.subject == flow.counterPartyId && e.audience == flow.participantId
    && e.participantContextId == flow.participantContextId
  }

  /** Exactly when the shifted expiry is still a timestamp the consumer stores what was handed over. */
  predicate Stores(c: Config, h: Signaling.Handover, d: Draw, s: Style, held: DataFlow, readAt: int, valid: int -> bool) {
    StartedData(s, held, h.address, readAt, valid) ==
    if valid(h.entry.expiresAt + (readAt - d.writtenAt)) then Ok(HandedOver(c, h, d, held, readAt))
    else Err(BadDataAddress("Invalid expiration timestamp"))
  }

  lemma IssuedShape<A(!new), V(!new)>(c: Config, codec: Codec, e: Engine<A, V>, t: TransferType, flow: DataFlow, d: Draw)
    requires Issue(c, codec, e, t, flow, d).Ok?
    ensures var h := Issue(c, codec, e, t, flow, d).value;
            && EntryFor(c, h.entry, flow, d)
            && h.address.endpointType == t.endpointType
            && ResolveEndpoint(codec, t, flow).Ok? && h.address.endpoint == ResolveEndpoint(codec, t, flow).value.0
            && h.address.properties ==
               WriteProperties(codec.styles(t.txRenewalSupport), flow.participantId, PairOf(c, h.entry, d), d.writtenAt)
  {
  }

  lemma StoredFrom(c: Config, h: Signaling.Handover, d: Draw, s: Style, held: DataFlow, audience: string,
                   readAt: int, valid: int -> bool)
    requires h.address.properties == WriteProperties(s, audience, PairOf(c, h.entry, d), d.writtenAt)
    requires Decimal.I64_MIN <= h.entry.expiresAt - d.writtenAt <= Decimal.I64_MAX
    ensures Stores(c, h, d, s, held, readAt, valid)
  {
    ReadsWhatWasWritten(s, audience, PairOf(c, h.entry, d), d.writtenAt, readAt, valid);
  }

  /** Exactly when the shifted expiry is still a timestamp the consumer stores the pair that was issued, of
      which the provider saved one entry under the id and the hash that were drawn. */
  lemma StoredIsIssued<A(!new), V(!new)>(c: Config, codec: Codec, e: Engine<A, V>, t: TransferType, flow: DataFlow, d: Draw,
                                         style: Style, held: DataFlow, readAt: int, valid: int -> bool)
    requires Issue(c, codec, e, t, flow, d).Ok? && style == codec.styles(t.txRenewalSupport)
    requires Decimal.I64_MIN <= Issue(c, codec, e, t, flow, d).value.entry.expiresAt - d.writtenAt <= Decimal.I64_MAX
    ensures var h := Issue(c, codec, e, t, flow, d).value;
            && EntryFor(c, h.entry, flow, d)
            && h.address.endpointType == t.endpointType
            && ResolveEndpoint(codec, t, flow).Ok? && h.address.endpoint == ResolveEndpoint(codec, t, flow).value.0
            && Stores(c, h, d, style, held, readAt, valid)
  {
    var h := Issue(c, codec, e, t, flow, d).value;
    IssuedShape(c, codec, e, t, flow, d);
    StoredFrom(c, h, d, style, held, flow.participantId, readAt, valid);
  }

  function GrantOf(flow: DataFlow, claims: Claims, d: Draw, data: TokenClient.TokenData): R.Action {
    R.Grant(ContextOf(flow), flow.counterPartyId, claims, d.now, d.jti, d.refreshToken, data)
  }

  /** When the consumer knows the flow by the same id, what the provider saved and what the consumer's
      handler reads and stores are the state after the rotation protocol's first step for the flow. */
  lemma HandoverIsGrant<A(!new), V(!new)>(p: R.Params, s: R.System, codec: Codec, e: Engine<A, V>, t: TransferType,
                                          flow: DataFlow, d: Draw, style: Style, held: DataFlow, readAt: int,
                                          valid: int -> bool)
    requires Issue(p.config, codec, e, t, flow, d).Ok? && style == codec.styles(t.txRenewalSupport) && held.id == flow.id
    requires Decimal.I64_MIN <= Issue(p.config, codec, e, t, flow, d).value.entry.expiresAt - d.writtenAt <= Decimal.I64_MAX
    requires var h := Issue(p.config, codec, e, t, flow, d).value;
             var data := StartedData(style, held, h.address, readAt, valid);
             data.Ok? && R.Enabled(p, s, GrantOf(flow, h.entry.claims, d, data.value))
    ensures var h := Issue(p.config, codec, e, t, flow, d).value;
            var data := StartedData(style, held, h.address, readAt, valid).value;
            var s' := R.Step(p, s, GrantOf(flow, h.entry.claims, d, data));
            s'.provider.store == Saved(s.provider.store, h.entry) && s'.tokens == s.tokens[flow.id := data]
  {
    StoredIsIssued(p.config, codec, e, t, flow, d, style, held, readAt, valid);
    var h := Issue(p.config, codec, e, t, flow, d).value;
    GrantStep(p, s, flow, h, d, StartedData(style, held, h.address, readAt, valid).value);
  }

  lemma GrantStep(p: R.Params, s: R.System, flow: DataFlow, h: Signaling.Handover, d: Draw, data: TokenClient.TokenData)
    requires R.Enabled(p, s, GrantOf(flow, h.entry.claims, d, data))
    requires data.identifier == flow.id && data.token == h.entry.token && data.refreshToken == d.refreshToken
    requires AllowedClaims(h.entry.claims)
    requires NewEntry(p.config, ContextOf(flow), flow.counterPartyId, h.entry.claims, flow.id, d.now, d.jti, d.refreshToken)
             == Ok(h.entry)
    ensures var s' := R.Step(p, s, GrantOf(flow, h.entry.claims, d, data));
            s'.provider.store == Saved(s.provider.store, h.entry) && s'.tokens == s.tokens[flow.id := data]
  {
  }

  /** The mapping that is to apply to a claim of a flow. */
  function MappingTo(t: TransferType, matched: Option<EndpointMapping>, claim: string): Option<Mapping> {
    Chosen(t.claimMappings, if matched.Some? then matched.value.claimMappings else [], claim)
  }

  /** The claims an issued token carries. */
  function ClaimsFor<A(!new), V(!new)>(e: Engine<A, V>, t: TransferType, matched: Option<EndpointMapping>, flow: DataFlow)
    : Result<Claims, MapError>
  {
    match ClaimMapping.Claims(e, MappingsFor(t, matched))
    case Err(error) => Err(error)
    case Ok(mapped) => Ok(FlowClaims(t.tokenSource, flow) + mapped)
  }

  /** What a refusal for want of a token pair, and a success, say of the claims. */
  lemma IssueUsesClaims<A(!new), V(!new)>(c: Config, codec: Codec, e: Engine<A, V>, t: TransferType, flow: DataFlow, d: Draw)
    ensures var r, endpoint := Issue(c, codec, e, t, flow, d), ResolveEndpoint(codec, t, flow);
            r.Ok? || r == Err(NoTokenPair) ==>
              && endpoint.Ok? && ClaimsFor(e, t, endpoint.value.1, flow).Ok?
              && var claims := ClaimsFor(e, t, endpoint.value.1, flow).value;
                 var entry := NewEntry(c, ContextOf(flow), flow.counterPartyId, claims, flow.id, d.now, d.jti, d.refreshToken);
                 && (r.Ok? ==> AllowedClaims(claims) && entry == Ok(r.value.entry) && r.value.entry.claims == claims)
                 && (r.Err? ==> !AllowedClaims(claims) || entry.Err?)
  {
  }

  /** Each claim is what the mapping chosen for it yields, else the flow's own; none is refused. */
  lemma ClaimsForAre<A(!new), V(!new)>(e: Engine<A, V>, t: TransferType, matched: Option<EndpointMapping>, flow: DataFlow,
                                       claim: string)
    requires ValidList(e, t.claimMappings) && (matched.Some? ==> ValidList(e, matched.value.claimMappings))
    requires ClaimsFor(e, t, matched, flow).Ok?
    ensures var claims := ClaimsFor(e, t, matched, flow).value;
            AllowedClaims(claims) && ClaimIs(e, MappingTo(t, matched, claim), FlowClaims(t.tokenSource, flow), claim, claims)
  {
    var own := if matched.Some? then matched.value.claimMappings else [];
    MergedClaimsAreAllowed(e, t.claimMappings, own, FlowClaims(t.tokenSource, flow), claim);
  }

  lemma MatchedIsValid<A(!new), V(!new)>(e: Engine<A, V>, codec: Codec, t: TransferType, flow: DataFlow)
    requires forall i :: 0 <= i < |t.endpointMappings| ==> ValidList(e, t.endpointMappings[i].claimMappings)
    requires ResolveEndpoint(codec, t, flow).Ok? && ResolveEndpoint(codec, t, flow).value.1.Some?
    ensures ValidList(e, ResolveEndpoint(codec, t, flow).value.1.value.claimMappings)
  {
  }

  /** With configured mappings that are valid, an issued token's claim is what the mapping chosen for it
      yields, and where none yields anything the flow's own; and issuing is never refused because of a
      claim. */
  lemma IssuedClaims<A(!new), V(!new)>(c: Config, codec: Codec, e: Engine<A, V>, t: TransferType, flow: DataFlow, d: Draw,
                                       claim: string)
    requires ValidList(e, t.claimMappings)
    requires forall i :: 0 <= i < |t.endpointMappings| ==> ValidList(e, t.endpointMappings[i].claimMappings)
    ensures var r, endpoint := Issue(c, codec, e, t, flow, d), ResolveEndpoint(codec, t, flow);
            r.Ok? || r == Err(NoTokenPair) ==>
              && endpoint.Ok? && ClaimsFor(e, t, endpoint.value.1, flow).Ok?
              && var claims := ClaimsFor(e, t, endpoint.value.1, flow).value;
                 && ClaimIs(e, MappingTo(t, endpoint.value.1, claim), FlowClaims(t.tokenSource, flow), claim, claims)
                 && (r.Ok? ==> r.value.entry.claims == claims)
                 && (r.Err? ==>
                       && AllowedClaims(claims)
                       && NewEntry(c, ContextOf(flow), flow.counterPartyId, claims, flow.id, d.now, d.jti, d.refreshToken).Err?)
  {
    var r, endpoint := Issue(c, codec, e, t, flow, d), ResolveEndpoint(codec, t, flow);
    IssueUsesClaims(c, codec, e, t, flow, d);
    if r.Ok? || r == Err(NoTokenPair) {
      if endpoint.value.1.Some? { MatchedIsValid(e, codec, t, flow); }
      ClaimsForAre(e, t, endpoint.value.1, flow, claim);
    }
  }

  predicate ClaimIs<A(!new), V(!new)>(e: Engine<A, V>, m: Option<Mapping>, flow: Claims, claim: string, claims: Claims) {
    if m.None? || (&& m.value.optional
                   && (|| e.compile(m.value.source).Err? || e.execute(e.compile(m.value.source).value).Err?
                       || e.isNull(e.execute(e.compile(m.value.source).value).value))) then
      (claim in claims <==> claim in flow) && (claim in flow ==> claims[claim] == flow[claim])
    else
      && e.compile(m.value.source).Ok? && e.execute(e.compile(m.value.source).value).Ok?
      && claim in claims && e.json(e.execute(e.compile(m.value.source).value).value) == Ok(claims[claim])
  }

  /** A token issued for a flow verifies, for anyone, as what the flow stands for: it is from this issuer, to
      the counterparty, for the participant, and carries besides its id each claim that the chosen mapping
      yields or that is the flow's own. */
  lemma IssuedTokenSays<A(!new), V(!new)>(c: Config, codec: Codec, e: Engine<A, V>, t: TransferType, flow: DataFlow, d: Draw,
                                          claim: string, aud: string)
    requires P.FaithfulVerifier(c) && ValidList(e, t.claimMappings) && claim != "jti"
    requires forall i :: 0 <= i < |t.endpointMappings| ==> ValidList(e, t.endpointMappings[i].claimMappings)
    requires Issue(c, codec, e, t, flow, d).Ok?
    requires c.providerVerify(aud, Issue(c, codec, e, t, flow, d).value.entry.token).Ok?
    ensures var v := c.providerVerify(aud, Issue(c, codec, e, t, flow, d).value.entry.token).value;
            && v.iss == c.issuer && v.sub == flow.counterPartyId && v.aud == flow.participantId
            && v.exp == d.now + c.tokenDuration && "jti" in v.custom && v.custom["jti"] == String(d.jti)
            && ResolveEndpoint(codec, t, flow).Ok?
            && var matched := ResolveEndpoint(codec, t, flow).value.1;
               ClaimIs(e, MappingTo(t, matched, claim), FlowClaims(t.tokenSource, flow), claim, v.custom)
  {
    var entry := Issue(c, codec, e, t, flow, d).value.entry;
    IssuedClaims(c, codec, e, t, flow, d, claim);
    IssuedShape(c, codec, e, t, flow, d);
    IssueSigns(c, codec, e, t, flow, d);
    VerifiedIs(c, entry, aud, d.now);
  }

  lemma IssueSigns<A(!new), V(!new)>(c: Config, codec: Codec, e: Engine<A, V>, t: TransferType, flow: DataFlow, d: Draw)
    requires Issue(c, codec, e, t, flow, d).Ok?
    ensures var entry := Issue(c, codec, e, t, flow, d).value.entry;
            TokenCarries(c, entry.token, flow.participantId, flow.counterPartyId, entry.claims, d.jti, d.now)
  {
    IssueUsesClaims(c, codec, e, t, flow, d);
    var claims := Issue(c, codec, e, t, flow, d).value.entry.claims;
    NewEntryIs(c, ContextOf(flow), flow.counterPartyId, claims, flow.id, d.now, d.jti, d.refreshToken);
  }

  lemma VerifiedIs(c: Config, e: Entry, aud: string, now: int)
    requires P.FaithfulVerifier(c) && TokenCarries(c, e.token, e.audience, e.subject, e.claims, e.id, now)
    requires c.providerVerify(aud, e.token).Ok?
    ensures c.providerVerify(aud, e.token).value ==
            TokenClaims(c.issuer, e.subject, e.audience, now + c.tokenDuration, e.claims["jti" := String(e.id)])
  {
    var pc := ParticipantContext(if c.issuerId.Some? then c.issuerId.value else c.issuer, c.issuer, "anonymous");
    var claims := TokenClaims(c.issuer, e.subject, e.audience, now + c.tokenDuration, e.claims["jti" := String(e.id)]);
    assert c.sign(pc, claims) == Ok(e.token);
    assert c.providerVerify(aud, c.sign(pc, claims).value).value == claims;
  }
}
