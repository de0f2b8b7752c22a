/**
 Refresh-token rotation (section 6 of RFC 6749) between one provider and one consumer with any number
 of concurrent `get_token` calls, step by step and with no lock at all: entering the critical section
 is always allowed here. A flow id names both the provider's flow and the consumer's stored token.
 A token is saved or deleted only while no call is refreshing it; revocation may happen at any time. The
 answer of the provider may be lost on its way, or the call that waits for it may end; `lost` are the
 flows that have lost one since their token was last saved.
 */
module RotationProtocol {
  import opened Wrappers
  import opened TokenTypes
  import opened TokenManager
  import opened TokenClient
  import S = RenewableTokenStore
  import P = ProviderProtocol

  datatype Params = Params(config: Config, refreshBeforeExpiry: int)

  /** Where a `get_token` call stands. */
  datatype Phase =
    | Expired                                // the stored token is due for refresh
    | Entered                                // past the lock
    | Asking(data: TokenData)                // read again, still due: the request is on its way
    | Asked(data: TokenData)                 // `renew` is in progress at the provider
    | Answered(answer: RefreshedTokenData)   // a successful answer, not yet written back
    | Returned(token: string)
    | Failed

  datatype Caller = Caller(flowId: string, phase: Phase)

  datatype System = System(provider: P.Provider, tokens: map<string, TokenData>, callers: map<nat, Caller>, lost: set<string>)

  const INITIAL: System := System(P.INITIAL, map[], map[], {})

  datatype Action =
    | Grant(pc: ParticipantContext, subject: string, claims: Claims, now: int, jti: string, refreshToken: string,
            data: TokenData)
    | Revoke(flowId: string)
    | Delete(flowId: string)
    | Start(rid: nat, flowId: string, now: int)
    | Enter(rid: nat)
    | Reread(rid: nat, now: int)
    | Look(rid: nat, bound: string)
    | Mint(rid: nat, now: int, jti: string, refreshToken: string)
    | Commit(rid: nat, expiresAt: int)
    | WriteBack(rid: nat)
    | Lose(rid: nat)
    | GiveUp(rid: nat)
    | ProviderFails(rid: nat)

  predicate Active(p: Phase) { !p.Returned? && !p.Failed? }

  predicate Holding(p: Phase) { p.Asking? || p.Asked? }

  /** No call is refreshing the token of this flow. */
  ghost predicate Quiet(s: System, flowId: string) {
    forall rid :: rid in s.callers && s.callers[rid].flowId == flowId ==> !Active(s.callers[rid].phase)
  }

  predicate In(s: System, rid: nat) { rid in s.callers }

  ghost predicate Enabled(p: Params, s: System, a: Action) {
    match a
    case Grant(pc, subject, claims, now, jti, refreshToken, data) =>
      && P.Enabled(p.config, s.provider, P.Generate(pc, subject, claims, data.identifier, now, jti, refreshToken))
      && Quiet(s, data.identifier)
    case Revoke(_) => true
    case Delete(flowId) => Quiet(s, flowId)
    case Start(rid, _, _) => !In(s, rid)
    case Enter(rid) => In(s, rid) && s.callers[rid].phase.Expired?
    case Reread(rid, _) => In(s, rid) && s.callers[rid].phase.Entered?
    case Look(rid, _) => In(s, rid) && s.callers[rid].phase.Asking?
    case Mint(rid, now, jti, refreshToken) =>
      In(s, rid) && s.callers[rid].phase.Asked? && P.Enabled(p.config, s.provider, P.Mint(rid, now, jti, refreshToken))
    case Commit(rid, _) =>
      In(s, rid) && s.callers[rid].phase.Asked? && P.Enabled(p.config, s.provider, P.Commit(rid))
    case WriteBack(rid) => In(s, rid) && s.callers[rid].phase.Answered?
    case Lose(rid) => In(s, rid) && s.callers[rid].phase.Answered?
    case GiveUp(rid) => In(s, rid) && (s.callers[rid].phase.Expired? || s.callers[rid].phase.Entered? || s.callers[rid].phase.Asking?)
    case ProviderFails(rid) => In(s, rid) && s.callers[rid].phase.Asked? && P.Enabled(p.config, s.provider, P.Abandon(rid))
  }

  function Move(s: System, rid: nat, phase: Phase): System
    requires In(s, rid)
  {
    s.(callers := s.callers[rid := s.callers[rid].(phase := phase)])
  }

  /** What a call does once it has read the stored token at `now`: hand it out, or go on to `due`. */
  function AfterRead(p: Params, s: System, flowId: string, now: int, due: TokenData -> Phase): Phase {
    if flowId !in s.tokens then Failed
    else if !Expiring(now, s.tokens[flowId].expiresAt, p.refreshBeforeExpiry) then Returned(s.tokens[flowId].token)
    else due(s.tokens[flowId])
  }

  function Step(p: Params, s: System, a: Action): System
    requires Enabled(p, s, a)
  {
    var c := p.config;
    match a
    case Grant(pc, subject, claims, now, jti, refreshToken, data) =>
      var s1 := s.(provider := P.Step(c, s.provider, P.Generate(pc, subject, claims, data.identifier, now, jti, refreshToken)));
      var e := NewEntry(c, pc, subject, claims, data.identifier, now, jti, refreshToken);
      if !AllowedClaims(claims) || e.Err? then s1
      else s1.(tokens := s.tokens[data.identifier := data.(token := e.value.token, refreshToken := refreshToken)],
               lost := s.lost - {data.identifier})
    case Revoke(flowId) => s.(provider := P.Step(c, s.provider, P.Revoke(flowId)))
    case Delete(flowId) => s.(tokens := s.tokens - {flowId}, lost := s.lost - {flowId})
    case Start(rid, flowId, now) =>
      s.(callers := s.callers[rid := Caller(flowId, AfterRead(p, s, flowId, now, d => Expired))])
    case Enter(rid) => Move(s, rid, Entered)
    case Reread(rid, now) => Move(s, rid, AfterRead(p, s, s.callers[rid].flowId, now, d => Asking(d)))
    case Look(rid, bound) =>
      var d := s.callers[rid].phase.data;
      var s1 := s.(provider := P.Step(c, s.provider, P.Look(rid, bound, d.refreshToken)));
      Move(s1, rid, if c.hash(d.refreshToken) in s.provider.store.byHash then Asked(d) else Failed)
    case Mint(rid, now, jti, refreshToken) =>
      var s1 := s.(provider := P.Step(c, s.provider, P.Mint(rid, now, jti, refreshToken)));
      Move(s1, rid, if rid in s1.provider.pending then s.callers[rid].phase else Failed)
    case Commit(rid, expiresAt) =>
      var d, q := s.callers[rid].phase.data, s.provider.pending[rid];
      var s1 := s.(provider := P.Step(c, s.provider, P.Commit(rid)));
      Move(s1, rid, if P.Renews(s.provider, P.Commit(rid))
                    then Answered(RefreshedTokenData(q.next.token, q.refreshToken, expiresAt, d.refreshEndpoint))
                    else Failed)
    case WriteBack(rid) =>
      var f, a := s.callers[rid].flowId, s.callers[rid].phase.answer;
      if f !in s.tokens then Move(s, rid, Failed)
      else Move(s, rid, Returned(a.token)).(tokens := s.tokens[f := Refreshed(s.tokens[f], a)])
    case Lose(rid) => Move(s, rid, Failed).(lost := s.lost + {s.callers[rid].flowId})
    case GiveUp(rid) => Move(s, rid, Failed)
    case ProviderFails(rid) => Move(s.(provider := P.Step(c, s.provider, P.Abandon(rid))), rid, Failed)
  }

  // ---------------------------------------------------------------- invariant

  /** A successful answer for the flow is on its way back. */
  predicate InFlight(s: System, flowId: string, rid: nat) {
    rid in s.callers && s.callers[rid].flowId == flowId && s.callers[rid].phase.Answered?
  }

  /** The refresh token with this hash was issued and has been used or revoked. */
  predicate Dead(p: P.Provider, h: string) { h in p.issued && h !in p.store.byHash }

  /** The hash is that of an entry issued for the flow with this token. */
  predicate IssuedFor(p: P.Provider, h: string, flowId: string, token: string) {
    h in p.issued && p.issued[h].flowId == flowId && p.issued[h].token == token
  }

  /** The flow's live entry, if there is one, has this hash. */
  predicate LiveIs(p: P.Provider, flowId: string, h: string) {
    flowId in p.store.byFlow ==> p.store.byFlow[flowId].hash == h
  }

  function StoredHash(c: Config, s: System, flowId: string): string
    requires flowId in s.tokens
  {
    c.hash(s.tokens[flowId].refreshToken)
  }

  /** A renewal in progress belongs to the call that asked for it. */
  ghost predicate PendingOk(c: Config, s: System, rid: nat)
    requires rid in s.provider.pending
  {
    var q := s.provider.pending[rid];
    && rid in s.callers && s.callers[rid].phase.Asked?
    && q.hash == c.hash(s.callers[rid].phase.data.refreshToken)
    && (q.Ready? ==> q.next.hash == c.hash(q.refreshToken))
  }

  /** What a call holds is either what is stored now or dead; what it was answered is the live entry. */
  ghost predicate CallerOk(c: Config, s: System, rid: nat)
    requires rid in s.callers
  {
    var Caller(f, phase) := s.callers[rid];
    && (Active(phase) ==> f in s.tokens)
    && (Holding(phase) ==>
          var h := c.hash(phase.data.refreshToken);
          h == StoredHash(c, s, f) || Dead(s.provider, h))
    && (phase.Answered? ==>
          var h := c.hash(phase.answer.refreshToken);
          && IssuedFor(s.provider, h, f, phase.answer.token)
          && LiveIs(s.provider, f, h)
          && Dead(s.provider, StoredHash(c, s, f)))
  }

  ghost predicate TokenOk(c: Config, s: System, f: string)
    requires f in s.tokens
  {
    && IssuedFor(s.provider, StoredHash(c, s, f), f, s.tokens[f].token)
    && ((forall rid :: !InFlight(s, f, rid)) && f !in s.lost ==> LiveIs(s.provider, f, StoredHash(c, s, f)))
  }

  ghost predicate OneAnswer(s: System) {
    forall f, rid, q :: InFlight(s, f, rid) && InFlight(s, f, q) ==> rid == q
  }

  /** A flow that has lost an answer holds a dead refresh token, and no further answer is on its way. */
  ghost predicate LostOk(c: Config, s: System, f: string) {
    && f in s.tokens && Dead(s.provider, StoredHash(c, s, f))
    && forall rid :: !InFlight(s, f, rid)
  }

  /** How calls, stored tokens and renewals in progress fit the provider. */
  ghost predicate Link(c: Config, s: System) {
    && (forall rid :: rid in s.provider.pending ==> PendingOk(c, s, rid))
    && (forall rid :: rid in s.callers ==> CallerOk(c, s, rid))
    && (forall f :: f in s.tokens ==> TokenOk(c, s, f))
    && (forall f :: f in s.lost ==> LostOk(c, s, f))
    && OneAnswer(s)
  }

  ghost predicate Inv(c: Config, s: System) { P.Inv(s.provider) && Link(c, s) }

  /** The central safety property: the provider's live entry of a flow is either the pair the consumer
      has stored, and no answer is on its way, or the one answer on its way, and then the stored refresh
      token is not the live one. */
  ghost predicate Agreement(c: Config, s: System, f: string) {
    f in s.tokens && f in s.provider.store.byFlow ==>
      var live := s.provider.store.byFlow[f];
      || (&& (forall rid :: !InFlight(s, f, rid))
          && live.hash == StoredHash(c, s, f) && live.token == s.tokens[f].token)
      || (exists rid :: && InFlight(s, f, rid) && (forall q :: InFlight(s, f, q) ==> q == rid)
                        && live.hash == c.hash(s.callers[rid].phase.answer.refreshToken)
                        && live.token == s.callers[rid].phase.answer.token
                        && live.hash != StoredHash(c, s, f))
  }

  /** The entry the flow's live one is known as by its hash. */
  predicate LiveKnown(p: P.Provider, f: string)
    requires f in p.store.byFlow
  {
    var live := p.store.byFlow[f];
    live.hash in p.issued && p.issued[live.hash] == live && live.hash in p.store.byHash
  }

  lemma FlowAgreement(c: Config, s: System, f: string)
    requires f in s.tokens && f in s.provider.store.byFlow && TokenOk(c, s, f) && OneAnswer(s) && f !in s.lost
    requires forall rid :: InFlight(s, f, rid) ==> CallerOk(c, s, rid)
    requires LiveKnown(s.provider, f)
    ensures Agreement(c, s, f)
  {
    if rid :| InFlight(s, f, rid) {
      assert CallerOk(c, s, rid);
    }
  }

  /** Exactly for the flows that have lost an answer the two sides disagree. */
  lemma LinkAgreement(c: Config, s: System, f: string)
    requires Link(c, s) && P.IssuedInv(s.provider) && S.Aligned(s.provider.store)
    requires f in s.tokens && f in s.provider.store.byFlow
    ensures Agreement(c, s, f) <==> f !in s.lost
  {
    assert LiveKnown(s.provider, f);
    if f in s.lost {
      assert LostOk(c, s, f);
    } else {
      FlowAgreement(c, s, f);
    }
  }

  /** With no answer on its way the stored refresh token is the live one exactly for the flows that have
      not lost one. */
  lemma StoredIsLiveIff(c: Config, s: System, f: string)
    requires Link(c, s) && P.IssuedInv(s.provider) && S.Aligned(s.provider.store)
    requires f in s.tokens && f in s.provider.store.byFlow && forall rid :: !InFlight(s, f, rid)
    ensures s.provider.store.byFlow[f].hash in s.provider.store.byHash
    ensures StoredHash(c, s, f) == s.provider.store.byFlow[f].hash <==> f !in s.lost
  {
    assert LiveKnown(s.provider, f) && TokenOk(c, s, f);
    assert f in s.lost ==> LostOk(c, s, f);
  }

  // ---------------------------------------------------------------- frames

  /** Between two provider states: issued entries stay issued, dead refresh tokens stay dead. */
  ghost predicate Extends(p: P.Provider, p': P.Provider) {
    && (forall h :: h in p.issued ==> h in p'.issued && p'.issued[h] == p.issued[h])
    && (forall h :: Dead(p, h) ==> Dead(p', h))
  }

  /** The live entry of the flow is what it was, or gone. */
  ghost predicate FlowKept(p: P.Provider, p': P.Provider, f: string) {
    f in p'.store.byFlow ==> f in p.store.byFlow && p'.store.byFlow[f] == p.store.byFlow[f]
  }

  lemma CallerFrame(c: Config, s: System, s': System, rid: nat)
    requires rid in s.callers && CallerOk(c, s, rid) && rid in s'.callers && s'.callers[rid] == s.callers[rid]
    requires Extends(s.provider, s'.provider)
    requires var f := s.callers[rid].flowId;
             FlowKept(s.provider, s'.provider, f) && (f in s'.tokens <==> f in s.tokens) && (f in s.tokens ==> s'.tokens[f] == s.tokens[f])
    ensures CallerOk(c, s', rid)
  {
  }

  lemma TokenFrame(c: Config, s: System, s': System, f: string)
    requires f in s.tokens && TokenOk(c, s, f) && f in s'.tokens && s'.tokens[f] == s.tokens[f]
    requires Extends(s.provider, s'.provider) && FlowKept(s.provider, s'.provider, f)
    requires (forall rid :: InFlight(s, f, rid) ==> InFlight(s', f, rid)) && (f in s.lost ==> f in s'.lost)
    ensures TokenOk(c, s', f)
  {
  }

  lemma LostFrame(c: Config, s: System, s': System, f: string)
    requires LostOk(c, s, f) && f in s'.tokens && s'.tokens[f] == s.tokens[f] && Extends(s.provider, s'.provider)
    requires forall rid :: InFlight(s', f, rid) ==> InFlight(s, f, rid)
    ensures LostOk(c, s', f)
  {
  }

  /** A step of the provider that touches neither the calls nor, but for revoking, any live entry. */
  lemma ProviderFrame(c: Config, s: System, s': System)
    requires Link(c, s)
    requires s'.tokens == s.tokens && s'.callers == s.callers && s'.lost == s.lost && s'.provider.pending == s.provider.pending
    requires Extends(s.provider, s'.provider) && forall f :: FlowKept(s.provider, s'.provider, f)
    ensures Link(c, s')
  {
    forall rid | rid in s'.callers ensures CallerOk(c, s', rid) { CallerFrame(c, s, s', rid); }
    assert forall f, rid :: InFlight(s', f, rid) == InFlight(s, f, rid);
    forall f | f in s'.tokens ensures TokenOk(c, s', f) { TokenFrame(c, s, s', f); }
    forall f | f in s'.lost ensures LostOk(c, s', f) { LostFrame(c, s, s', f); }
    forall rid | rid in s'.provider.pending ensures PendingOk(c, s', rid) { assert PendingOk(c, s, rid); }
  }

  /** The step is one call's: everything else is as it was. */
  ghost predicate Moves(s: System, s': System, rid: nat) {
    && s'.tokens == s.tokens && s'.lost == s.lost && rid in s'.callers && s'.callers - {rid} == s.callers - {rid}
    && s'.provider.store == s.provider.store && s'.provider.issued == s.provider.issued
    && s'.provider.pending - {rid} == s.provider.pending - {rid}
    && (rid in s.callers ==> !s.callers[rid].phase.Answered?)
    && !s'.callers[rid].phase.Answered?
  }

  /** A step of one call that neither begins nor ends an answer on its way; the provider may only have
      changed what it keeps for that call's renewal. */
  lemma MoveFrame(c: Config, s: System, s': System, rid: nat)
    requires Link(c, s) && Moves(s, s', rid) && CallerOk(c, s', rid) && (rid in s'.provider.pending ==> PendingOk(c, s', rid))
    ensures Link(c, s')
  {
    forall q | q in s'.callers ensures CallerOk(c, s', q) {
      if q != rid {
        assert q in s'.callers - {rid};
        assert s'.callers[q] == (s.callers - {rid})[q] == s.callers[q];
        CallerFrame(c, s, s', q);
      }
    }
    forall f, q ensures InFlight(s', f, q) == InFlight(s, f, q) {
      if q != rid {
        assert q in s'.callers - {rid} <==> q in s.callers - {rid};
        if q in s'.callers { assert s'.callers[q] == (s.callers - {rid})[q]; }
      }
    }
    forall f | f in s'.tokens ensures TokenOk(c, s', f) { TokenFrame(c, s, s', f); }
    forall f | f in s'.lost ensures LostOk(c, s', f) { LostFrame(c, s, s', f); }
    forall q | q in s'.provider.pending ensures PendingOk(c, s', q) {
      if q != rid {
        assert q in s'.provider.pending - {rid};
        assert s'.provider.pending[q] == (s.provider.pending - {rid})[q];
        assert PendingOk(c, s, q);
        assert q in s.callers - {rid};
        assert s'.callers[q] == (s.callers - {rid})[q];
      }
    }
  }

  /** What `Link` says of one flow. */
  ghost predicate FlowOk(c: Config, s: System, f: string) {
    && (forall rid :: rid in s.callers && s.callers[rid].flowId == f ==> CallerOk(c, s, rid))
    && (f in s.tokens ==> TokenOk(c, s, f)) && (f in s.lost ==> LostOk(c, s, f))
    && forall rid, q :: InFlight(s, f, rid) && InFlight(s, f, q) ==> rid == q
  }

  ghost predicate PendingsOk(c: Config, s: System) { forall rid :: rid in s.provider.pending ==> PendingOk(c, s, rid) }

  /** A call of another flow than `f`. */
  predicate Elsewhere(s: System, f: string, rid: nat) { rid in s.callers && s.callers[rid].flowId != f }

  /** Nothing has changed for other flows than `f`. */
  ghost predicate SameElsewhere(s: System, s': System, f: string) {
    && (forall g :: g != f ==> FlowKept(s.provider, s'.provider, g))
    && s'.tokens - {f} == s.tokens - {f} && s'.lost - {f} == s.lost - {f}
    && (forall rid :: Elsewhere(s', f, rid) <==> Elsewhere(s, f, rid))
    && (forall rid :: Elsewhere(s, f, rid) ==> s'.callers[rid] == s.callers[rid])
  }

  lemma OtherFlowOk(c: Config, s: System, s': System, f: string, g: string)
    requires Link(c, s) && SameElsewhere(s, s', f) && Extends(s.provider, s'.provider) && g != f
    ensures FlowOk(c, s', g)
  {
    assert g in s'.tokens - {f} <==> g in s.tokens - {f};
    assert g in s'.tokens ==> s'.tokens[g] == (s'.tokens - {f})[g] == (s.tokens - {f})[g] == s.tokens[g];
    assert g in s'.lost - {f} <==> g in s.lost - {f};
    forall rid ensures InFlight(s', g, rid) == InFlight(s, g, rid) {
      assert Elsewhere(s', f, rid) <==> Elsewhere(s, f, rid);
    }
    forall rid | rid in s'.callers && s'.callers[rid].flowId == g ensures CallerOk(c, s', rid) {
      assert Elsewhere(s', f, rid);
      CallerFrame(c, s, s', rid);
    }
    if g in s'.tokens { TokenFrame(c, s, s', g); }
    if g in s'.lost { LostFrame(c, s, s', g); }
  }

  /** The renewals in progress are some of those there were, for the same calls. */
  ghost predicate FewerPendings(s: System, s': System) {
    forall rid :: rid in s'.provider.pending ==>
      && rid in s.provider.pending && s'.provider.pending[rid] == s.provider.pending[rid]
      && (rid in s.callers ==> rid in s'.callers && s'.callers[rid] == s.callers[rid])
  }

  lemma PendingsFrame(c: Config, s: System, s': System)
    requires PendingsOk(c, s) && FewerPendings(s, s')
    ensures PendingsOk(c, s')
  {
    forall rid | rid in s'.provider.pending ensures PendingOk(c, s', rid) { assert PendingOk(c, s, rid); }
  }

  /** A step that concerns one flow. */
  ghost predicate ConcernsOnly(s: System, s': System, f: string) {
    SameElsewhere(s, s', f) && Extends(s.provider, s'.provider) && FewerPendings(s, s')
  }

  lemma FlowsLink(c: Config, s: System)
    requires PendingsOk(c, s) && forall f :: FlowOk(c, s, f)
    ensures Link(c, s)
  {
    forall rid | rid in s.callers ensures CallerOk(c, s, rid) { assert FlowOk(c, s, s.callers[rid].flowId); }
    forall g | g in s.tokens ensures TokenOk(c, s, g) { assert FlowOk(c, s, g); }
    forall g | g in s.lost ensures LostOk(c, s, g) { assert FlowOk(c, s, g); }
    forall g, rid, q | InFlight(s, g, rid) && InFlight(s, g, q) ensures rid == q { assert FlowOk(c, s, g); }
  }

  /** It keeps the link if it keeps what the link says of that flow. */
  lemma FlowFrame(c: Config, s: System, s': System, f: string)
    requires Link(c, s) && ConcernsOnly(s, s', f) && FlowOk(c, s', f)
    ensures Link(c, s')
  {
    forall g ensures FlowOk(c, s', g) { if g != f { OtherFlowOk(c, s, s', f, g); } }
    PendingsFrame(c, s, s');
    FlowsLink(c, s');
  }

  // ---------------------------------------------------------------- every step keeps the invariant

  /** A new grant, saved by the consumer while no call is refreshing the flow's token. */
  /** What a grant that succeeds does. */
  ghost predicate Grants(c: Config, s: System, s': System, e: Entry) {
    && s'.provider == P.Issue(s.provider, e) && s'.callers == s.callers && e.flowId in s'.tokens
    && s'.tokens == s.tokens[e.flowId := s'.tokens[e.flowId]] && s'.lost == s.lost - {e.flowId}
    && StoredHash(c, s', e.flowId) == e.hash && s'.tokens[e.flowId].token == e.token
  }

  lemma IssueConcerns(c: Config, s: System, s': System, e: Entry)
    requires Grants(c, s, s', e) && e.hash !in s.provider.issued
    ensures ConcernsOnly(s, s', e.flowId)
  {
    IssueExtends(s.provider, e);
    assert s'.tokens - {e.flowId} == s.tokens - {e.flowId};
  }

  lemma IssueFlow(c: Config, s: System, s': System, e: Entry)
    requires Grants(c, s, s', e) && Quiet(s, e.flowId)
    ensures FlowOk(c, s', e.flowId)
  {
    assert forall rid :: !InFlight(s', e.flowId, rid);
  }

  lemma IssueLink(c: Config, s: System, s': System, e: Entry)
    requires Link(c, s) && Quiet(s, e.flowId) && e.hash !in s.provider.issued && Grants(c, s, s', e)
    ensures Link(c, s')
  {
    IssueConcerns(c, s, s', e);
    IssueFlow(c, s, s', e);
    FlowFrame(c, s, s', e.flowId);
  }

  lemma IssueExtends(p: P.Provider, e: Entry)
    requires e.hash !in p.issued
    ensures Extends(p, P.Issue(p, e)) && forall g :: g != e.flowId ==> FlowKept(p, P.Issue(p, e), g)
  {
  }

  lemma GrantLink(p: Params, s: System, a: Action)
    requires Link(p.config, s) && P.IssuedInv(s.provider) && a.Grant? && Enabled(p, s, a)
    ensures Link(p.config, Step(p, s, a))
  {
    var c, g := p.config, a.data.identifier;
    var r := NewEntry(c, a.pc, a.subject, a.claims, g, a.now, a.jti, a.refreshToken);
    if !AllowedClaims(a.claims) || r.Err? {
      ProviderFrame(c, s, Step(p, s, a));
    } else {
      IssueLink(c, s, Step(p, s, a), r.value);
    }
  }

  lemma RevokeLink(p: Params, s: System, a: Action)
    requires Link(p.config, s) && P.IssuedInv(s.provider) && a.Revoke? && Enabled(p, s, a)
    ensures Link(p.config, Step(p, s, a))
  {
    ProviderFrame(p.config, s, Step(p, s, a));
  }

  lemma DeleteConcerns(p: Params, s: System, f: string)
    requires Enabled(p, s, Delete(f))
    ensures ConcernsOnly(s, Step(p, s, Delete(f)), f)
  {
    assert Step(p, s, Delete(f)).tokens - {f} == s.tokens - {f};
  }

  lemma DeleteFlow(p: Params, s: System, f: string)
    requires Enabled(p, s, Delete(f))
    ensures FlowOk(p.config, Step(p, s, Delete(f)), f)
  {
    assert forall rid :: !InFlight(Step(p, s, Delete(f)), f, rid);
  }

  lemma DeleteLink(p: Params, s: System, f: string)
    requires Link(p.config, s) && Enabled(p, s, Delete(f))
    ensures Link(p.config, Step(p, s, Delete(f)))
  {
    DeleteConcerns(p, s, f);
    DeleteFlow(p, s, f);
    FlowFrame(p.config, s, Step(p, s, Delete(f)), f);
  }

  /** The steps that neither begin nor end an answer on its way, nor come from outside. */
  predicate IsMove(a: Action) { a.Start? || a.Enter? || a.Reread? || a.GiveUp? || a.Look? || a.Mint? || a.ProviderFails? }

  lemma MoveMoves(p: Params, s: System, a: Action)
    requires IsMove(a) && Enabled(p, s, a)
    ensures Moves(s, Step(p, s, a), a.rid)
  {
    if a.Mint? { P.MintEffect(p.config, s.provider, P.Mint(a.rid, a.now, a.jti, a.refreshToken)); }
  }

  /** The call and its renewal in progress still fit. */
  ghost predicate MoverOk(c: Config, s: System, rid: nat) {
    && rid in s.callers && CallerOk(c, s, rid) && (rid in s.provider.pending ==> PendingOk(c, s, rid))
  }

  lemma LocalMover(p: Params, s: System, a: Action)
    requires a.Start? || a.Enter? || a.Reread? || a.GiveUp?
    requires Enabled(p, s, a) && (a.rid in s.callers ==> CallerOk(p.config, s, a.rid))
    requires a.rid in s.provider.pending ==> PendingOk(p.config, s, a.rid)
    ensures MoverOk(p.config, Step(p, s, a), a.rid)
  {
  }

  lemma ProviderMover(p: Params, s: System, a: Action)
    requires a.Look? || a.Mint? || a.ProviderFails?
    requires Enabled(p, s, a) && CallerOk(p.config, s, a.rid) && P.IssuedInv(s.provider)
    requires a.rid in s.provider.pending ==> PendingOk(p.config, s, a.rid)
    ensures MoverOk(p.config, Step(p, s, a), a.rid)
  {
    if a.Mint? { P.MintEffect(p.config, s.provider, P.Mint(a.rid, a.now, a.jti, a.refreshToken)); }
  }

  lemma MoveLink(p: Params, s: System, a: Action)
    requires Link(p.config, s) && P.IssuedInv(s.provider) && IsMove(a) && Enabled(p, s, a)
    ensures Link(p.config, Step(p, s, a))
  {
    MoveMoves(p, s, a);
    if a.Look? || a.Mint? || a.ProviderFails? { ProviderMover(p, s, a); } else { LocalMover(p, s, a); }
    MoveFrame(p.config, s, Step(p, s, a), a.rid);
  }

  /** A commit: the one call whose refresh token is live uses it up; its answer is then the only one on
      its way for the flow, and everybody else's token is dead. */
  lemma CommitLink(p: Params, s: System, a: Action)
    requires Link(p.config, s) && P.IssuedInv(s.provider) && a.Commit? && Enabled(p, s, a)
    requires P.Renews(s.provider, P.Commit(a.rid)) ==> CommitFacts(s.provider, a.rid)
    ensures Link(p.config, Step(p, s, a))
  {
    var c, rid, s' := p.config, a.rid, Step(p, s, a);
    assert CallerOk(c, s, rid) && PendingOk(c, s, rid);
    if P.Renews(s.provider, P.Commit(rid)) {
      CommitHoldsStored(c, s, rid);
      CommitAnswers(p, s, rid, a.expiresAt);
      AnsweredLink(c, s, s', rid);
    } else {
      CommitMoves(p, s, rid, a.expiresAt);
      MoveFrame(c, s, s', rid);
    }
  }

  /** The renewal that is about to succeed is for what is stored, and nothing is on its way. */
  lemma CommitHoldsStored(c: Config, s: System, rid: nat)
    requires Link(c, s) && P.IssuedInv(s.provider) && rid in s.callers && s.callers[rid].phase.Asked?
    requires CommitFacts(s.provider, rid)
    ensures var f, q := s.callers[rid].flowId, s.provider.pending[rid];
            && f in s.tokens && q.hash == StoredHash(c, s, f) && q.next.flowId == f && q.next.hash == c.hash(q.refreshToken)
            && f !in s.lost && forall r :: !InFlight(s, f, r)
  {
    var f := s.callers[rid].flowId;
    assert CallerOk(c, s, rid) && PendingOk(c, s, rid) && TokenOk(c, s, f);
    assert f in s.lost ==> LostOk(c, s, f);
    forall q ensures !InFlight(s, f, q) {
      if q in s.callers { assert CallerOk(c, s, q); }
    }
  }

  lemma CommitAnswers(p: Params, s: System, rid: nat, expiresAt: int)
    requires Enabled(p, s, Commit(rid, expiresAt)) && P.Renews(s.provider, P.Commit(rid))
    requires P.IssuedInv(s.provider) && CommitFacts(s.provider, rid)
    requires var f, q := s.callers[rid].flowId, s.provider.pending[rid];
             && f in s.tokens && q.hash == StoredHash(p.config, s, f) && q.next.flowId == f
             && q.next.hash == p.config.hash(q.refreshToken) && f !in s.lost && forall r :: !InFlight(s, f, r)
    ensures Answers(p.config, s, Step(p, s, Commit(rid, expiresAt)), rid)
  {
    ReplaceIsRenewal(s.provider, rid);
  }

  lemma CommitMoves(p: Params, s: System, rid: nat, expiresAt: int)
    requires Enabled(p, s, Commit(rid, expiresAt)) && !P.Renews(s.provider, P.Commit(rid))
    ensures var s' := Step(p, s, Commit(rid, expiresAt));
            Moves(s, s', rid) && s'.callers[rid].phase.Failed? && rid !in s'.provider.pending
  {
  }

  /** What `CommitReplaces` establishes of a renewal about to succeed. */
  predicate CommitFacts(p: P.Provider, rid: nat) {
    && rid in p.pending && p.pending[rid].Ready?
    && var q := p.pending[rid];
       && q.hash in p.store.byHash && p.store.byHash[q.hash] == q.entry
       && q.next.flowId == q.entry.flowId && q.next.hash !in p.issued
       && p.store.byFlow.Keys >= {q.entry.flowId}
  }

  /** What a successful renewal does to the provider, seen from outside. */
  ghost predicate Renewal(p: P.Provider, p': P.Provider, rid: nat, q: P.Pending)
    requires q.Ready?
  {
    && Extends(p, p') && Dead(p', q.hash) && IssuedFor(p', q.next.hash, q.next.flowId, q.next.token)
    && p'.store.byFlow == p.store.byFlow[q.next.flowId := q.next] && p'.pending == p.pending - {rid}
  }

  lemma ReplaceIsRenewal(p: P.Provider, rid: nat)
    requires P.IssuedInv(p) && CommitFacts(p, rid)
    ensures Renewal(p, P.Replace(p, rid, p.pending[rid]), rid, p.pending[rid])
  {
    var q := p.pending[rid];
    var p' := P.Replace(p, rid, q);
    assert p'.store.byHash == (p.store.byHash - {q.hash})[q.next.hash := q.next];
    assert p'.store.byFlow == p.store.byFlow[q.next.flowId := q.next];
  }

  /** The call's renewal has succeeded and its answer is on its way. */
  ghost predicate Answers(c: Config, s: System, s': System, rid: nat)
    requires rid in s.callers && rid in s.provider.pending && s.provider.pending[rid].Ready?
  {
    var f, q := s.callers[rid].flowId, s.provider.pending[rid];
    && f in s.tokens && q.hash == StoredHash(c, s, f) && q.next.flowId == f && q.next.hash == c.hash(q.refreshToken)
    && f !in s.lost && (forall r :: !InFlight(s, f, r))
    && Renewal(s.provider, s'.provider, rid, q) && s'.tokens == s.tokens && s'.lost == s.lost
    && rid in s'.callers && s'.callers == s.callers[rid := s'.callers[rid]] && s'.callers[rid].flowId == f
    && s'.callers[rid].phase.Answered?
    && s'.callers[rid].phase.answer.token == q.next.token
    && s'.callers[rid].phase.answer.refreshToken == q.refreshToken
  }

  lemma AnsweredInFlight(c: Config, s: System, s': System, rid: nat)
    requires rid in s.callers && !s.callers[rid].phase.Answered?
    requires rid in s.provider.pending && s.provider.pending[rid].Ready? && Answers(c, s, s', rid)
    ensures forall g, r :: InFlight(s', g, r) == (InFlight(s, g, r) || (g == s.callers[rid].flowId && r == rid))
  {
  }

  lemma AnsweredFlow(c: Config, s: System, s': System, rid: nat)
    requires Link(c, s) && rid in s.callers && s.callers[rid].phase.Asked?
    requires rid in s.provider.pending && s.provider.pending[rid].Ready? && Answers(c, s, s', rid)
    ensures FlowOk(c, s', s.callers[rid].flowId)
  {
    var f := s.callers[rid].flowId;
    AnsweredInFlight(c, s, s', rid);
    forall r | r in s'.callers && s'.callers[r].flowId == f ensures CallerOk(c, s', r) {
      if r != rid { assert CallerOk(c, s, r) && !InFlight(s, f, r); }
    }
    assert TokenOk(c, s, f) && InFlight(s', f, rid);
  }

  lemma AnsweredConcerns(c: Config, s: System, s': System, rid: nat)
    requires rid in s.callers && rid in s.provider.pending && s.provider.pending[rid].Ready? && Answers(c, s, s', rid)
    ensures ConcernsOnly(s, s', s.callers[rid].flowId)
  {
  }

  lemma AnsweredLink(c: Config, s: System, s': System, rid: nat)
    requires Link(c, s) && rid in s.callers && s.callers[rid].phase.Asked?
    requires rid in s.provider.pending && s.provider.pending[rid].Ready? && Answers(c, s, s', rid)
    ensures Link(c, s')
  {
    AnsweredFlow(c, s, s', rid);
    AnsweredConcerns(c, s, s', rid);
    FlowFrame(c, s, s', s.callers[rid].flowId);
  }

  /** Writing the answer back makes it what is stored; nothing else is on its way for the flow. */
  lemma WriteBackFlow(p: Params, s: System, rid: nat)
    requires Link(p.config, s) && Enabled(p, s, WriteBack(rid))
    ensures FlowOk(p.config, Step(p, s, WriteBack(rid)), s.callers[rid].flowId)
  {
    var c, f, s' := p.config, s.callers[rid].flowId, Step(p, s, WriteBack(rid));
    assert CallerOk(c, s, rid) && InFlight(s, f, rid) && TokenOk(c, s, f);
    assert f in s.lost ==> LostOk(c, s, f);
    forall r ensures !InFlight(s', f, r) { assert r != rid ==> !InFlight(s, f, r); }
    forall r | r in s'.callers && s'.callers[r].flowId == f ensures CallerOk(c, s', r) {
      assert CallerOk(c, s, r);
      assert r != rid ==> !InFlight(s, f, r);
    }
  }

  lemma WriteBackConcerns(p: Params, s: System, rid: nat)
    requires Enabled(p, s, WriteBack(rid)) && s.callers[rid].flowId in s.tokens && rid !in s.provider.pending
    ensures ConcernsOnly(s, Step(p, s, WriteBack(rid)), s.callers[rid].flowId)
  {
    var s' := Step(p, s, WriteBack(rid));
    assert s'.tokens - {s.callers[rid].flowId} == s.tokens - {s.callers[rid].flowId};
  }

  /** A call whose answer is on its way has a token stored and no renewal in progress. */
  lemma AnsweredCallerIs(c: Config, s: System, rid: nat)
    requires Link(c, s) && rid in s.callers && s.callers[rid].phase.Answered?
    ensures s.callers[rid].flowId in s.tokens && rid !in s.provider.pending
  {
    assert CallerOk(c, s, rid);
    assert rid in s.provider.pending ==> PendingOk(c, s, rid);
  }

  lemma WriteBackLink(p: Params, s: System, rid: nat)
    requires Link(p.config, s) && Enabled(p, s, WriteBack(rid))
    ensures Link(p.config, Step(p, s, WriteBack(rid)))
  {
    AnsweredCallerIs(p.config, s, rid);
    WriteBackFlow(p, s, rid);
    WriteBackConcerns(p, s, rid);
    FlowFrame(p.config, s, Step(p, s, WriteBack(rid)), s.callers[rid].flowId);
  }

  /** Losing the one answer on its way leaves the flow with a dead refresh token and no other answer. */
  lemma LoseLink(p: Params, s: System, rid: nat)
    requires Link(p.config, s) && Enabled(p, s, Lose(rid))
    ensures Link(p.config, Step(p, s, Lose(rid)))
  {
    AnsweredCallerIs(p.config, s, rid);
    LoseFlow(p, s, rid);
    LoseConcerns(p, s, rid);
    FlowFrame(p.config, s, Step(p, s, Lose(rid)), s.callers[rid].flowId);
  }

  lemma LoseFlow(p: Params, s: System, rid: nat)
    requires Link(p.config, s) && Enabled(p, s, Lose(rid))
    ensures FlowOk(p.config, Step(p, s, Lose(rid)), s.callers[rid].flowId)
  {
    var c, f, s' := p.config, s.callers[rid].flowId, Step(p, s, Lose(rid));
    assert CallerOk(c, s, rid) && InFlight(s, f, rid) && TokenOk(c, s, f);
    forall r ensures !InFlight(s', f, r) { assert r != rid ==> !InFlight(s, f, r); }
    forall r | r in s'.callers && s'.callers[r].flowId == f ensures CallerOk(c, s', r) { assert CallerOk(c, s, r); }
  }

  lemma LoseConcerns(p: Params, s: System, rid: nat)
    requires Enabled(p, s, Lose(rid)) && rid !in s.provider.pending
    ensures ConcernsOnly(s, Step(p, s, Lose(rid)), s.callers[rid].flowId)
  {
  }

  lemma StepInv(p: Params, s: System, a: Action)
    requires Inv(p.config, s) && Enabled(p, s, a)
    ensures Inv(p.config, Step(p, s, a))
  {
    StepProvider(p, s, a);
    match a {
      case Grant(_, _, _, _, _, _, _) => GrantLink(p, s, a);
      case Revoke(_) => RevokeLink(p, s, a);
      case Delete(flowId) => DeleteLink(p, s, flowId);
      case Commit(rid, _) =>
        if P.Renews(s.provider, P.Commit(rid)) { CommitFactsHold(s.provider, rid); }
        CommitLink(p, s, a);
      case WriteBack(rid) => WriteBackLink(p, s, rid);
      case Lose(rid) => LoseLink(p, s, rid);
      case _ => MoveLink(p, s, a);
    }
  }

  lemma CommitFactsHold(p: P.Provider, rid: nat)
    requires P.Inv(p) && P.Renews(p, P.Commit(rid))
    ensures CommitFacts(p, rid)
  {
    P.CommitReplaces(p, rid);
    assert P.NotStored(p, p.pending[rid]);
  }

  /** The action of the provider this step contains, if any. */
  function ProviderAction(s: System, a: Action): Option<P.Action> {
    match a
    case Grant(pc, subject, claims, now, jti, refreshToken, data) =>
      Some(P.Generate(pc, subject, claims, data.identifier, now, jti, refreshToken))
    case Revoke(flowId) => Some(P.Revoke(flowId))
    case Look(rid, bound) =>
      if In(s, rid) && s.callers[rid].phase.Asking?
      then Some(P.Look(rid, bound, s.callers[rid].phase.data.refreshToken)) else None
    case Mint(rid, now, jti, refreshToken) => Some(P.Mint(rid, now, jti, refreshToken))
    case Commit(rid, _) => Some(P.Commit(rid))
    case ProviderFails(rid) => Some(P.Abandon(rid))
    case _ => None
  }

  /** The provider's part of a step is a step of the provider protocol. */
  lemma ProviderPart(p: Params, s: System, a: Action)
    requires Link(p.config, s) && Enabled(p, s, a)
    ensures match ProviderAction(s, a)
            case None => Step(p, s, a).provider == s.provider
            case Some(b) => P.Enabled(p.config, s.provider, b) && Step(p, s, a).provider == P.Step(p.config, s.provider, b)
  {
    if a.Look? && a.rid in s.provider.pending {
      assert PendingOk(p.config, s, a.rid);
    }
  }

  lemma StepProvider(p: Params, s: System, a: Action)
    requires Inv(p.config, s) && Enabled(p, s, a)
    ensures P.Inv(Step(p, s, a).provider)
  {
    ProviderPart(p, s, a);
    var b := ProviderAction(s, a);
    if b.Some? { P.StepInv(p.config, s.provider, b.value); }
  }

  // ---------------------------------------------------------------- what was handed out

  /** At some moment of the history this token was the newest of its flow. */
  ghost predicate WasCurrent(log: seq<P.Event>, f: string, token: string) {
    exists k: nat :: k <= |log| && NewestTokenIs(log[..k], f, token)
  }

  ghost predicate NewestTokenIs(log: seq<P.Event>, f: string, token: string) {
    P.Newest(log, f).Some? && P.Newest(log, f).value.token == token
  }

  ghost predicate HistoryInv(s: System) {
    && (forall f :: f in s.tokens ==> WasCurrent(s.provider.log, f, s.tokens[f].token))
    && (forall rid :: rid in s.callers ==>
          var Caller(f, phase) := s.callers[rid];
          && (phase.Answered? ==> WasCurrent(s.provider.log, f, phase.answer.token))
          && (phase.Returned? ==> WasCurrent(s.provider.log, f, phase.token)))
  }

  lemma StillWasCurrent(log: seq<P.Event>, log': seq<P.Event>, f: string, token: string)
    requires P.Prefix(log, log') && WasCurrent(log, f, token)
    ensures WasCurrent(log', f, token)
  {
    var k: nat :| k <= |log| && NewestTokenIs(log[..k], f, token);
    assert log'[..k] == log[..k];
    assert NewestTokenIs(log'[..k], f, token);
  }

  lemma LiveIsCurrent(p: P.Provider, f: string)
    requires P.StoreIsNewest(p) && f in p.store.byFlow
    ensures WasCurrent(p.log, f, p.store.byFlow[f].token)
  {
    assert p.log[..|p.log|] == p.log;
    assert P.Newest(p.log, f) == Some(p.store.byFlow[f]);
    assert NewestTokenIs(p.log[..|p.log|], f, p.store.byFlow[f].token);
  }

  /** What a step adds to the stored tokens is what the provider has just made current, or an answer. */
  ghost predicate NewTokens(s: System, s': System) {
    forall f :: f in s'.tokens && !(f in s.tokens && s'.tokens[f] == s.tokens[f]) ==>
      || (f in s'.provider.store.byFlow && s'.provider.store.byFlow[f].token == s'.tokens[f].token)
      || (exists rid :: InFlight(s, f, rid) && s'.tokens[f].token == s.callers[rid].phase.answer.token)
  }

  /** What a step answers is what the provider has just made current; what it hands out was stored, or
      was an answer. */
  ghost predicate NewAnswers(s: System, s': System) {
    forall rid :: rid in s'.callers && !(rid in s.callers && s'.callers[rid] == s.callers[rid]) ==>
      var Caller(f, phase) := s'.callers[rid];
      && (phase.Answered? ==> f in s'.provider.store.byFlow && s'.provider.store.byFlow[f].token == phase.answer.token)
      && (phase.Returned? ==>
            || (f in s.tokens && s.tokens[f].token == phase.token)
            || (InFlight(s, f, rid) && s.callers[rid].phase.answer.token == phase.token))
  }

  ghost predicate OnlyNew(s: System, s': System) {
    P.Prefix(s.provider.log, s'.provider.log) && NewTokens(s, s') && NewAnswers(s, s')
  }

  lemma CommitNew(p: Params, s: System, rid: nat, expiresAt: int)
    requires Enabled(p, s, Commit(rid, expiresAt))
    requires P.Renews(s.provider, P.Commit(rid)) ==>
               CommitFacts(s.provider, rid) && s.callers[rid].flowId == s.provider.pending[rid].next.flowId
    ensures OnlyNew(s, Step(p, s, Commit(rid, expiresAt)))
  {
  }

  lemma WriteBackNew(p: Params, s: System, rid: nat)
    requires Enabled(p, s, WriteBack(rid))
    ensures OnlyNew(s, Step(p, s, WriteBack(rid)))
  {
    assert InFlight(s, s.callers[rid].flowId, rid);
  }

  lemma MoveNew(p: Params, s: System, a: Action)
    requires Enabled(p, s, a) && (IsMove(a) || a.Lose?)
    ensures OnlyNew(s, Step(p, s, a))
  {
  }

  lemma NewValues(p: Params, s: System, a: Action)
    requires Enabled(p, s, a)
    requires a.Commit? && P.Renews(s.provider, P.Commit(a.rid)) ==>
               CommitFacts(s.provider, a.rid) && s.callers[a.rid].flowId == s.provider.pending[a.rid].next.flowId
    ensures OnlyNew(s, Step(p, s, a))
  {
    match a {
      case Commit(rid, expiresAt) => CommitNew(p, s, rid, expiresAt);
      case WriteBack(rid) => WriteBackNew(p, s, rid);
      case Grant(_, _, _, _, _, _, _) =>
      case Revoke(_) =>
      case Delete(_) =>
      case _ => MoveNew(p, s, a);
    }
  }

  lemma HistoryFrame(s: System, s': System)
    requires HistoryInv(s) && P.StoreIsNewest(s'.provider)
    requires OnlyNew(s, s')
    ensures HistoryInv(s')
  {
    var log, log' := s.provider.log, s'.provider.log;
    forall f | f in s'.tokens ensures WasCurrent(log', f, s'.tokens[f].token) {
      if f in s.tokens && s'.tokens[f] == s.tokens[f] {
        StillWasCurrent(log, log', f, s.tokens[f].token);
      } else if f in s'.provider.store.byFlow && s'.provider.store.byFlow[f].token == s'.tokens[f].token {
        LiveIsCurrent(s'.provider, f);
      } else {
        StillWasCurrent(log, log', f, s'.tokens[f].token);
      }
    }
    forall rid | rid in s'.callers
      ensures var Caller(f, phase) := s'.callers[rid];
              && (phase.Answered? ==> WasCurrent(log', f, phase.answer.token))
              && (phase.Returned? ==> WasCurrent(log', f, phase.token))
    {
      var Caller(f, phase) := s'.callers[rid];
      if phase.Returned? {
        StillWasCurrent(log, log', f, phase.token);
      } else if phase.Answered? {
        if rid in s.callers && s'.callers[rid] == s.callers[rid] {
          StillWasCurrent(log, log', f, phase.answer.token);
        } else {
          LiveIsCurrent(s'.provider, f);
        }
      }
    }
  }

  lemma HistoryStep(p: Params, s: System, a: Action)
    requires Inv(p.config, s) && HistoryInv(s) && Enabled(p, s, a)
    ensures HistoryInv(Step(p, s, a))
  {
    if a.Commit? && P.Renews(s.provider, P.Commit(a.rid)) { AnswerIsForCaller(p.config, s, a.rid); }
    NewValues(p, s, a);
    StepProvider(p, s, a);
    HistoryFrame(s, Step(p, s, a));
  }

  lemma PendingIsForCaller(c: Config, s: System, rid: nat)
    requires Link(c, s) && P.IssuedInv(s.provider) && CommitFacts(s.provider, rid)
    requires rid in s.callers && s.callers[rid].phase.Asked?
    ensures s.callers[rid].flowId == s.provider.pending[rid].next.flowId
  {
    assert CallerOk(c, s, rid) && PendingOk(c, s, rid);
    assert TokenOk(c, s, s.callers[rid].flowId);
  }

  lemma AnswerIsForCaller(c: Config, s: System, rid: nat)
    requires Inv(c, s) && rid in s.callers && s.callers[rid].phase.Asked? && P.Renews(s.provider, P.Commit(rid))
    ensures CommitFacts(s.provider, rid) && s.callers[rid].flowId == s.provider.pending[rid].next.flowId
  {
    CommitFactsHold(s.provider, rid);
    PendingIsForCaller(c, s, rid);
  }

  // ---------------------------------------------------------------- runs

  ghost predicate IsRun(p: Params, states: seq<System>, actions: seq<Action>) {
    && |states| == |actions| + 1 && states[0] == INITIAL
    && forall i :: 0 <= i < |actions| ==> Enabled(p, states[i], actions[i]) && states[i + 1] == Step(p, states[i], actions[i])
  }

  lemma {:induction false} RunInv(p: Params, states: seq<System>, actions: seq<Action>, n: nat)
    requires IsRun(p, states, actions) && n <= |actions|
    ensures Inv(p.config, states[n]) && HistoryInv(states[n])
  {
    if n == 0 {
      P.InitialInv();
    } else {
      RunInv(p, states, actions, n - 1);
      StepInv(p, states[n - 1], actions[n - 1]);
      HistoryStep(p, states[n - 1], actions[n - 1]);
    }
  }

  /** In every interleaving of any number of refreshing calls, without any lock: the two sides agree on
      the flow's token, up to one answer on its way, exactly unless the flow is live and has lost an
      answer since its token was saved. */
  lemma SidesAgree(p: Params, states: seq<System>, actions: seq<Action>, n: nat, f: string)
    requires IsRun(p, states, actions) && n <= |actions|
    ensures Agreement(p.config, states[n], f) <==> !(f in states[n].lost && f in states[n].provider.store.byFlow)
    ensures f in states[n].lost ==> f in states[n].tokens && Dead(states[n].provider, StoredHash(p.config, states[n], f))
  {
    RunInv(p, states, actions, n);
    assert f in states[n].lost ==> LostOk(p.config, states[n], f);
    if f in states[n].tokens && f in states[n].provider.store.byFlow {
      LinkAgreement(p.config, states[n], f);
    }
  }

  /** Where no answer is lost no flow has lost one. */
  lemma {:induction false} NothingLost(p: Params, states: seq<System>, actions: seq<Action>, n: nat)
    requires IsRun(p, states, actions) && n <= |actions| && forall i :: 0 <= i < n ==> !actions[i].Lose?
    ensures states[n].lost == {}
  {
    if n > 0 { NothingLost(p, states, actions, n - 1); }
  }

  /** A request of the flow that the provider turns down: it does not find the refresh token, or its
      update does not find the entry. */
  predicate Refused(s: System, s': System, a: Action) {
    match a
    case Look(rid, _) => rid in s'.callers && s'.callers[rid].phase.Failed?
    case Commit(rid, _) => rid in s'.callers && s'.callers[rid].phase.Failed?
    case _ => true
  }

  /** Once a flow has lost an answer, every later refresh of it is refused until its token is saved anew or
      deleted, and a token is only handed out while the stored one is not due. */
  lemma RefusedAfterLoss(p: Params, states: seq<System>, actions: seq<Action>, n: nat)
    requires IsRun(p, states, actions) && n < |actions| && (actions[n].Look? || actions[n].Commit?)
    requires states[n].callers[actions[n].rid].flowId in states[n].lost
    ensures Refused(states[n], states[n + 1], actions[n])
    ensures states[n + 1].provider.store == states[n].provider.store
  {
    RunInv(p, states, actions, n);
    RefusedWhenLost(p, states[n], actions[n]);
  }

  lemma RefusedWhenLost(p: Params, s: System, a: Action)
    requires Link(p.config, s) && Enabled(p, s, a) && (a.Look? || a.Commit?) && s.callers[a.rid].flowId in s.lost
    ensures Refused(s, Step(p, s, a), a) && Step(p, s, a).provider.store == s.provider.store
  {
    var f := s.callers[a.rid].flowId;
    assert LostOk(p.config, s, f) && CallerOk(p.config, s, a.rid);
    if a.Commit? { assert PendingOk(p.config, s, a.rid); }
  }

  /** Only saving the token anew or deleting it ends that. */
  lemma LostUntilSaved(p: Params, s: System, a: Action, f: string)
    requires Enabled(p, s, a) && f in s.lost && !(a.Grant? && a.data.identifier == f) && a != Delete(f)
    ensures f in Step(p, s, a).lost
  {
  }

  /** A token that is handed out as stored is handed out exactly while it is not due: on the first look, or
      when it is read again under the lock. */
  lemma HandedOutWhileFreshIff(p: Params, s: System, a: Action)
    requires Enabled(p, s, a) && (a.Start? || a.Reread?)
    ensures var f, s' := if a.Start? then a.flowId else s.callers[a.rid].flowId, Step(p, s, a);
            && a.rid in s'.callers && s'.callers[a.rid].flowId == f
            && s'.tokens == s.tokens && s'.provider == s.provider
            && (f !in s.tokens ==> s'.callers[a.rid].phase == Failed)
            && (f in s.tokens ==>
                  if a.now < s.tokens[f].expiresAt - p.refreshBeforeExpiry
                  then s'.callers[a.rid].phase == Returned(s.tokens[f].token)
                  else s'.callers[a.rid].phase == if a.Start? then Expired else Asking(s.tokens[f]))
  {
  }

  /** The step hands the token out: as stored, and not yet due, or as the answer to a refresh. */
  predicate HandsOut(p: Params, s: System, a: Action, rid: nat, token: string) {
    if a.WriteBack? then
      a.rid == rid && In(s, rid) && s.callers[rid].phase.Answered? && s.callers[rid].phase.answer.token == token
    else
      && (a.Start? || (a.Reread? && In(s, rid))) && a.rid == rid
      && var f := if a.Start? then a.flowId else s.callers[rid].flowId;
         f in s.tokens && a.now < s.tokens[f].expiresAt - p.refreshBeforeExpiry && s.tokens[f].token == token
  }

  lemma HandsOutOrHadBefore(p: Params, s: System, a: Action, rid: nat)
    requires Enabled(p, s, a) && In(Step(p, s, a), rid) && Step(p, s, a).callers[rid].phase.Returned?
    ensures var token := Step(p, s, a).callers[rid].phase.token;
            HandsOut(p, s, a, rid, token) || (In(s, rid) && s.callers[rid].phase == Returned(token))
  {
  }

  /** In every run, a token handed out was not yet due when it was read, or had just been refreshed. */
  lemma {:induction false} ReturnedWasFreshOrRefreshed(p: Params, states: seq<System>, actions: seq<Action>, n: nat, rid: nat)
    requires IsRun(p, states, actions) && n <= |actions|
    requires In(states[n], rid) && states[n].callers[rid].phase.Returned?
    ensures exists i :: 0 <= i < n && HandsOut(p, states[i], actions[i], rid, states[n].callers[rid].phase.token)
  {
    HandsOutOrHadBefore(p, states[n - 1], actions[n - 1], rid);
    if !HandsOut(p, states[n - 1], actions[n - 1], rid, states[n].callers[rid].phase.token) {
      ReturnedWasFreshOrRefreshed(p, states, actions, n - 1, rid);
    }
  }

  /** Every token `get_token` hands out was, at some moment, the provider's current one. */
  lemma ReturnedTokenWasCurrent(p: Params, states: seq<System>, actions: seq<Action>, n: nat, rid: nat)
    requires IsRun(p, states, actions) && n <= |actions|
    requires rid in states[n].callers && states[n].callers[rid].phase.Returned?
    ensures WasCurrent(states[n].provider.log, states[n].callers[rid].flowId, states[n].callers[rid].phase.token)
  {
    RunInv(p, states, actions, n);
  }
}
