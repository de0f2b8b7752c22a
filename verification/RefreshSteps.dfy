/**
 `get_token` as a whole against its steps: undisturbed, the steps of the rotation protocol leave the two
 sides in the state that the methods of the client and of the token manager ensure.
 */
module RefreshSteps {
  import opened Wrappers
  import opened TokenTypes
  import opened RenewableTokenStore
  import opened TokenManager
  import opened TokenClient
  import P = ProviderProtocol
  import R = RotationProtocol
  import L = LockedRotation

  /** The readings and random values of one refresh: the two checks of the expiry, the bound token, what
      the provider draws, and the seconds the new token is good for with the clock they are added to. */
  datatype Refresh = Refresh(first: int, second: int, bound: string, minted: int, jti: string, refreshToken: string,
                             expiresIn: int, received: int)

  /** The bound token the OAuth client sends passes the provider's check for what is stored, whenever
      verifying gives back what was signed. */
  lemma BoundIsHonest(c: Config, pc: ParticipantContext, d: TokenData, jti: string, now: int, seconds: int, bound: string)
    requires c.clientVerify(d.counterPartyId, bound) == Ok(BoundClaims(RequestFor(pc, d), jti, now, seconds))
    ensures L.Honest(c, d, bound)
    ensures forall e: Entry :: e.audience == d.counterPartyId && e.subject == d.participantId ==>
              (CheckBound(c, e, bound).Ok? <==> e.token == d.token)
  {
  }

  /** The provider can renew: the refresh token is live, the bound token passes, and the drawn values are new. */
  ghost predicate Renewable(c: Config, s: P.Provider, rid: nat, d: TokenData, x: Refresh) {
    var h := c.hash(d.refreshToken);
    && rid !in s.pending && h in s.store.byHash
    && x.jti !in s.ids && c.hash(x.refreshToken) !in s.hashes
    && NextEntry(c, s.store.byHash[h], x.bound, x.minted, x.jti, x.refreshToken).Ok?
  }

  function Next(c: Config, s: P.Provider, d: TokenData, x: Refresh): Entry
    requires c.hash(d.refreshToken) in s.store.byHash
    requires NextEntry(c, s.store.byHash[c.hash(d.refreshToken)], x.bound, x.minted, x.jti, x.refreshToken).Ok?
  {
    NextEntry(c, s.store.byHash[c.hash(d.refreshToken)], x.bound, x.minted, x.jti, x.refreshToken).value
  }

  /** What the answer to a request is once the client has taken it apart. */
  function Answer(pc: ParticipantContext, d: TokenData, e: Entry, x: Refresh): RefreshedTokenData {
    RefreshedFrom(RequestFor(pc, d), TokenResponse(e.token, Some(x.refreshToken), x.expiresIn), x.received)
  }

  /** The next entry is drawn and signed. */
  lemma MintStep(p: R.Params, s: R.System, rid: nat, f: string, d: TokenData, x: Refresh, h: string, prev: Entry)
    requires rid in s.callers && s.callers[rid] == R.Caller(f, R.Asked(d))
    requires rid in s.provider.pending && s.provider.pending[rid] == P.Looked(h, prev, x.bound)
    requires x.jti !in s.provider.ids && p.config.hash(x.refreshToken) !in s.provider.hashes
    requires NextEntry(p.config, prev, x.bound, x.minted, x.jti, x.refreshToken).Ok?
    ensures var mint := R.Mint(rid, x.minted, x.jti, x.refreshToken);
            && R.Enabled(p, s, mint)
            && var s1, e := R.Step(p, s, mint), NextEntry(p.config, prev, x.bound, x.minted, x.jti, x.refreshToken).value;
               && s1.tokens == s.tokens && s1.callers == s.callers && s1.provider.store == s.provider.store
               && rid in s1.provider.pending && s1.provider.pending[rid] == P.Ready(h, prev, e, x.refreshToken)
  {
    assert s.callers[rid := R.Caller(f, R.Asked(d))] == s.callers;
  }

  /** The update succeeds and the answer is on its way. */
  lemma CommitStep(p: R.Params, s: R.System, rid: nat, f: string, d: TokenData, x: Refresh, h: string, prev: Entry,
                   e: Entry, pc: ParticipantContext)
    requires rid in s.callers && s.callers[rid] == R.Caller(f, R.Asked(d)) && h in s.provider.store.byHash
    requires rid in s.provider.pending && s.provider.pending[rid] == P.Ready(h, prev, e, x.refreshToken)
    ensures var commit := R.Commit(rid, x.received + 1000 * x.expiresIn);
            && R.Enabled(p, s, commit)
            && var s1 := R.Step(p, s, commit);
               && s1.tokens == s.tokens && s1.callers == s.callers[rid := R.Caller(f, R.Answered(Answer(pc, d, e, x)))]
               && Ok(s1.provider.store) == Updated(s.provider.store, h, e)
  {
  }

  /** The answer is written back. */
  lemma WriteBackStep(p: R.Params, s: R.System, rid: nat, f: string, a: RefreshedTokenData)
    requires rid in s.callers && s.callers[rid] == R.Caller(f, R.Answered(a)) && f in s.tokens
    ensures R.Enabled(p, s, R.WriteBack(rid))
    ensures var s1 := R.Step(p, s, R.WriteBack(rid));
            && s1.tokens == s.tokens[f := Refreshed(s.tokens[f], a)] && s1.provider == s.provider
            && s1.callers == s.callers[rid := R.Caller(f, R.Returned(a.token))]
  {
  }

  /** The actions lead from one state to the other, each of them a step in its turn. */
  ghost predicate Leads<S(!new), A(!new)>(next: (S, A, S) -> bool, s: S, actions: seq<A>, s': S)
    decreases |actions|
  {
    if actions == [] then s == s'
    else exists mid :: next(s, actions[0], mid) && Leads(next, mid, actions[1..], s')
  }

  lemma {:induction false} LeadsOn<S(!new), A(!new)>(next: (S, A, S) -> bool, s: S, a: seq<A>, s': S, b: seq<A>, s'': S)
    requires Leads(next, s, a, s') && Leads(next, s', b, s'')
    ensures Leads(next, s, a + b, s'')
    decreases |a|
  {
    if a == [] {
      assert a + b == b;
    } else {
      var mid :| next(s, a[0], mid) && Leads(next, mid, a[1..], s');
      LeadsOn(next, mid, a[1..], s', b, s'');
      assert (a + b)[1..] == a[1..] + b;
    }
  }

  /** The steps of the rotation protocol. */
  ghost function Steps(p: R.Params): (R.System, R.Action, R.System) -> bool {
    (s, a, s') => R.Enabled(p, s, a) && s' == R.Step(p, s, a)
  }

  function Before(rid: nat, f: string, x: Refresh): seq<R.Action> {
    [R.Start(rid, f, x.first), R.Enter(rid), R.Reread(rid, x.second)]
  }

  function Ask(rid: nat, x: Refresh): seq<R.Action> {
    [R.Look(rid, x.bound), R.Mint(rid, x.minted, x.jti, x.refreshToken)]
  }

  function Complete(rid: nat, x: Refresh): seq<R.Action> {
    [R.Commit(rid, x.received + 1000 * x.expiresIn), R.WriteBack(rid)]
  }

  /** What `get_token` comes to for a token that is due and a provider that can renew it: the new token is
      handed out, the consumer stores what its method ensures, the provider what `renew` ensures. */
  ghost predicate Done(p: R.Params, s: R.System, s': R.System, rid: nat, f: string, x: Refresh, pc: ParticipantContext)
    requires f in s.tokens && Renewable(p.config, s.provider, rid, s.tokens[f], x)
  {
    var d, e := s.tokens[f], Next(p.config, s.provider, s.tokens[f], x);
    && Ok(s'.provider.store) == Updated(s.provider.store, p.config.hash(d.refreshToken), e)
    && s'.tokens == s.tokens[f := Refreshed(d, Answer(pc, d, e, x))]
    && s'.callers == s.callers[rid := R.Caller(f, R.Returned(e.token))]
  }

  lemma One(p: R.Params, s: R.System, a: R.Action)
    requires R.Enabled(p, s, a)
    ensures Leads(Steps(p), s, [a], R.Step(p, s, a))
  {
    assert Steps(p)(s, a, R.Step(p, s, a));
    assert Leads(Steps(p), R.Step(p, s, a), [a][1..], R.Step(p, s, a));
  }

  lemma Two(p: R.Params, s: R.System, a: R.Action, b: R.Action)
    requires R.Enabled(p, s, a) && R.Enabled(p, R.Step(p, s, a), b)
    ensures Leads(Steps(p), s, [a, b], R.Step(p, R.Step(p, s, a), b))
  {
    One(p, s, a);
    One(p, R.Step(p, s, a), b);
    LeadsOn(Steps(p), s, [a], R.Step(p, s, a), [b], R.Step(p, R.Step(p, s, a), b));
    assert [a] + [b] == [a, b];
  }

  lemma AskLeads(p: R.Params, s: R.System, rid: nat, f: string, d: TokenData, x: Refresh) returns (s': R.System)
    requires rid in s.callers && s.callers[rid] == R.Caller(f, R.Asking(d)) && Renewable(p.config, s.provider, rid, d, x)
    ensures Leads(Steps(p), s, Ask(rid, x), s')
    ensures var h := p.config.hash(d.refreshToken);
            && s'.tokens == s.tokens && s'.callers == s.callers[rid := R.Caller(f, R.Asked(d))]
            && s'.provider.store == s.provider.store && rid in s'.provider.pending
            && s'.provider.pending[rid] == P.Ready(h, s.provider.store.byHash[h], Next(p.config, s.provider, d, x), x.refreshToken)
  {
    var h := p.config.hash(d.refreshToken);
    var look, mint := R.Look(rid, x.bound), R.Mint(rid, x.minted, x.jti, x.refreshToken);
    FoundStep(p, s, rid, f, d, x);
    var s1 := R.Step(p, s, look);
    MintStep(p, s1, rid, f, d, x, h, s.provider.store.byHash[h]);
    Two(p, s, look, mint);
    s' := R.Step(p, s1, mint);
  }

  lemma AnswerLeads(p: R.Params, s: R.System, rid: nat, f: string, d: TokenData, x: Refresh, h: string, prev: Entry,
                    e: Entry, pc: ParticipantContext) returns (s': R.System)
    requires rid in s.callers && s.callers[rid] == R.Caller(f, R.Asked(d)) && h in s.provider.store.byHash && f in s.tokens
    requires rid in s.provider.pending && s.provider.pending[rid] == P.Ready(h, prev, e, x.refreshToken)
    ensures Leads(Steps(p), s, Complete(rid, x), s')
    ensures && Ok(s'.provider.store) == Updated(s.provider.store, h, e)
            && s'.tokens == s.tokens[f := Refreshed(s.tokens[f], Answer(pc, d, e, x))]
            && s'.callers == s.callers[rid := R.Caller(f, R.Returned(e.token))]
  {
    var commit, writeBack := R.Commit(rid, x.received + 1000 * x.expiresIn), R.WriteBack(rid);
    CommitStep(p, s, rid, f, d, x, h, prev, e, pc);
    var s1 := R.Step(p, s, commit);
    WriteBackStep(p, s1, rid, f, Answer(pc, d, e, x));
    Two(p, s, commit, writeBack);
    s' := R.Step(p, s1, writeBack);
  }

  lemma AfterLeads(p: R.Params, s: R.System, s0: R.System, rid: nat, f: string, x: Refresh, pc: ParticipantContext)
    returns (s': R.System)
    requires f in s.tokens && Renewable(p.config, s.provider, rid, s.tokens[f], x)
    requires s0 == s.(callers := s.callers[rid := R.Caller(f, R.Asking(s.tokens[f]))])
    ensures Leads(Steps(p), s0, Ask(rid, x) + Complete(rid, x), s') && Done(p, s, s', rid, f, x, pc)
  {
    var s1 := AskLeads(p, s0, rid, f, s.tokens[f], x);
    s' := CompleteLeads(p, s, s1, rid, f, x, pc);
    LeadsOn(Steps(p), s0, Ask(rid, x), s1, Complete(rid, x), s');
  }

  lemma CompleteLeads(p: R.Params, s: R.System, s1: R.System, rid: nat, f: string, x: Refresh, pc: ParticipantContext)
    returns (s': R.System)
    requires f in s.tokens && Renewable(p.config, s.provider, rid, s.tokens[f], x)
    requires s1.tokens == s.tokens && s1.callers == s.callers[rid := R.Caller(f, R.Asked(s.tokens[f]))]
    requires s1.provider.store == s.provider.store && rid in s1.provider.pending
    requires var h := p.config.hash(s.tokens[f].refreshToken);
             s1.provider.pending[rid] ==
             P.Ready(h, s.provider.store.byHash[h], Next(p.config, s.provider, s.tokens[f], x), x.refreshToken)
    ensures Leads(Steps(p), s1, Complete(rid, x), s') && Done(p, s, s', rid, f, x, pc)
  {
    var d, e, h := s.tokens[f], Next(p.config, s.provider, s.tokens[f], x), p.config.hash(s.tokens[f].refreshToken);
    s' := AnswerLeads(p, s1, rid, f, d, x, h, s.provider.store.byHash[h], e, pc);
  }

  lemma StartStep(p: R.Params, s: R.System, rid: nat, f: string, x: Refresh)
    requires rid !in s.callers && f in s.tokens && Expiring(x.first, s.tokens[f].expiresAt, p.refreshBeforeExpiry)
    ensures R.Enabled(p, s, R.Start(rid, f, x.first))
    ensures R.Step(p, s, R.Start(rid, f, x.first)) == s.(callers := s.callers[rid := R.Caller(f, R.Expired)])
  {
  }

  lemma RereadStep(p: R.Params, s: R.System, rid: nat, f: string, x: Refresh)
    requires rid in s.callers && s.callers[rid] == R.Caller(f, R.Entered) && f in s.tokens
    ensures R.Enabled(p, s, R.Reread(rid, x.second))
    ensures var d := s.tokens[f];
            var phase := if Expiring(x.second, d.expiresAt, p.refreshBeforeExpiry) then R.Asking(d) else R.Returned(d.token);
            R.Step(p, s, R.Reread(rid, x.second)) == s.(callers := s.callers[rid := R.Caller(f, phase)])
  {
  }

  lemma BeforeLeads(p: R.Params, s: R.System, rid: nat, f: string, x: Refresh)
    requires rid !in s.callers && f in s.tokens && Expiring(x.first, s.tokens[f].expiresAt, p.refreshBeforeExpiry)
    ensures var d := s.tokens[f];
            var phase := if Expiring(x.second, d.expiresAt, p.refreshBeforeExpiry) then R.Asking(d) else R.Returned(d.token);
            Leads(Steps(p), s, Before(rid, f, x), s.(callers := s.callers[rid := R.Caller(f, phase)]))
  {
    var start, enter, reread := R.Start(rid, f, x.first), R.Enter(rid), R.Reread(rid, x.second);
    StartStep(p, s, rid, f, x);
    var s1 := R.Step(p, s, start);
    var s2 := R.Step(p, s1, enter);
    assert s2.callers == s.callers[rid := R.Caller(f, R.Entered)];
    RereadStep(p, s2, rid, f, x);
    var s3 := R.Step(p, s2, reread);
    assert s3.callers == s.callers[rid := s3.callers[rid]];
    Two(p, s, start, enter);
    One(p, s2, reread);
    LeadsOn(Steps(p), s, [start, enter], s2, [reread], s3);
    assert [start, enter] + [reread] == Before(rid, f, x);
  }

  /** A call that finds the token due twice, and that the provider can serve, is these steps. */
  lemma GetTokenIsItsSteps(p: R.Params, s: R.System, rid: nat, f: string, x: Refresh, pc: ParticipantContext)
    requires rid !in s.callers && f in s.tokens && Renewable(p.config, s.provider, rid, s.tokens[f], x)
    requires Expiring(x.first, s.tokens[f].expiresAt, p.refreshBeforeExpiry)
    requires Expiring(x.second, s.tokens[f].expiresAt, p.refreshBeforeExpiry)
    ensures exists s' :: Leads(Steps(p), s, Before(rid, f, x) + (Ask(rid, x) + Complete(rid, x)), s') && Done(p, s, s', rid, f, x, pc)
  {
    var s0 := s.(callers := s.callers[rid := R.Caller(f, R.Asking(s.tokens[f]))]);
    BeforeLeads(p, s, rid, f, x);
    var s' := AfterLeads(p, s, s0, rid, f, x, pc);
    LeadsOn(Steps(p), s, Before(rid, f, x), s0, Ask(rid, x) + Complete(rid, x), s');
  }

  // ---------------------------------------------------------------- the other outcomes

  /** The call has ended; the consumer's tokens and the provider's store are as they were. */
  predicate Ended(s: R.System, s': R.System, rid: nat, f: string, phase: R.Phase) {
    s'.callers == s.callers[rid := R.Caller(f, phase)] && s'.tokens == s.tokens && s'.provider.store == s.provider.store
  }

  /** These steps take the call from its beginning to its end and change nothing else. */
  ghost predicate EndsBy(p: R.Params, s: R.System, actions: seq<R.Action>, rid: nat, f: string, phase: R.Phase) {
    exists s' :: Leads(Steps(p), s, actions, s') && Ended(s, s', rid, f, phase)
  }

  lemma EndsAfter(p: R.Params, s: R.System, before: seq<R.Action>, s0: R.System, last: R.Action, rid: nat, f: string, phase: R.Phase)
    requires Leads(Steps(p), s, before, s0) && R.Enabled(p, s0, last) && Ended(s, R.Step(p, s0, last), rid, f, phase)
    ensures EndsBy(p, s, before + [last], rid, f, phase)
  {
    One(p, s0, last);
    LeadsOn(Steps(p), s, before, s0, [last], R.Step(p, s0, last));
  }

  /** `get_token` at its first look: an error without a stored token, the stored one while it is fresh. */
  lemma FirstLookIsOneStep(p: R.Params, s: R.System, rid: nat, f: string, x: Refresh)
    requires rid !in s.callers && (f in s.tokens ==> !Expiring(x.first, s.tokens[f].expiresAt, p.refreshBeforeExpiry))
    ensures EndsBy(p, s, [R.Start(rid, f, x.first)], rid, f, if f in s.tokens then R.Returned(s.tokens[f].token) else R.Failed)
  {
    One(p, s, R.Start(rid, f, x.first));
  }

  /** Refused by the lock: an error. */
  lemma LockRefusalIsTwoSteps(p: R.Params, s: R.System, rid: nat, f: string, x: Refresh)
    requires rid !in s.callers && f in s.tokens && Expiring(x.first, s.tokens[f].expiresAt, p.refreshBeforeExpiry)
    ensures EndsBy(p, s, [R.Start(rid, f, x.first), R.GiveUp(rid)], rid, f, R.Failed)
  {
    StartStep(p, s, rid, f, x);
    Two(p, s, R.Start(rid, f, x.first), R.GiveUp(rid));
    var s1 := R.Step(p, s, R.Start(rid, f, x.first));
    assert R.Step(p, s1, R.GiveUp(rid)).callers == s.callers[rid := R.Caller(f, R.Failed)];
  }

  /** Found fresh under the lock: the stored token. */
  lemma FreshOnRereadIsThreeSteps(p: R.Params, s: R.System, rid: nat, f: string, x: Refresh)
    requires rid !in s.callers && f in s.tokens && Expiring(x.first, s.tokens[f].expiresAt, p.refreshBeforeExpiry)
    requires !Expiring(x.second, s.tokens[f].expiresAt, p.refreshBeforeExpiry)
    ensures EndsBy(p, s, Before(rid, f, x), rid, f, R.Returned(s.tokens[f].token))
  {
    BeforeLeads(p, s, rid, f, x);
  }

  /** The refresh fails before it reaches the provider, or its refresh token is not found there: an error. */
  lemma FailedRequestIsSteps(p: R.Params, s: R.System, rid: nat, f: string, x: Refresh)
    requires rid !in s.callers && f in s.tokens && rid !in s.provider.pending
    requires Expiring(x.first, s.tokens[f].expiresAt, p.refreshBeforeExpiry)
    requires Expiring(x.second, s.tokens[f].expiresAt, p.refreshBeforeExpiry)
    ensures EndsBy(p, s, Before(rid, f, x) + [R.GiveUp(rid)], rid, f, R.Failed)
    ensures p.config.hash(s.tokens[f].refreshToken) !in s.provider.store.byHash ==>
              EndsBy(p, s, Before(rid, f, x) + [R.Look(rid, x.bound)], rid, f, R.Failed)
  {
    var s0 := s.(callers := s.callers[rid := R.Caller(f, R.Asking(s.tokens[f]))]);
    BeforeLeads(p, s, rid, f, x);
    var given := R.Step(p, s0, R.GiveUp(rid));
    assert given.callers == s.callers[rid := R.Caller(f, R.Failed)];
    EndsAfter(p, s, Before(rid, f, x), s0, R.GiveUp(rid), rid, f, R.Failed);
    if p.config.hash(s.tokens[f].refreshToken) !in s.provider.store.byHash {
      UnknownStep(p, s0, rid, f, s.tokens[f], x);
      EndsAfter(p, s, Before(rid, f, x), s0, R.Look(rid, x.bound), rid, f, R.Failed);
    }
  }

  lemma UnknownStep(p: R.Params, s: R.System, rid: nat, f: string, d: TokenData, x: Refresh)
    requires rid in s.callers && s.callers[rid] == R.Caller(f, R.Asking(d)) && rid !in s.provider.pending
    requires p.config.hash(d.refreshToken) !in s.provider.store.byHash
    ensures R.Enabled(p, s, R.Look(rid, x.bound))
    ensures var s' := R.Step(p, s, R.Look(rid, x.bound));
            s'.callers == s.callers[rid := R.Caller(f, R.Failed)] && s'.tokens == s.tokens && s'.provider == s.provider
  {
  }

  /** The provider does not accept the bound token, or cannot sign or date the new one: an error. */
  lemma RefusedRenewalIsSteps(p: R.Params, s: R.System, rid: nat, f: string, x: Refresh)
    requires rid !in s.callers && f in s.tokens && rid !in s.provider.pending
    requires Expiring(x.first, s.tokens[f].expiresAt, p.refreshBeforeExpiry)
    requires Expiring(x.second, s.tokens[f].expiresAt, p.refreshBeforeExpiry)
    requires x.jti !in s.provider.ids && p.config.hash(x.refreshToken) !in s.provider.hashes
    requires var h := p.config.hash(s.tokens[f].refreshToken);
             && h in s.provider.store.byHash
             && NextEntry(p.config, s.provider.store.byHash[h], x.bound, x.minted, x.jti, x.refreshToken).Err?
    ensures EndsBy(p, s, Before(rid, f, x) + Ask(rid, x), rid, f, R.Failed)
  {
    var s0 := s.(callers := s.callers[rid := R.Caller(f, R.Asking(s.tokens[f]))]);
    BeforeLeads(p, s, rid, f, x);
    var s2 := RefusedAsk(p, s0, rid, f, s.tokens[f], x);
    LeadsOn(Steps(p), s, Before(rid, f, x), s0, Ask(rid, x), s2);
  }

  lemma RefusedAsk(p: R.Params, s: R.System, rid: nat, f: string, d: TokenData, x: Refresh) returns (s': R.System)
    requires rid in s.callers && s.callers[rid] == R.Caller(f, R.Asking(d)) && rid !in s.provider.pending
    requires x.jti !in s.provider.ids && p.config.hash(x.refreshToken) !in s.provider.hashes
    requires p.config.hash(d.refreshToken) in s.provider.store.byHash
    requires NextEntry(p.config, s.provider.store.byHash[p.config.hash(d.refreshToken)], x.bound, x.minted, x.jti, x.refreshToken).Err?
    ensures Leads(Steps(p), s, Ask(rid, x), s') && Ended(s, s', rid, f, R.Failed)
  {
    var h, look, mint := p.config.hash(d.refreshToken), R.Look(rid, x.bound), R.Mint(rid, x.minted, x.jti, x.refreshToken);
    FoundStep(p, s, rid, f, d, x);
    var s1 := R.Step(p, s, look);
    FailedMintStep(p, s1, rid, f, d, x, h, s.provider.store.byHash[h]);
    Two(p, s, look, mint);
    s' := R.Step(p, s1, mint);
  }

  /** The request finds the entry, whether or not it can be renewed. */
  lemma FoundStep(p: R.Params, s: R.System, rid: nat, f: string, d: TokenData, x: Refresh)
    requires rid in s.callers && s.callers[rid] == R.Caller(f, R.Asking(d)) && rid !in s.provider.pending
    requires p.config.hash(d.refreshToken) in s.provider.store.byHash
    ensures R.Enabled(p, s, R.Look(rid, x.bound))
    ensures var h, s1 := p.config.hash(d.refreshToken), R.Step(p, s, R.Look(rid, x.bound));
            && s1.tokens == s.tokens && s1.callers == s.callers[rid := R.Caller(f, R.Asked(d))]
            && s1.provider == s.provider.(pending := s.provider.pending[rid := P.Looked(h, s.provider.store.byHash[h], x.bound)])
  {
  }

  lemma FailedMintStep(p: R.Params, s: R.System, rid: nat, f: string, d: TokenData, x: Refresh, h: string, prev: Entry)
    requires rid in s.callers && s.callers[rid] == R.Caller(f, R.Asked(d))
    requires rid in s.provider.pending && s.provider.pending[rid] == P.Looked(h, prev, x.bound)
    requires x.jti !in s.provider.ids && p.config.hash(x.refreshToken) !in s.provider.hashes
    requires NextEntry(p.config, prev, x.bound, x.minted, x.jti, x.refreshToken).Err?
    ensures var mint := R.Mint(rid, x.minted, x.jti, x.refreshToken);
            && R.Enabled(p, s, mint)
            && var s1 := R.Step(p, s, mint);
               s1.tokens == s.tokens && s1.callers == s.callers[rid := R.Caller(f, R.Failed)] && s1.provider.store == s.provider.store
  {
  }
}
