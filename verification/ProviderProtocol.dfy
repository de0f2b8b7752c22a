/**
 The token manager under concurrency: any number of `renew` calls are in progress at once, each going
 through its three shared-state steps (find by hash, mint, update by old hash), between `generate_pair`
 and `revoke_token` calls. `log` records what changed the store, in order; it and the sets of values
 drawn or issued so far are history, read by no step but the freshness conditions.
 */
module ProviderProtocol {
  import opened Wrappers
  import opened Json
  import opened TokenTypes
  import opened RenewableTokenStore
  import opened TokenManager

  datatype Event =
    | Issued(entry: Entry)
    | Renewed(oldHash: string, entry: Entry)
    | Revoked(flowId: string)

  /** A `renew` call between its steps. */
  datatype Pending =
    | Looked(hash: string, entry: Entry, bound: string)
    | Ready(hash: string, entry: Entry, next: Entry, refreshToken: string)

  datatype Provider = Provider(
    store: Index,
    pending: map<nat, Pending>,
    log: seq<Event>,
    issued: map<string, Entry>,
    ids: set<string>,
    hashes: set<string>)

  const INITIAL: Provider := Provider(EMPTY, map[], [], map[], {}, {})

  datatype Action =
    | Generate(pc: ParticipantContext, subject: string, claims: Claims, flowId: string, now: int, jti: string,
               refreshToken: string)
    | Revoke(flowId: string)
    | Look(rid: nat, bound: string, refreshToken: string)
    | Mint(rid: nat, now: int, jti: string, refreshToken: string)
    | Commit(rid: nat)
    | Abandon(rid: nat)

  /** The environment's part: random values are new, one call per `rid`, and a flow is issued a token
      only when it has no live one. */
  ghost predicate Enabled(c: Config, s: Provider, a: Action) {
    match a
    case Generate(_, _, _, flowId, _, jti, refreshToken) =>
      jti !in s.ids && c.hash(refreshToken) !in s.hashes && flowId !in s.store.byFlow
    case Revoke(_) => true
    case Look(rid, _, _) => rid !in s.pending
    case Mint(rid, _, jti, refreshToken) =>
      rid in s.pending && s.pending[rid].Looked? && jti !in s.ids && c.hash(refreshToken) !in s.hashes
    case Commit(rid) => rid in s.pending && s.pending[rid].Ready?
    case Abandon(rid) => rid in s.pending
  }

  /** A random token id and the hash of a random refresh token have been drawn. */
  function Drawn(s: Provider, id: string, hash: string): Provider {
    s.(ids := s.ids + {id}, hashes := s.hashes + {hash})
  }

  function Issue(s: Provider, e: Entry): Provider {
    Drawn(s, e.id, e.hash).(store := Saved(s.store, e), log := s.log + [Issued(e)], issued := s.issued[e.hash := e])
  }

  function Withdraw(s: Provider, flowId: string): Provider {
    match Removed(s.store, flowId)
    case Err(_) => s
    case Ok(t) => s.(store := t, log := s.log + [Revoked(flowId)])
  }

  function Enter(s: Provider, rid: nat, p: Pending): Provider { s.(pending := s.pending[rid := p]) }

  function Leave(s: Provider, rid: nat): Provider { s.(pending := s.pending - {rid}) }

  /** The atomic `update` a `renew` call ends with. */
  function Replace(s: Provider, rid: nat, p: Pending): Provider
    requires p.Ready?
  {
    match Updated(s.store, p.hash, p.next)
    case Err(_) => Leave(s, rid)
    case Ok(t) => Leave(s, rid).(store := t, log := s.log + [Renewed(p.hash, p.next)],
                                 issued := s.issued[p.next.hash := p.next])
  }

  function Step(c: Config, s: Provider, a: Action): Provider {
    match a
    case Generate(pc, subject, claims, flowId, now, jti, refreshToken) =>
      if !AllowedClaims(claims) then s else
      (match NewEntry(c, pc, subject, claims, flowId, now, jti, refreshToken)
       case Err(_) => Drawn(s, jti, c.hash(refreshToken))
       case Ok(e) => Issue(s, e))
    case Revoke(flowId) => Withdraw(s, flowId)
    case Look(rid, bound, refreshToken) =>
      (match Find(s.store.byHash, c.hash(refreshToken))
       case Err(_) => s
       case Ok(e) => Enter(s, rid, Looked(c.hash(refreshToken), e, bound)))
    case Mint(rid, now, jti, refreshToken) =>
      if rid !in s.pending || !s.pending[rid].Looked? then s else
      var p := s.pending[rid];
      (match NextEntry(c, p.entry, p.bound, now, jti, refreshToken)
       case Err(_) => Leave(Drawn(s, jti, c.hash(refreshToken)), rid)
       case Ok(next) => Enter(Drawn(s, jti, c.hash(refreshToken)), rid, Ready(p.hash, p.entry, next, refreshToken)))
    case Commit(rid) =>
      if rid !in s.pending || !s.pending[rid].Ready? then s else Replace(s, rid, s.pending[rid])
    case Abandon(rid) => Leave(s, rid)
  }

  // ---------------------------------------------------------------- history

  /** The entries of a flow since it was last issued, oldest first; empty when it is revoked or was
      never issued. */
  function Chain(log: seq<Event>, flowId: string): seq<Entry> {
    if log == [] then [] else
    var c := Chain(log[..|log| - 1], flowId);
    match log[|log| - 1]
    case Issued(e) => if e.flowId == flowId then [e] else c
    case Renewed(_, e) => if e.flowId == flowId then c + [e] else c
    case Revoked(f) => if f == flowId then [] else c
  }

  /** The newest token of a flow that is not revoked. */
  function Newest(log: seq<Event>, flowId: string): Option<Entry> {
    var c := Chain(log, flowId);
    if c == [] then None else Some(c[|c| - 1])
  }

  /** What is fixed by `generate_pair` for every later entry of the flow. */
  predicate SameGrant(e: Entry, e': Entry) {
    && e.subject == e'.subject && e.claims == e'.claims && e.audience == e'.audience
    && e.participantContextId == e'.participantContextId && e.flowId == e'.flowId
  }

  /** The renewal at `i` replaced the newest token of its flow, and kept what the flow was issued for. */
  ghost predicate Linear(log: seq<Event>, i: nat)
    requires i < |log|
  {
    log[i].Renewed? ==>
      var n := Newest(log[..i], log[i].entry.flowId);
      n.Some? && n.value.hash == log[i].oldHash && SameGrant(n.value, log[i].entry)
  }

  ghost predicate SpentOnce(log: seq<Event>) {
    forall i, j :: 0 <= i < j < |log| && log[i].Renewed? && log[j].Renewed? ==> log[i].oldHash != log[j].oldHash
  }

  // ---------------------------------------------------------------- invariant

  /** Every entry ever stored, by hash; a hash not live any more can never be live again. */
  ghost predicate IssuedInv(s: Provider) {
    && (forall h :: h in s.issued ==> s.issued[h].hash == h && h in s.hashes && s.issued[h].id in s.ids)
    && (forall h :: h in s.store.byHash ==> h in s.issued && s.issued[h] == s.store.byHash[h])
  }

  ghost predicate IdsDiffer(s: Provider) {
    forall h, k :: h in s.issued && k in s.issued && s.issued[h].id == s.issued[k].id ==> h == k
  }

  ghost predicate PendingKnown(s: Provider) {
    forall r :: r in s.pending ==>
      s.pending[r].hash in s.issued && s.issued[s.pending[r].hash] == s.pending[r].entry
  }

  /** The entry a call is about to store: drawn for it, not stored yet, for the same grant. */
  ghost predicate NotStored(s: Provider, p: Pending)
    requires p.Ready?
  {
    && p.next.hash in s.hashes && p.next.hash !in s.issued && p.next.id in s.ids
    && (forall h :: h in s.issued ==> s.issued[h].id != p.next.id)
    && SameGrant(p.entry, p.next)
  }

  ghost predicate PendingFresh(s: Provider) {
    forall r :: r in s.pending && s.pending[r].Ready? ==> NotStored(s, s.pending[r])
  }

  ghost predicate PendingDiffer(s: Provider) {
    forall r, q :: r in s.pending && q in s.pending && r != q && s.pending[r].Ready? && s.pending[q].Ready? ==>
      s.pending[r].next.hash != s.pending[q].next.hash && s.pending[r].next.id != s.pending[q].next.id
  }

  /** The store holds, for every flow, the newest entry of its chain. */
  ghost predicate StoreIsNewest(s: Provider) {
    forall f :: Newest(s.log, f) == if f in s.store.byFlow then Some(s.store.byFlow[f]) else None
  }

  ghost predicate LogInv(s: Provider) {
    && (forall i :: 0 <= i < |s.log| ==> Linear(s.log, i))
    && (forall i :: 0 <= i < |s.log| && s.log[i].Renewed? ==>
          s.log[i].oldHash in s.issued && s.log[i].oldHash !in s.store.byHash)
    && SpentOnce(s.log)
  }

  ghost predicate Inv(s: Provider) {
    && Aligned(s.store) && IssuedInv(s) && IdsDiffer(s)
    && PendingKnown(s) && PendingFresh(s) && PendingDiffer(s)
    && StoreIsNewest(s) && LogInv(s)
  }

  lemma InitialInv()
    ensures Inv(INITIAL)
  {
  }

  lemma LinearPrefix(log: seq<Event>, ev: Event)
    requires forall i :: 0 <= i < |log| ==> Linear(log, i)
    ensures forall i :: 0 <= i < |log| ==> Linear(log + [ev], i)
  {
    forall i | 0 <= i < |log| ensures Linear(log + [ev], i) {
      assert (log + [ev])[..i] == log[..i];
      assert Linear(log, i);
    }
  }

  lemma {:induction false} ChainStep(log: seq<Event>, ev: Event, f: string)
    ensures Chain(log + [ev], f) ==
              match ev
              case Issued(e) => if e.flowId == f then [e] else Chain(log, f)
              case Renewed(_, e) => if e.flowId == f then Chain(log, f) + [e] else Chain(log, f)
              case Revoked(g) => if g == f then [] else Chain(log, f)
  {
    assert (log + [ev])[..|log|] == log;
  }

  // ---------------------------------------------------------------- every step keeps the invariant

  lemma LogInvAppend(s: Provider, s': Provider, ev: Event)
    requires LogInv(s) && s'.log == s.log + [ev] && Linear(s'.log, |s.log|)
    requires s.issued.Keys <= s'.issued.Keys
    requires forall h :: h in s.issued && h !in s.store.byHash ==> h !in s'.store.byHash
    requires ev.Renewed? ==> ev.oldHash in s.issued && ev.oldHash in s.store.byHash && ev.oldHash !in s'.store.byHash
    ensures LogInv(s')
  {
    LinearPrefix(s.log, ev);
  }

  lemma NewestAppend(s: Provider, s': Provider, ev: Event)
    requires StoreIsNewest(s) && s'.log == s.log + [ev]
    requires match ev
             case Issued(e) => s'.store.byFlow == s.store.byFlow[e.flowId := e]
             case Renewed(_, e) => s'.store.byFlow == s.store.byFlow[e.flowId := e]
             case Revoked(f) => s'.store.byFlow == s.store.byFlow - {f}
    ensures StoreIsNewest(s')
  {
    forall f ensures Newest(s'.log, f) == if f in s'.store.byFlow then Some(s'.store.byFlow[f]) else None {
      ChainStep(s.log, ev, f);
      assert Newest(s.log, f) == if f in s.store.byFlow then Some(s.store.byFlow[f]) else None;
    }
  }

  lemma DrawnInv(s: Provider, id: string, hash: string)
    requires Inv(s)
    ensures Inv(Drawn(s, id, hash))
  {
    var s' := Drawn(s, id, hash);
    forall r | r in s'.pending && s'.pending[r].Ready? ensures NotStored(s', s'.pending[r]) {
      assert NotStored(s, s.pending[r]);
    }
  }

  lemma LeaveInv(s: Provider, rid: nat)
    requires Inv(s)
    ensures Inv(Leave(s, rid))
  {
    var s' := Leave(s, rid);
    forall r | r in s'.pending && s'.pending[r].Ready? ensures NotStored(s', s'.pending[r]) {
      assert NotStored(s, s.pending[r]);
    }
  }

  /** One more entry has been issued, whose id and hash nobody else has; what is stored was stored before
      or is that entry; the calls in progress are some of those there were. */
  ghost predicate StoresOne(s: Provider, s': Provider, e: Entry) {
    && e.hash !in s.issued && (forall h :: h in s.issued ==> s.issued[h].id != e.id)
    && s'.issued == s.issued[e.hash := e] && s.ids + {e.id} == s'.ids && s.hashes + {e.hash} == s'.hashes
    && (forall h :: h in s'.store.byHash ==>
          (h in s.store.byHash && s'.store.byHash[h] == s.store.byHash[h]) || (h == e.hash && s'.store.byHash[h] == e))
    && s'.pending.Keys <= s.pending.Keys && (forall r :: r in s'.pending ==> s'.pending[r] == s.pending[r])
    && (forall r :: r in s'.pending && s'.pending[r].Ready? ==>
          s'.pending[r].next.hash != e.hash && s'.pending[r].next.id != e.id)
  }

  lemma StoredPending(s: Provider, s': Provider, e: Entry)
    requires PendingFresh(s) && PendingDiffer(s) && StoresOne(s, s', e)
    ensures PendingFresh(s') && PendingDiffer(s')
  {
    forall r | r in s'.pending && s'.pending[r].Ready? ensures NotStored(s', s'.pending[r]) {
      assert NotStored(s, s.pending[r]);
    }
  }

  /** Storing one more entry keeps what is known of the stored ones and of the calls in progress. */
  lemma StoredInv(s: Provider, s': Provider, e: Entry)
    requires IssuedInv(s) && IdsDiffer(s) && PendingKnown(s) && PendingFresh(s) && PendingDiffer(s) && StoresOne(s, s', e)
    ensures IssuedInv(s') && IdsDiffer(s') && PendingKnown(s') && PendingFresh(s') && PendingDiffer(s')
  {
    StoredPending(s, s', e);
  }

  lemma IssueStores(s: Provider, e: Entry)
    requires IssuedInv(s) && PendingFresh(s) && e.id !in s.ids && e.hash !in s.hashes
    ensures StoresOne(s, Issue(s, e), e)
  {
    forall r | r in s.pending && s.pending[r].Ready? ensures s.pending[r].next.hash != e.hash && s.pending[r].next.id != e.id {
      assert NotStored(s, s.pending[r]);
    }
  }

  lemma IssueLog(s: Provider, e: Entry)
    requires IssuedInv(s) && StoreIsNewest(s) && LogInv(s) && e.hash !in s.issued
    ensures StoreIsNewest(Issue(s, e)) && LogInv(Issue(s, e))
  {
    NewestAppend(s, Issue(s, e), Issued(e));
    LogInvAppend(s, Issue(s, e), Issued(e));
  }

  lemma IssueInv(s: Provider, e: Entry)
    requires Inv(s) && e.id !in s.ids && e.hash !in s.hashes && e.flowId !in s.store.byFlow
    ensures Inv(Issue(s, e))
  {
    IssueStores(s, e);
    StoredInv(s, Issue(s, e), e);
    AlignedPreserved(s.store, Save(e));
    IssueLog(s, e);
  }

  lemma WithdrawInv(s: Provider, flowId: string)
    requires Inv(s)
    ensures Inv(Withdraw(s, flowId))
  {
    var s' := Withdraw(s, flowId);
    if s' != s {
      forall r | r in s'.pending && s'.pending[r].Ready? ensures NotStored(s', s'.pending[r]) {
        assert NotStored(s, s.pending[r]);
      }
      AlignedPreserved(s.store, Remove(flowId));
      NewestAppend(s, s', Revoked(flowId));
      LogInvAppend(s, s', Revoked(flowId));
    }
  }

  lemma LookPending(s: Provider, s': Provider, rid: nat, h: string, bound: string)
    requires IssuedInv(s) && PendingKnown(s) && PendingFresh(s) && PendingDiffer(s) && h in s.store.byHash
    requires s' == Enter(s, rid, Looked(h, s.store.byHash[h], bound))
    ensures PendingKnown(s') && PendingFresh(s') && PendingDiffer(s')
  {
    forall r | r in s'.pending && s'.pending[r].Ready? ensures NotStored(s', s'.pending[r]) {
      assert NotStored(s, s.pending[r]);
    }
  }

  lemma LookInv(s: Provider, rid: nat, h: string, bound: string)
    requires Inv(s) && h in s.store.byHash
    ensures Inv(Enter(s, rid, Looked(h, s.store.byHash[h], bound)))
  {
    LookPending(s, Enter(s, rid, Looked(h, s.store.byHash[h], bound)), rid, h, bound);
  }

  lemma MintInv(s: Provider, rid: nat, next: Entry, refreshToken: string)
    requires Inv(s) && rid in s.pending && s.pending[rid].Looked?
    requires next.id !in s.ids && next.hash !in s.hashes && SameGrant(s.pending[rid].entry, next)
    ensures var p := s.pending[rid];
            Inv(Enter(Drawn(s, next.id, next.hash), rid, Ready(p.hash, p.entry, next, refreshToken)))
  {
    var p := s.pending[rid];
    var s' := Enter(Drawn(s, next.id, next.hash), rid, Ready(p.hash, p.entry, next, refreshToken));
    forall r | r in s'.pending && s'.pending[r].Ready? ensures NotStored(s', s'.pending[r]) {
      if r != rid {
        assert NotStored(s, s.pending[r]);
      }
    }
    forall r | r in s.pending && s.pending[r].Ready?
      ensures s.pending[r].next.hash != next.hash && s.pending[r].next.id != next.id
    {
      assert NotStored(s, s.pending[r]);
    }
  }

  /** A commit that succeeds replaces the very entry the call looked up, which is the newest of its flow. */
  lemma CommitReplaces(s: Provider, rid: nat)
    requires Inv(s) && rid in s.pending && s.pending[rid].Ready? && s.pending[rid].hash in s.store.byHash
    ensures var p := s.pending[rid];
            && s.store.byHash[p.hash] == p.entry && p.next.flowId == p.entry.flowId
            && p.next.flowId in s.store.byFlow && s.store.byFlow[p.next.flowId] == p.entry
            && Newest(s.log, p.next.flowId) == Some(p.entry)
            && FreshKeys(s.store, Update(p.hash, p.next)) && FreshFlow(s.store, Update(p.hash, p.next))
  {
    assert NotStored(s, s.pending[rid]);
  }

  lemma ReplaceStores(s: Provider, rid: nat)
    requires PendingDiffer(s) && rid in s.pending && s.pending[rid].Ready? && s.pending[rid].hash in s.store.byHash
    requires NotStored(s, s.pending[rid])
    ensures StoresOne(s, Replace(s, rid, s.pending[rid]), s.pending[rid].next)
  {
    var s', p := Replace(s, rid, s.pending[rid]), s.pending[rid];
    assert s'.ids == s.ids + {p.next.id} && s'.hashes == s.hashes + {p.next.hash};
  }

  lemma ReplaceStored(s: Provider, rid: nat)
    requires IssuedInv(s) && IdsDiffer(s) && PendingKnown(s) && PendingFresh(s) && PendingDiffer(s)
    requires rid in s.pending && s.pending[rid].Ready? && s.pending[rid].hash in s.store.byHash
    ensures var s' := Replace(s, rid, s.pending[rid]);
            && IssuedInv(s') && IdsDiffer(s') && PendingKnown(s') && PendingFresh(s') && PendingDiffer(s')
  {
    ReplaceStores(s, rid);
    StoredInv(s, Replace(s, rid, s.pending[rid]), s.pending[rid].next);
  }

  lemma ReplaceLog(s: Provider, s': Provider, p: Pending)
    requires IssuedInv(s) && StoreIsNewest(s) && LogInv(s)
    requires p.Ready? && p.hash in s.store.byHash && p.next.hash !in s.issued
    requires s.store.byHash[p.hash] == p.entry && p.entry.hash == p.hash && SameGrant(p.entry, p.next)
    requires Newest(s.log, p.next.flowId) == Some(p.entry)
    requires s'.log == s.log + [Renewed(p.hash, p.next)] && s'.issued == s.issued[p.next.hash := p.next]
    requires s'.store.byHash == (s.store.byHash - {p.hash})[p.next.hash := p.next]
    requires s'.store.byFlow == s.store.byFlow[p.next.flowId := p.next]
    ensures StoreIsNewest(s') && LogInv(s')
  {
    var ev := Renewed(p.hash, p.next);
    NewestAppend(s, s', ev);
    assert s'.log[..|s.log|] == s.log;
    LogInvAppend(s, s', ev);
  }

  /** Replacing an entry by one of the same flow only exchanges the two in each map. */
  lemma ReplaceInStore(t: Index, h: string, e: Entry)
    requires Aligned(t) && h in t.byHash && FreshKeys(t, Update(h, e)) && e.flowId == t.byHash[h].flowId
    ensures var u := Updated(t, h, e);
            && u.Ok? && Aligned(u.value)
            && u.value.byHash == (t.byHash - {h})[e.hash := e] && u.value.byFlow == t.byFlow[e.flowId := e]
  {
    AlignedPreserved(t, Update(h, e));
    UpdatedFlows(t.byFlow, e);
  }

  lemma UpdatedFlows(flows: map<string, Entry>, e: Entry)
    ensures (flows - {e.flowId})[e.flowId := e] == flows[e.flowId := e]
  {
  }

  lemma ReplaceInv(s: Provider, rid: nat)
    requires Inv(s) && rid in s.pending && s.pending[rid].Ready?
    ensures Inv(Replace(s, rid, s.pending[rid]))
  {
    var p := s.pending[rid];
    if p.hash !in s.store.byHash {
      LeaveInv(s, rid);
    } else {
      ReplaceStored(s, rid);
      CommitReplaces(s, rid);
      ReplaceInStore(s.store, p.hash, p.next);
      assert p.next.hash !in s.issued && SameGrant(p.entry, p.next) by { assert NotStored(s, p); }
      assert p.entry.hash == p.hash;
      ReplaceLog(s, Replace(s, rid, p), p);
    }
  }

  lemma MintStepInv(c: Config, s: Provider, rid: nat, now: int, jti: string, refreshToken: string)
    requires Inv(s) && Enabled(c, s, Mint(rid, now, jti, refreshToken))
    ensures Inv(Step(c, s, Mint(rid, now, jti, refreshToken)))
  {
    var p := s.pending[rid];
    var next := NextEntry(c, p.entry, p.bound, now, jti, refreshToken);
    DrawnInv(s, jti, c.hash(refreshToken));
    LeaveInv(Drawn(s, jti, c.hash(refreshToken)), rid);
    if next.Ok? { MintInv(s, rid, next.value, refreshToken); }
  }

  lemma StepInv(c: Config, s: Provider, a: Action)
    requires Inv(s) && Enabled(c, s, a)
    ensures Inv(Step(c, s, a))
  {
    match a {
      case Generate(pc, subject, claims, flowId, now, jti, refreshToken) =>
        var e := NewEntry(c, pc, subject, claims, flowId, now, jti, refreshToken);
        DrawnInv(s, jti, c.hash(refreshToken));
        if e.Ok? { IssueInv(s, e.value); }
      case Revoke(flowId) => WithdrawInv(s, flowId);
      case Look(rid, bound, refreshToken) =>
        var h := c.hash(refreshToken);
        if h in s.store.byHash { LookInv(s, rid, h, bound); }
      case Mint(rid, now, jti, refreshToken) =>
        MintStepInv(c, s, rid, now, jti, refreshToken);
      case Commit(rid) => ReplaceInv(s, rid);
      case Abandon(rid) => LeaveInv(s, rid);
    }
  }

  /** What minting changes: the call's own record, which then holds the hash of the token it drew. */
  lemma MintEffect(c: Config, s: Provider, a: Action)
    requires a.Mint? && Enabled(c, s, a)
    ensures var s' := Step(c, s, a);
            && s'.store == s.store && s'.issued == s.issued && s'.pending - {a.rid} == s.pending - {a.rid}
            && (a.rid in s'.pending ==>
                  var q := s'.pending[a.rid];
                  && q.Ready? && q.hash == s.pending[a.rid].hash && q.refreshToken == a.refreshToken
                  && q.next.hash == c.hash(a.refreshToken))
  {
  }

  // ---------------------------------------------------------------- runs

  ghost predicate IsRun(c: Config, states: seq<Provider>, actions: seq<Action>) {
    && |states| == |actions| + 1 && states[0] == INITIAL
    && forall i :: 0 <= i < |actions| ==> Enabled(c, states[i], actions[i]) && states[i + 1] == Step(c, states[i], actions[i])
  }

  lemma {:induction false} RunInv(c: Config, states: seq<Provider>, actions: seq<Action>, n: nat)
    requires IsRun(c, states, actions) && n <= |actions|
    ensures Inv(states[n])
  {
    if n == 0 {
      InitialInv();
    } else {
      RunInv(c, states, actions, n - 1);
      StepInv(c, states[n - 1], actions[n - 1]);
    }
  }

  ghost predicate Prefix(log: seq<Event>, log': seq<Event>) { |log| <= |log'| && log'[..|log|] == log }

  lemma StepGrows(c: Config, s: Provider, a: Action)
    ensures Prefix(s.log, Step(c, s, a).log)
  {
  }

  /** Each state's log begins with that of the one before it. */
  ghost predicate Growing(states: seq<Provider>) { forall k :: 0 <= k < |states| - 1 ==> Prefix(states[k].log, states[k + 1].log) }

  lemma RunGrows(c: Config, states: seq<Provider>, actions: seq<Action>)
    requires IsRun(c, states, actions)
    ensures Growing(states)
  {
    forall k | 0 <= k < |states| - 1 ensures Prefix(states[k].log, states[k + 1].log) { StepGrows(c, states[k], actions[k]); }
  }

  lemma {:induction false} GrowingPrefix(states: seq<Provider>, i: nat, j: nat)
    requires Growing(states) && i <= j < |states|
    ensures Prefix(states[i].log, states[j].log)
  {
    if i < j {
      GrowingPrefix(states, i, j - 1);
      PrefixOn(states[i].log, states[j - 1].log, states[j].log);
    }
  }

  lemma LogGrows(c: Config, states: seq<Provider>, actions: seq<Action>, i: nat, j: nat)
    requires IsRun(c, states, actions) && i <= j <= |actions|
    ensures Prefix(states[i].log, states[j].log)
  {
    RunGrows(c, states, actions);
    GrowingPrefix(states, i, j);
  }

  lemma PrefixOn(a: seq<Event>, b: seq<Event>, c: seq<Event>)
    requires Prefix(a, b) && Prefix(b, c)
    ensures Prefix(a, c)
  {
    assert c[..|a|] == c[..|b|][..|a|];
  }

  /** This step is the last one of a `renew` call that succeeds. */
  predicate Renews(s: Provider, a: Action) {
    a.Commit? && a.rid in s.pending && s.pending[a.rid].Ready? && s.pending[a.rid].hash in s.store.byHash
  }

  /** Over any interleaving, a refresh token takes part in at most one successful `renew`. */
  lemma RefreshTokenUsedOnce(c: Config, states: seq<Provider>, actions: seq<Action>, i: nat, j: nat)
    requires IsRun(c, states, actions) && i < j < |actions|
    requires Renews(states[i], actions[i]) && Renews(states[j], actions[j])
    ensures states[i].pending[actions[i].rid].hash != states[j].pending[actions[j].rid].hash
  {
    var h := states[i].pending[actions[i].rid].hash;
    var n := |states[i].log|;
    assert states[i + 1].log[n].Renewed? && states[i + 1].log[n].oldHash == h;
    LogGrows(c, states, actions, i + 1, j);
    assert states[j].log[n] == states[j].log[..n + 1][n] == states[i + 1].log[n];
    RunInv(c, states, actions, j);
  }

  lemma ReplaceKeepsFlows(s: Provider, rid: nat)
    requires rid in s.pending && s.pending[rid].Ready? && s.pending[rid].hash in s.store.byHash
    requires s.pending[rid].next.flowId in s.store.byFlow
    ensures Replace(s, rid, s.pending[rid]).store.byFlow.Keys <= s.store.byFlow.Keys
  {
  }

  lemma CommitRevivesNothing(s: Provider, rid: nat, flowId: string)
    requires Inv(s) && rid in s.pending && s.pending[rid].Ready? && flowId !in s.store.byFlow
    ensures flowId !in Replace(s, rid, s.pending[rid]).store.byFlow
  {
    if s.pending[rid].hash in s.store.byHash {
      CommitReplaces(s, rid);
      ReplaceKeepsFlows(s, rid);
    }
  }

  lemma OthersReviveNothing(c: Config, s: Provider, a: Action, flowId: string)
    requires Enabled(c, s, a) && !a.Commit? && flowId !in s.store.byFlow && (a.Generate? ==> a.flowId != flowId)
    ensures flowId !in Step(c, s, a).store.byFlow
  {
    if a.Mint? { MintEffect(c, s, a); }
  }

  lemma OnlyIssuingRevives(c: Config, s: Provider, a: Action, flowId: string)
    requires Inv(s) && Enabled(c, s, a) && flowId !in s.store.byFlow && (a.Generate? ==> a.flowId != flowId)
    ensures flowId !in Step(c, s, a).store.byFlow
  {
    if a.Commit? { CommitRevivesNothing(s, a.rid, flowId); } else { OthersReviveNothing(c, s, a, flowId); }
  }

  /** No `renew` in progress brings back a flow that is not live: only issuing it again does. */
  lemma {:induction false} RevokedStaysRevoked(c: Config, states: seq<Provider>, actions: seq<Action>, flowId: string,
                                               i: nat, j: nat)
    requires IsRun(c, states, actions) && i <= j <= |actions|
    requires flowId !in states[i].store.byFlow
    requires forall k :: i <= k < j && actions[k].Generate? ==> actions[k].flowId != flowId
    ensures flowId !in states[j].store.byFlow
  {
    if i < j {
      RevokedStaysRevoked(c, states, actions, flowId, i, j - 1);
      RunInv(c, states, actions, j - 1);
      OnlyIssuingRevives(c, states[j - 1], actions[j - 1], flowId);
    }
  }

  // ---------------------------------------------------------------- chains

  /** The renewals of a flow form one chain: it starts with an issued entry, every later entry replaced
      the one before it by that one's refresh token, and all keep what was given at issue. */
  lemma {:induction false} ChainIsLinear(log: seq<Event>, flowId: string)
    requires forall i :: 0 <= i < |log| ==> Linear(log, i)
    ensures var ch := Chain(log, flowId);
            && (ch != [] ==> Issued(ch[0]) in log && ch[0].flowId == flowId)
            && (forall k :: 0 <= k < |ch| ==> SameGrant(ch[0], ch[k]))
            && (forall k :: 0 <= k < |ch| - 1 ==> Renewed(ch[k].hash, ch[k + 1]) in log)
  {
    if log != [] {
      var init, last := log[..|log| - 1], log[|log| - 1];
      forall i | 0 <= i < |init| ensures Linear(init, i) {
        assert Linear(log, i) && log[..i] == init[..i];
      }
      ChainIsLinear(init, flowId);
      assert log == init + [last];
      assert Linear(log, |log| - 1);
      ChainStep(init, last, flowId);
    }
  }

  /** What every live entry is, at any point of any run: the newest of a chain that began with
      `generate_pair`, for the same subject, audience, claims, participant context and flow. */
  lemma LiveEntriesKeepGrant(c: Config, states: seq<Provider>, actions: seq<Action>, n: nat, flowId: string)
    requires IsRun(c, states, actions) && n <= |actions| && flowId in states[n].store.byFlow
    ensures var ch, e := Chain(states[n].log, flowId), states[n].store.byFlow[flowId];
            && ch != [] && e == ch[|ch| - 1] && Issued(ch[0]) in states[n].log && SameGrant(ch[0], e)
            && (forall k :: 0 <= k < |ch| - 1 ==> Renewed(ch[k].hash, ch[k + 1]) in states[n].log)
  {
    RunInv(c, states, actions, n);
    ChainIsLinear(states[n].log, flowId);
    assert Newest(states[n].log, flowId) == Some(states[n].store.byFlow[flowId]);
  }

  // ---------------------------------------------------------------- validation

  /** A verified token is accepted exactly when its `jti` is the newest of a flow not revoked. */
  lemma ValidatesExactlyNewest(c: Config, s: Provider, audience: string, token: string)
    requires Inv(s)
    ensures Validate(c, s.store, audience, token).Ok? <==>
            var v := c.providerVerify(audience, token);
            && v.Ok? && "jti" in v.value.custom && v.value.custom["jti"].String?
            && exists f :: Newest(s.log, f).Some? && Newest(s.log, f).value.id == v.value.custom["jti"].s
  {
    var v := c.providerVerify(audience, token);
    if v.Ok? && "jti" in v.value.custom && v.value.custom["jti"].String? {
      var jti := v.value.custom["jti"].s;
      if jti in s.store.byId {
        var f := s.store.byId[jti].flowId;
        assert Newest(s.log, f) == Some(s.store.byFlow[f]);
      }
      if f :| Newest(s.log, f).Some? && Newest(s.log, f).value.id == jti {
        assert f in s.store.byFlow && s.store.byFlow[f].id == jti;
      }
    }
  }

  /** When an entry was issued or renewed, by the expiry of its refresh token. */
  function MintedAt(c: Config, e: Entry): int { e.expiresAt - c.renewalTokenDuration }

  /** The token of an entry carries what the entry was issued for, and the entry's id. */
  ghost predicate SignedFor(c: Config, e: Entry) {
    TokenCarries(c, e.token, e.audience, e.subject, e.claims, e.id, MintedAt(c, e))
  }

  ghost predicate SignedInv(c: Config, s: Provider) {
    && (forall h :: h in s.issued ==> SignedFor(c, s.issued[h]))
    && (forall r :: r in s.pending && s.pending[r].Ready? ==> SignedFor(c, s.pending[r].next))
  }

  lemma NewEntrySigned(c: Config, pc: ParticipantContext, subject: string, claims: Claims, flowId: string,
                       now: int, jti: string, refreshToken: string)
    requires NewEntry(c, pc, subject, claims, flowId, now, jti, refreshToken).Ok?
    ensures SignedFor(c, NewEntry(c, pc, subject, claims, flowId, now, jti, refreshToken).value)
  {
    NewEntryIs(c, pc, subject, claims, flowId, now, jti, refreshToken);
  }

  lemma NextEntrySigned(c: Config, entry: Entry, bound: string, now: int, jti: string, refreshToken: string)
    requires NextEntry(c, entry, bound, now, jti, refreshToken).Ok?
    ensures SignedFor(c, NextEntry(c, entry, bound, now, jti, refreshToken).value)
  {
    NextEntryIs(c, entry, bound, now, jti, refreshToken);
  }

  lemma StepSigned(c: Config, s: Provider, a: Action)
    requires SignedInv(c, s) && Enabled(c, s, a)
    ensures SignedInv(c, Step(c, s, a))
  {
    match a {
      case Generate(pc, subject, claims, flowId, now, jti, refreshToken) =>
        if NewEntry(c, pc, subject, claims, flowId, now, jti, refreshToken).Ok? {
          NewEntrySigned(c, pc, subject, claims, flowId, now, jti, refreshToken);
        }
      case Mint(rid, now, jti, refreshToken) =>
        var p := s.pending[rid];
        if NextEntry(c, p.entry, p.bound, now, jti, refreshToken).Ok? {
          NextEntrySigned(c, p.entry, p.bound, now, jti, refreshToken);
        }
      case _ =>
    }
  }

  lemma {:induction false} RunSigned(c: Config, states: seq<Provider>, actions: seq<Action>, n: nat)
    requires IsRun(c, states, actions) && n <= |actions|
    ensures SignedInv(c, states[n])
  {
    if n > 0 {
      RunSigned(c, states, actions, n - 1);
      StepSigned(c, states[n - 1], actions[n - 1]);
    }
  }

  /** Verifying what this manager signed yields the custom claims that were signed. */
  ghost predicate SoundVerifier(c: Config) {
    forall aud, pc, claims ::
      var t := c.sign(pc, claims);
      t.Ok? && c.providerVerify(aud, t.value).Ok? ==> c.providerVerify(aud, t.value).value.custom == claims.custom
  }

  lemma SignedValidatesIff(c: Config, s: Index, e: Entry, aud: string)
    requires SignedFor(c, e) && SoundVerifier(c)
    ensures Validate(c, s, aud, e.token).Ok? <==> c.providerVerify(aud, e.token).Ok? && e.id in s.byId
  {
    var pc := ParticipantContext(if c.issuerId.Some? then c.issuerId.value else c.issuer, c.issuer, "anonymous");
    var claims := TokenClaims(c.issuer, e.subject, e.audience, MintedAt(c, e) + c.tokenDuration, e.claims["jti" := String(e.id)]);
    assert c.sign(pc, claims) == Ok(e.token);
    if c.providerVerify(aud, e.token).Ok? {
      assert c.providerVerify(aud, c.sign(pc, claims).value).value.custom == claims.custom;
    }
  }

  /** The id of an issued entry is live exactly if that entry is the newest of its flow. */
  lemma LiveIffNewest(s: Provider, h: string)
    requires Aligned(s.store) && IssuedInv(s) && IdsDiffer(s) && StoreIsNewest(s) && h in s.issued
    ensures s.issued[h].id in s.store.byId <==> Newest(s.log, s.issued[h].flowId) == Some(s.issued[h])
  {
    var e := s.issued[h];
    assert Newest(s.log, e.flowId) == if e.flowId in s.store.byFlow then Some(s.store.byFlow[e.flowId]) else None;
    if e.id in s.store.byId {
      assert s.issued[s.store.byId[e.id].hash].id == e.id;
    }
  }

  /** Of all the tokens ever handed out, exactly the newest of each flow that is not revoked validates. */
  lemma IssuedTokenValidatesIffNewest(c: Config, states: seq<Provider>, actions: seq<Action>, n: nat, h: string, aud: string)
    requires IsRun(c, states, actions) && n <= |actions| && h in states[n].issued && SoundVerifier(c)
    ensures var s, e := states[n], states[n].issued[h];
            Validate(c, s.store, aud, e.token).Ok? <==>
            c.providerVerify(aud, e.token).Ok? && Newest(s.log, e.flowId) == Some(e)
  {
    RunInv(c, states, actions, n);
    RunSigned(c, states, actions, n);
    SignedValidatesIff(c, states[n].store, states[n].issued[h], aud);
    LiveIffNewest(states[n], h);
  }

  /** Verifying what this manager signed yields what was signed. */
  ghost predicate FaithfulVerifier(c: Config) {
    forall aud, pc, claims ::
      var t := c.sign(pc, claims);
      t.Ok? && c.providerVerify(aud, t.value).Ok? ==> c.providerVerify(aud, t.value).value == claims
  }

  /** What a token of this manager says when it is validated: who issued it, to whom and for whom, until
      when, and every claim it was issued with, besides its own id. */
  predicate ClaimsOf(c: Config, v: TokenClaims, e: Entry) {
    && v.iss == c.issuer && v.sub == e.subject && v.aud == e.audience
    && v.exp == MintedAt(c, e) + c.tokenDuration
    && v.custom == e.claims["jti" := String(e.id)]
  }

  lemma SignedValidatesAs(c: Config, s: Index, e: Entry, aud: string)
    requires SignedFor(c, e) && FaithfulVerifier(c) && Validate(c, s, aud, e.token).Ok?
    ensures ClaimsOf(c, Validate(c, s, aud, e.token).value, e)
  {
    var pc := ParticipantContext(if c.issuerId.Some? then c.issuerId.value else c.issuer, c.issuer, "anonymous");
    var claims := TokenClaims(c.issuer, e.subject, e.audience, MintedAt(c, e) + c.tokenDuration, e.claims["jti" := String(e.id)]);
    assert c.sign(pc, claims) == Ok(e.token);
    assert c.providerVerify(aud, c.sign(pc, claims).value).value == claims;
  }

  /** Over any run, validating a token that was handed out yields what its entry was issued for; by the
      chain that is what `generate_pair` was given. */
  lemma ValidatedClaimsAreIssued(c: Config, states: seq<Provider>, actions: seq<Action>, n: nat, h: string, aud: string)
    requires IsRun(c, states, actions) && n <= |actions| && h in states[n].issued && FaithfulVerifier(c)
    ensures var r := Validate(c, states[n].store, aud, states[n].issued[h].token);
            r.Ok? ==> ClaimsOf(c, r.value, states[n].issued[h])
  {
    RunSigned(c, states, actions, n);
    if Validate(c, states[n].store, aud, states[n].issued[h].token).Ok? {
      SignedValidatesAs(c, states[n].store, states[n].issued[h], aud);
    }
  }

  /** The entry that issuing adds is for what was asked, at the time it was asked. */
  lemma IssuedAtRequest(c: Config, s: Provider, a: Action)
    requires a.Generate? && Step(c, s, a).log != s.log
    ensures var e := Entry(a.jti, Step(c, s, a).issued[c.hash(a.refreshToken)].token, c.hash(a.refreshToken),
                           a.now + c.renewalTokenDuration, a.subject, a.claims, a.pc.id, a.pc.audience, a.flowId);
            && Step(c, s, a).log == s.log + [Issued(e)] && MintedAt(c, e) == a.now
            && {"iss", "sub", "aud", "exp", "iat", "nbf", "jti"} !! a.claims.Keys
  {
    NewEntryIs(c, a.pc, a.subject, a.claims, a.flowId, a.now, a.jti, a.refreshToken);
    ReservedAre(a.claims);
  }

  // ---------------------------------------------------------------- the methods are runs of steps

  /** `generate_pair` on its own is one step: the store afterwards is the one its method ensures. */
  lemma GeneratePairIsOneStep(c: Config, s: Provider, a: Action)
    requires a.Generate?
    ensures var e := NewEntry(c, a.pc, a.subject, a.claims, a.flowId, a.now, a.jti, a.refreshToken);
            Step(c, s, a).store == if AllowedClaims(a.claims) && e.Ok? then Saved(s.store, e.value) else s.store
  {
  }

  /** Revoking is one step: of a flow that is live nothing is left in the store and nothing else is gone. */
  lemma RevokeIsOneStep(c: Config, s: Provider, flowId: string)
    requires Aligned(s.store)
    ensures var t := Step(c, s, Revoke(flowId)).store;
            && (flowId !in s.store.byFlow ==> t == s.store)
            && (forall f :: f in t.byFlow <==> f in s.store.byFlow && f != flowId)
            && (flowId in s.store.byFlow ==>
                  forall id :: id in t.byId <==> id in s.store.byId && s.store.byId[id].flowId != flowId)
  {
    RemovedIs(s.store, flowId);
  }

  /** `renew` undisturbed is its three steps: they leave the store its method ensures. */
  lemma RenewIsThreeSteps(c: Config, s: Provider, rid: nat, bound: string, refreshToken: string, now: int,
                          jti: string, newRefreshToken: string)
    requires rid !in s.pending
    ensures var s1 := Step(c, s, Look(rid, bound, refreshToken));
            var s2 := Step(c, s1, Mint(rid, now, jti, newRefreshToken));
            var s3 := Step(c, s2, Commit(rid));
            var h := c.hash(refreshToken);
            && s3.pending == s.pending
            && s3.store == if h !in s.store.byHash then s.store else
                           match NextEntry(c, s.store.byHash[h], bound, now, jti, newRefreshToken)
                           case Err(_) => s.store
                           case Ok(e) => Updated(s.store, h, e).value
  {
    var s1 := Step(c, s, Look(rid, bound, refreshToken));
    if rid in s1.pending {
      assert s1.pending - {rid} == s.pending;
      var s2 := Step(c, s1, Mint(rid, now, jti, newRefreshToken));
      assert s2.pending - {rid} == s.pending;
    }
  }
}
