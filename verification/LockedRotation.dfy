/**
 Refresh-token rotation with the lock: `get_token` enters its critical section by acquiring the
 in-memory lock of the identifier and leaves it by a guard whose unlock runs some time after the call
 has ended. Every step's effect on tokens and provider is a step of the unlocked protocol, so its
 guarantees carry over. Here concurrent calls use different owners and no guarded lease runs out
 before the guard's unlock; then a lost answer is the only reason left for a live flow to be refused.
 */
module LockedRotation {
  import opened Wrappers
  import opened Json
  import opened TokenTypes
  import opened TokenManager
  import opened TokenClient
  import opened MemoryLocks
  import opened RenewableTokenStore
  import P = ProviderProtocol
  import R = RotationProtocol

  datatype Params = Params(core: R.Params, timeout: int)

  /** `guards` are the calls whose guard has not been released; `owners` what each call locked as. */
  datatype System = System(core: R.System, locks: Locks, now: int, owners: map<nat, string>, guards: set<nat>)

  datatype Action =
    | Core(a: R.Action)
    | Begin(rid: nat, flowId: string, owner: string)
    | Lock(rid: nat)
    | Unlock(rid: nat)
    | Tick(elapsed: nat)

  predicate Critical(p: R.Phase) { p.Entered? || p.Asking? || p.Asked? || p.Answered? }

  /** A call that may still lock, or whose guard is out. */
  predicate Engaged(s: System, rid: nat) {
    rid in s.core.callers && (R.Active(s.core.callers[rid].phase) || rid in s.guards)
  }

  /** A bound token the provider's check accepts for what the consumer has stored. */
  predicate Honest(c: Config, d: TokenData, bound: string) {
    var v := c.clientVerify(d.counterPartyId, bound);
    v.Ok? && v.value.sub == d.participantId && "token" in v.value.custom && v.value.custom["token"] == String(d.token)
  }

  ghost predicate Enabled(p: Params, s: System, a: Action) {
    match a
    case Core(b) =>
      && R.Enabled(p.core, s.core, b)
      && (match b
          case Grant(pc, subject, _, _, _, _, data) => data.participantId == subject && data.counterPartyId == pc.audience
          case Start(_, _, _) => false
          case Enter(_) => false
          case Reread(_, now) => now == s.now
          case Look(rid, bound) => Honest(p.core.config, s.core.callers[rid].phase.data, bound)
          case GiveUp(rid) => s.core.callers[rid].phase.Asking?
          case _ => true)
    case Begin(rid, flowId, owner) =>
      && R.Enabled(p.core, s.core, R.Start(rid, flowId, s.now))
      && forall q :: Engaged(s, q) && q in s.owners ==> s.owners[q] != owner
    case Lock(rid) => R.Enabled(p.core, s.core, R.Enter(rid)) && rid in s.owners
    case Unlock(rid) => rid in s.guards && rid in s.core.callers && !R.Active(s.core.callers[rid].phase) && rid in s.owners
    case Tick(d) =>
      forall rid :: rid in s.guards && rid in s.core.callers && s.core.callers[rid].flowId in s.locks ==>
        !Expired(s.locks[s.core.callers[rid].flowId], s.now + d, p.timeout)
  }

  function Step(p: Params, s: System, a: Action): System
    requires Enabled(p, s, a)
  {
    match a
    case Core(b) => s.(core := R.Step(p.core, s.core, b))
    case Begin(rid, flowId, owner) =>
      s.(core := R.Step(p.core, s.core, R.Start(rid, flowId, s.now)), owners := s.owners[rid := owner])
    case Lock(rid) =>
      (match Acquired(s.locks, s.core.callers[rid].flowId, s.owners[rid], s.now, p.timeout)
       case Ok(l) => s.(core := R.Step(p.core, s.core, R.Enter(rid)), locks := l, guards := s.guards + {rid})
       case Err(_) => s.(core := R.Step(p.core, s.core, R.GiveUp(rid))))
    case Unlock(rid) =>
      (match Released(s.locks, s.core.callers[rid].flowId, s.owners[rid])
       case Ok(l) => s.(locks := l, guards := s.guards - {rid})
       case Err(_) => s.(guards := s.guards - {rid}))
    case Tick(d) => s.(now := s.now + d)
  }

  // ---------------------------------------------------------------- the lock

  predicate Guards(s: System, f: string, rid: nat) {
    rid in s.guards && rid in s.core.callers && s.core.callers[rid].flowId == f
  }

  ghost predicate GuardOk(p: Params, s: System, rid: nat) {
    && rid in s.core.callers && rid in s.owners && !s.core.callers[rid].phase.Expired?
    && var f := s.core.callers[rid].flowId;
       && f in s.locks && s.locks[f].owner == s.owners[rid] && s.locks[f].count == 1
       && !Expired(s.locks[f], s.now, p.timeout)
  }

  /** Every record is held by exactly one guard, which keeps it alive. */
  ghost predicate Guarded(p: Params, s: System) {
    && (forall rid :: rid in s.guards ==> GuardOk(p, s, rid))
    && (forall f, rid, q :: Guards(s, f, rid) && Guards(s, f, q) ==> rid == q)
    && (forall f :: f in s.locks ==> exists rid :: Guards(s, f, rid))
  }

  /** Whoever is in the critical section has a guard. */
  ghost predicate CriticalGuarded(s: System) {
    forall rid :: rid in s.core.callers && Critical(s.core.callers[rid].phase) ==> rid in s.guards
  }

  /** Whoever may lock does so under a name of its own. */
  ghost predicate OwnersDiffer(s: System) {
    && (forall rid :: rid in s.core.callers ==> rid in s.owners)
    && (forall rid, q :: Engaged(s, rid) && Engaged(s, q) && rid != q && rid in s.owners && q in s.owners ==>
          s.owners[rid] != s.owners[q])
  }

  ghost predicate LockInv(p: Params, s: System) { Guarded(p, s) && CriticalGuarded(s) && OwnersDiffer(s) }

  /** A step of calls that are in the critical section, or of nobody. */
  ghost predicate CallersKept(s: R.System, s': R.System) {
    && s'.callers.Keys == s.callers.Keys
    && (forall rid :: rid in s.callers ==>
          || s'.callers[rid] == s.callers[rid]
          || (&& s'.callers[rid].flowId == s.callers[rid].flowId
              && Critical(s.callers[rid].phase) && !s'.callers[rid].phase.Expired?))
  }

  lemma CoreKeepsCallers(p: Params, s: System, a: Action)
    requires a.Core? && Enabled(p, s, a)
    ensures CallersKept(s.core, Step(p, s, a).core)
  {
  }

  lemma SameGuards(p: Params, s: System, s': System)
    requires Guarded(p, s) && s'.locks == s.locks && s'.guards == s.guards
    requires forall rid :: rid in s.guards ==> GuardOk(p, s', rid) && s'.core.callers[rid].flowId == s.core.callers[rid].flowId
    ensures Guarded(p, s')
  {
    forall f, rid ensures Guards(s', f, rid) == Guards(s, f, rid) {
      if rid in s.guards { assert GuardOk(p, s, rid); }
    }
    forall f | f in s'.locks ensures exists rid :: Guards(s', f, rid) {
      var rid :| Guards(s, f, rid);
      assert Guards(s', f, rid);
    }
  }

  lemma SameOwners(s: System, s': System)
    requires OwnersDiffer(s) && s'.owners == s.owners && s'.core.callers.Keys == s.core.callers.Keys
    requires forall rid :: Engaged(s', rid) ==> Engaged(s, rid)
    ensures OwnersDiffer(s')
  {
  }

  lemma CoreLockInv(p: Params, s: System, s': System)
    requires LockInv(p, s) && s' == s.(core := s'.core) && CallersKept(s.core, s'.core)
    ensures LockInv(p, s')
  {
    forall rid | rid in s'.guards
      ensures GuardOk(p, s', rid) && s'.core.callers[rid].flowId == s.core.callers[rid].flowId
    {
      assert GuardOk(p, s, rid);
    }
    SameGuards(p, s, s');
    SameOwners(s, s');
  }

  lemma BeginLockInv(p: Params, s: System, a: Action)
    requires LockInv(p, s) && a.Begin? && Enabled(p, s, a)
    ensures LockInv(p, Step(p, s, a))
  {
    var s' := Step(p, s, a);
    forall rid | rid in s'.guards
      ensures GuardOk(p, s', rid) && s'.core.callers[rid].flowId == s.core.callers[rid].flowId
    {
      assert GuardOk(p, s, rid);
    }
    SameGuards(p, s, s');
    forall rid | Engaged(s', rid) && rid != a.rid ensures Engaged(s, rid) && s'.owners[rid] != a.owner {}
  }

  /** A call gets the lock exactly when there is no record: no record is its own, and none has expired. */
  lemma LockNeedsFree(p: Params, s: System, rid: nat)
    requires LockInv(p, s) && Enabled(p, s, Lock(rid))
    ensures var f := s.core.callers[rid].flowId;
            Acquired(s.locks, f, s.owners[rid], s.now, p.timeout).Ok? <==> f !in s.locks
  {
    var f := s.core.callers[rid].flowId;
    if f in s.locks {
      var q :| Guards(s, f, q);
      assert GuardOk(p, s, q);
      assert Engaged(s, q) && Engaged(s, rid);
    }
  }

  lemma NewGuard(p: Params, s: System, s': System, rid: nat)
    requires Guarded(p, s) && rid in s.core.callers && rid !in s.guards && s'.guards == s.guards + {rid}
    requires rid in s'.core.callers && s'.core.callers == s.core.callers[rid := s'.core.callers[rid]]
    requires s'.core.callers[rid].flowId == s.core.callers[rid].flowId
    requires var f := s.core.callers[rid].flowId; f !in s.locks && f in s'.locks && s'.locks == s.locks[f := s'.locks[f]]
    requires s'.owners == s.owners && s'.now == s.now && GuardOk(p, s', rid)
    ensures Guarded(p, s')
  {
    var f := s.core.callers[rid].flowId;
    forall q | q in s'.guards ensures GuardOk(p, s', q) && (q != rid ==> s.core.callers[q].flowId != f) {
      if q != rid { assert GuardOk(p, s, q); }
    }
    forall g, q ensures Guards(s', g, q) == (Guards(s, g, q) || (g == f && q == rid)) {}
    forall g | g in s'.locks ensures exists q :: Guards(s', g, q) {
      if g == f {
        assert Guards(s', g, rid);
      } else {
        var q :| Guards(s, g, q);
        assert Guards(s', g, q);
      }
    }
  }

  lemma RefusedLockInv(p: Params, s: System, s': System, rid: nat)
    requires LockInv(p, s) && rid in s.core.callers && s.core.callers[rid].phase.Expired?
    requires s' == s.(core := R.Move(s.core, rid, R.Failed))
    ensures LockInv(p, s')
  {
    forall q | q in s'.guards
      ensures GuardOk(p, s', q) && s'.core.callers[q].flowId == s.core.callers[q].flowId
    {
      assert GuardOk(p, s, q);
    }
    SameGuards(p, s, s');
    SameOwners(s, s');
  }

  /** The call has got the lock. */
  ghost predicate Granted(s: System, s': System, rid: nat)
    requires rid in s.core.callers && rid in s.owners
  {
    var f := s.core.callers[rid].flowId;
    && f !in s.locks
    && s' == s.(core := R.Move(s.core, rid, R.Entered), guards := s.guards + {rid},
                locks := s.locks[f := LockRecord(s.owners[rid], s.now, 1)])
  }

  lemma GrantedGuarded(p: Params, s: System, s': System, rid: nat)
    requires Guarded(p, s) && p.timeout >= 0
    requires rid in s.core.callers && s.core.callers[rid].phase.Expired? && rid in s.owners && Granted(s, s', rid)
    ensures Guarded(p, s')
  {
    assert rid in s.guards ==> GuardOk(p, s, rid);
    assert GuardOk(p, s', rid);
    NewGuard(p, s, s', rid);
  }

  lemma GrantedOwners(s: System, s': System, rid: nat)
    requires OwnersDiffer(s) && rid in s.core.callers && s.core.callers[rid].phase.Expired? && rid in s.owners
    requires Granted(s, s', rid)
    ensures OwnersDiffer(s')
  {
    forall q ensures Engaged(s', q) ==> Engaged(s, q) {}
    SameOwners(s, s');
  }

  lemma GrantedLockInv(p: Params, s: System, s': System, rid: nat)
    requires LockInv(p, s) && p.timeout >= 0
    requires rid in s.core.callers && s.core.callers[rid].phase.Expired? && rid in s.owners && Granted(s, s', rid)
    ensures LockInv(p, s')
  {
    GrantedGuarded(p, s, s', rid);
    GrantedOwners(s, s', rid);
  }

  /** What locking does: the call gets the lock, or gives up. */
  lemma LockEffect(p: Params, s: System, rid: nat)
    requires Enabled(p, s, Lock(rid)) && rid in s.owners
    requires Acquired(s.locks, s.core.callers[rid].flowId, s.owners[rid], s.now, p.timeout).Ok? <==>
             s.core.callers[rid].flowId !in s.locks
    ensures var s' := Step(p, s, Lock(rid));
            if s.core.callers[rid].flowId in s.locks then s' == s.(core := R.Move(s.core, rid, R.Failed))
            else Granted(s, s', rid)
  {
  }

  lemma LockLockInv(p: Params, s: System, rid: nat)
    requires LockInv(p, s) && Enabled(p, s, Lock(rid)) && p.timeout >= 0
    ensures LockInv(p, Step(p, s, Lock(rid)))
  {
    LockNeedsFree(p, s, rid);
    LockEffect(p, s, rid);
    if s.core.callers[rid].flowId in s.locks {
      RefusedLockInv(p, s, Step(p, s, Lock(rid)), rid);
    } else {
      GrantedLockInv(p, s, Step(p, s, Lock(rid)), rid);
    }
  }

  lemma UnlockLockInv(p: Params, s: System, a: Action)
    requires LockInv(p, s) && a.Unlock? && Enabled(p, s, a)
    ensures LockInv(p, Step(p, s, a))
  {
    var s', rid := Step(p, s, a), a.rid;
    var f := s.core.callers[rid].flowId;
    assert GuardOk(p, s, rid) && Guards(s, f, rid);
    assert s'.locks == s.locks - {f};
    forall q | q in s'.guards ensures GuardOk(p, s', q) {
      assert GuardOk(p, s, q) && q != rid;
      assert !Guards(s, f, q);
    }
    forall g, q ensures Guards(s', g, q) == (Guards(s, g, q) && q != rid) {}
    forall g | g in s'.locks ensures exists q :: Guards(s', g, q) {
      var q :| Guards(s, g, q);
      assert Guards(s', g, q);
    }
    SameOwners(s, s');
  }

  lemma TickLockInv(p: Params, s: System, a: Action)
    requires LockInv(p, s) && a.Tick? && Enabled(p, s, a)
    ensures LockInv(p, Step(p, s, a))
  {
    var s' := Step(p, s, a);
    forall rid | rid in s'.guards ensures GuardOk(p, s', rid) { assert GuardOk(p, s, rid); }
    SameGuards(p, s, s');
    SameOwners(s, s');
  }

  lemma StepLockInv(p: Params, s: System, a: Action)
    requires LockInv(p, s) && Enabled(p, s, a) && p.timeout >= 0
    ensures LockInv(p, Step(p, s, a))
  {
    match a {
      case Core(_) => CoreKeepsCallers(p, s, a); CoreLockInv(p, s, Step(p, s, a));
      case Begin(_, _, _) => BeginLockInv(p, s, a);
      case Lock(rid) => LockLockInv(p, s, rid);
      case Unlock(_) => UnlockLockInv(p, s, a);
      case Tick(_) => TickLockInv(p, s, a);
    }
  }

  // ---------------------------------------------------------------- what callers present

  /** Whoever is asking for a refresh holds exactly what is stored. */
  ghost predicate HoldsStored(s: R.System) {
    forall rid :: rid in s.callers && R.Holding(s.callers[rid].phase) ==>
      s.callers[rid].flowId in s.tokens && s.callers[rid].phase.data == s.tokens[s.callers[rid].flowId]
  }

  /** The entry with this hash was issued to the participant and audience the stored token names. */
  predicate Fits(p: P.Provider, h: string, d: TokenData) {
    h in p.issued && p.issued[h].subject == d.participantId && p.issued[h].audience == d.counterPartyId
  }

  ghost predicate TokensFit(c: Config, s: R.System) {
    && (forall f :: f in s.tokens ==> Fits(s.provider, c.hash(s.tokens[f].refreshToken), s.tokens[f]))
    && (forall rid :: rid in s.callers && s.callers[rid].phase.Answered? && s.callers[rid].flowId in s.tokens ==>
          Fits(s.provider, c.hash(s.callers[rid].phase.answer.refreshToken), s.tokens[s.callers[rid].flowId]))
  }

  /** The provider's check of a bound token does not fail for a renewal in progress. */
  ghost predicate BoundAccepted(c: Config, s: R.System) {
    forall rid :: rid in s.provider.pending && s.provider.pending[rid].Looked? ==>
      CheckBound(c, s.provider.pending[rid].entry, s.provider.pending[rid].bound).Ok?
  }

  ghost predicate Inv(p: Params, s: System) {
    && R.Inv(p.core.config, s.core) && LockInv(p, s)
    && HoldsStored(s.core) && TokensFit(p.core.config, s.core) && BoundAccepted(p.core.config, s.core)
  }

  /** At most one call per flow is between acquiring the lock and having written back. */
  lemma OneInCriticalSection(p: Params, s: System, rid: nat, q: nat)
    requires LockInv(p, s) && rid in s.core.callers && q in s.core.callers
    requires Critical(s.core.callers[rid].phase) && Critical(s.core.callers[q].phase)
    requires s.core.callers[rid].flowId == s.core.callers[q].flowId
    ensures rid == q
  {
    var f := s.core.callers[rid].flowId;
    assert Guards(s, f, rid) && Guards(s, f, q);
  }

  lemma QuietHoldsStored(s: R.System, s': R.System, f: string)
    requires HoldsStored(s) && s'.callers == s.callers && R.Quiet(s, f)
    requires forall g :: g in s.tokens && g != f ==> g in s'.tokens && s'.tokens[g] == s.tokens[g]
    ensures HoldsStored(s')
  {
  }

  lemma MoveHoldsStored(s: R.System, s': R.System, rid: nat)
    requires HoldsStored(s) && s'.tokens == s.tokens && rid in s'.callers && s'.callers == s.callers[rid := s'.callers[rid]]
    requires R.Holding(s'.callers[rid].phase) ==>
               s'.callers[rid].flowId in s.tokens && s'.callers[rid].phase.data == s.tokens[s'.callers[rid].flowId]
    ensures HoldsStored(s')
  {
  }

  lemma WriteBackHoldsStored(p: Params, s: System, s': R.System, rid: nat)
    requires LockInv(p, s) && HoldsStored(s.core) && rid in s.core.callers && s.core.callers[rid].phase.Answered?
    requires s'.callers.Keys == s.core.callers.Keys && rid in s'.callers && !R.Holding(s'.callers[rid].phase)
    requires forall q :: q in s.core.callers && q != rid ==> s'.callers[q] == s.core.callers[q]
    requires forall f :: f in s.core.tokens && f != s.core.callers[rid].flowId ==> f in s'.tokens && s'.tokens[f] == s.core.tokens[f]
    ensures HoldsStored(s')
  {
    forall q | q in s'.callers && R.Holding(s'.callers[q].phase)
      ensures s'.callers[q].flowId in s'.tokens && s'.callers[q].phase.data == s'.tokens[s'.callers[q].flowId]
    {
      if s.core.callers[q].flowId == s.core.callers[rid].flowId {
        OneInCriticalSection(p, s, q, rid);
      }
    }
  }

  lemma GrantHoldsStored(p: Params, s: System, a: R.Action)
    requires HoldsStored(s.core) && (a.Grant? || a.Delete?) && Enabled(p, s, Core(a))
    ensures HoldsStored(R.Step(p.core, s.core, a))
  {
    QuietHoldsStored(s.core, R.Step(p.core, s.core, a), if a.Grant? then a.data.identifier else a.flowId);
  }

  lemma CallHoldsStored(p: Params, s: System, a: R.Action)
    requires HoldsStored(s.core) && !a.Grant? && !a.Delete? && !a.Revoke? && !a.WriteBack? && Enabled(p, s, Core(a))
    ensures HoldsStored(R.Step(p.core, s.core, a))
  {
    MoveHoldsStored(s.core, R.Step(p.core, s.core, a), a.rid);
  }

  lemma RevokeHoldsStored(p: Params, s: System, a: R.Action)
    requires HoldsStored(s.core) && a.Revoke? && Enabled(p, s, Core(a))
    ensures HoldsStored(R.Step(p.core, s.core, a))
  {
  }

  /** Writing back concerns one call and the token of its flow. */
  lemma WriteBackEffect(p: R.Params, s: R.System, rid: nat)
    requires R.Enabled(p, s, R.WriteBack(rid))
    ensures var s', f := R.Step(p, s, R.WriteBack(rid)), s.callers[rid].flowId;
            && s'.callers.Keys == s.callers.Keys && s'.callers[rid].flowId == f && !R.Active(s'.callers[rid].phase)
            && (forall q :: q in s.callers && q != rid ==> s'.callers[q] == s.callers[q])
            && (forall g :: g in s.tokens && g != f ==> g in s'.tokens && s'.tokens[g] == s.tokens[g])
  {
  }

  lemma AnswerHoldsStored(p: Params, s: System, rid: nat)
    requires LockInv(p, s) && HoldsStored(s.core) && R.Enabled(p.core, s.core, R.WriteBack(rid))
    ensures HoldsStored(R.Step(p.core, s.core, R.WriteBack(rid)))
  {
    WriteBackEffect(p.core, s.core, rid);
    WriteBackHoldsStored(p, s, R.Step(p.core, s.core, R.WriteBack(rid)), rid);
  }

  lemma HoldsStoredStep(p: Params, s: System, a: R.Action)
    requires LockInv(p, s) && HoldsStored(s.core) && Enabled(p, s, Core(a))
    ensures HoldsStored(R.Step(p.core, s.core, a))
  {
    match a {
      case Grant(_, _, _, _, _, _, _) => GrantHoldsStored(p, s, a);
      case Delete(_) => GrantHoldsStored(p, s, a);
      case Revoke(_) => RevokeHoldsStored(p, s, a);
      case WriteBack(rid) => AnswerHoldsStored(p, s, rid);
      case _ => CallHoldsStored(p, s, a);
    }
  }

  lemma BoundFrame(c: Config, s: R.System, s': R.System)
    requires BoundAccepted(c, s)
    requires forall rid :: rid in s'.provider.pending && s'.provider.pending[rid].Looked? ==>
               || (rid in s.provider.pending && s.provider.pending[rid] == s'.provider.pending[rid])
               || CheckBound(c, s'.provider.pending[rid].entry, s'.provider.pending[rid].bound).Ok?
    ensures BoundAccepted(c, s')
  {
  }

  /** A bound token made for what is stored passes the provider's check of the entry it finds. */
  lemma HonestBoundAccepted(c: Config, s: R.System, rid: nat, bound: string)
    requires R.Link(c, s) && P.IssuedInv(s.provider) && HoldsStored(s) && TokensFit(c, s)
    requires rid in s.callers && s.callers[rid].phase.Asking? && Honest(c, s.callers[rid].phase.data, bound)
    requires c.hash(s.callers[rid].phase.data.refreshToken) in s.provider.store.byHash
    ensures CheckBound(c, s.provider.store.byHash[c.hash(s.callers[rid].phase.data.refreshToken)], bound).Ok?
  {
    assert R.TokenOk(c, s, s.callers[rid].flowId);
  }

  /** A request that finds its entry is the only renewal that begins. */
  lemma LookEffect(p: R.Params, s: R.System, rid: nat, bound: string)
    requires R.Enabled(p, s, R.Look(rid, bound))
    ensures var h, pending' := p.config.hash(s.callers[rid].phase.data.refreshToken), R.Step(p, s, R.Look(rid, bound)).provider.pending;
            pending' == if h in s.provider.store.byHash
                        then s.provider.pending[rid := P.Looked(h, s.provider.store.byHash[h], bound)] else s.provider.pending
  {
  }

  lemma LookBoundAccepted(p: Params, s: R.System, rid: nat, bound: string)
    requires R.Link(p.core.config, s) && P.IssuedInv(s.provider)
    requires HoldsStored(s) && TokensFit(p.core.config, s) && BoundAccepted(p.core.config, s)
    requires R.Enabled(p.core, s, R.Look(rid, bound)) && Honest(p.core.config, s.callers[rid].phase.data, bound)
    ensures BoundAccepted(p.core.config, R.Step(p.core, s, R.Look(rid, bound)))
  {
    LookEffect(p.core, s, rid, bound);
    if p.core.config.hash(s.callers[rid].phase.data.refreshToken) in s.provider.store.byHash {
      HonestBoundAccepted(p.core.config, s, rid, bound);
    }
    BoundFrame(p.core.config, s, R.Step(p.core, s, R.Look(rid, bound)));
  }

  lemma MintBoundAccepted(p: Params, s: System, a: R.Action)
    requires BoundAccepted(p.core.config, s.core) && a.Mint? && Enabled(p, s, Core(a))
    ensures BoundAccepted(p.core.config, R.Step(p.core, s.core, a))
  {
    var s' := R.Step(p.core, s.core, a);
    P.MintEffect(p.core.config, s.core.provider, P.Mint(a.rid, a.now, a.jti, a.refreshToken));
    forall rid | rid in s'.provider.pending && s'.provider.pending[rid].Looked?
      ensures rid in s.core.provider.pending && s.core.provider.pending[rid] == s'.provider.pending[rid]
    {
      assert rid in s'.provider.pending - {a.rid};
      assert s'.provider.pending[rid] == (s.core.provider.pending - {a.rid})[rid];
    }
    BoundFrame(p.core.config, s.core, s');
  }

  lemma OtherBoundAccepted(p: Params, s: System, a: R.Action)
    requires BoundAccepted(p.core.config, s.core) && !a.Look? && !a.Mint? && Enabled(p, s, Core(a))
    ensures BoundAccepted(p.core.config, R.Step(p.core, s.core, a))
  {
    var q, q' := s.core.provider.pending, R.Step(p.core, s.core, a).provider.pending;
    assert forall rid :: rid in q' ==> rid in q && q'[rid] == q[rid];
    BoundFrame(p.core.config, s.core, R.Step(p.core, s.core, a));
  }

  lemma BoundAcceptedStep(p: Params, s: System, a: R.Action)
    requires R.Link(p.core.config, s.core) && P.IssuedInv(s.core.provider)
    requires HoldsStored(s.core) && TokensFit(p.core.config, s.core) && BoundAccepted(p.core.config, s.core)
    requires Enabled(p, s, Core(a))
    ensures BoundAccepted(p.core.config, R.Step(p.core, s.core, a))
  {
    match a {
      case Look(rid, bound) => LookBoundAccepted(p, s.core, rid, bound);
      case Mint(_, _, _, _) => MintBoundAccepted(p, s, a);
      case _ => OtherBoundAccepted(p, s, a);
    }
  }

  // ---------------------------------------------------------------- stored tokens fit the provider

  lemma FitsFrame(c: Config, s: R.System, s': R.System)
    requires TokensFit(c, s) && R.Extends(s.provider, s'.provider)
    requires forall f :: f in s'.tokens ==>
               || (f in s.tokens && s'.tokens[f] == s.tokens[f])
               || Fits(s'.provider, c.hash(s'.tokens[f].refreshToken), s'.tokens[f])
    requires forall rid :: rid in s'.callers && s'.callers[rid].phase.Answered? && s'.callers[rid].flowId in s'.tokens ==>
               var f := s'.callers[rid].flowId;
               || (&& rid in s.callers && s'.callers[rid] == s.callers[rid]
                   && f in s.tokens && s'.tokens[f] == s.tokens[f])
               || Fits(s'.provider, c.hash(s'.callers[rid].phase.answer.refreshToken), s'.tokens[f])
    ensures TokensFit(c, s')
  {
  }

  lemma IssueFits(c: Config, s: R.System, s': R.System, e: Entry)
    requires TokensFit(c, s) && R.Quiet(s, e.flowId) && e.hash !in s.provider.issued
    requires s'.provider == P.Issue(s.provider, e) && s'.callers == s.callers && e.flowId in s'.tokens
    requires s'.tokens == s.tokens[e.flowId := s'.tokens[e.flowId]]
    requires c.hash(s'.tokens[e.flowId].refreshToken) == e.hash
    requires e.subject == s'.tokens[e.flowId].participantId && e.audience == s'.tokens[e.flowId].counterPartyId
    ensures TokensFit(c, s')
  {
    forall rid | rid in s'.callers && s'.callers[rid].phase.Answered? ensures s'.callers[rid].flowId != e.flowId {
      assert R.Active(s'.callers[rid].phase);
    }
    FitsFrame(c, s, s');
  }

  lemma GrantFits(p: Params, s: System, a: R.Action)
    requires TokensFit(p.core.config, s.core) && P.IssuedInv(s.core.provider) && a.Grant? && Enabled(p, s, Core(a))
    ensures TokensFit(p.core.config, R.Step(p.core, s.core, a))
  {
    var r := NewEntry(p.core.config, a.pc, a.subject, a.claims, a.data.identifier, a.now, a.jti, a.refreshToken);
    if AllowedClaims(a.claims) && r.Ok? {
      IssueFits(p.core.config, s.core, R.Step(p.core, s.core, a), r.value);
    } else {
      FitsFrame(p.core.config, s.core, R.Step(p.core, s.core, a));
    }
  }

  /** The answer is for an entry of the same grant as the one it replaced, which is what was stored. */
  lemma AnswerFits(c: Config, s: R.System, s': R.System, rid: nat)
    requires TokensFit(c, s) && HoldsStored(s) && rid in s.callers && s.callers[rid].phase.Asked?
    requires rid in s.provider.pending && s.provider.pending[rid].Ready? && R.PendingOk(c, s, rid)
    requires R.Renewal(s.provider, s'.provider, rid, s.provider.pending[rid])
    requires var q := s.provider.pending[rid];
             && P.SameGrant(q.entry, q.next) && q.hash in s.provider.issued && s.provider.issued[q.hash] == q.entry
             && q.next.hash in s'.provider.issued && s'.provider.issued[q.next.hash] == q.next
             && rid in s'.callers && s'.callers == s.callers[rid := s'.callers[rid]]
             && s'.callers[rid].flowId == s.callers[rid].flowId && s'.callers[rid].phase.Answered?
             && s'.callers[rid].phase.answer.refreshToken == q.refreshToken && s'.tokens == s.tokens
    ensures TokensFit(c, s')
  {
    FitsFrame(c, s, s');
  }

  lemma CommitFits(p: Params, s: System, a: R.Action)
    requires TokensFit(p.core.config, s.core) && HoldsStored(s.core) && a.Commit? && Enabled(p, s, Core(a))
    requires P.Renews(s.core.provider, P.Commit(a.rid)) && R.PendingOk(p.core.config, s.core, a.rid)
    requires var r, q := s.core.provider, s.core.provider.pending[a.rid];
             && R.Renewal(r, P.Replace(r, a.rid, q), a.rid, q)
             && P.SameGrant(q.entry, q.next) && q.hash in r.issued && r.issued[q.hash] == q.entry
    ensures TokensFit(p.core.config, R.Step(p.core, s.core, a))
  {
    AnswerFits(p.core.config, s.core, R.Step(p.core, s.core, a), a.rid);
  }

  lemma FailedCommitFits(p: Params, s: System, a: R.Action)
    requires TokensFit(p.core.config, s.core) && a.Commit? && Enabled(p, s, Core(a))
    requires !P.Renews(s.core.provider, P.Commit(a.rid))
    ensures TokensFit(p.core.config, R.Step(p.core, s.core, a))
  {
    FitsFrame(p.core.config, s.core, R.Step(p.core, s.core, a));
  }

  lemma AnyCommitFits(p: Params, s: System, a: R.Action)
    requires R.Inv(p.core.config, s.core) && HoldsStored(s.core) && TokensFit(p.core.config, s.core)
    requires a.Commit? && Enabled(p, s, Core(a))
    ensures TokensFit(p.core.config, R.Step(p.core, s.core, a))
  {
    if P.Renews(s.core.provider, P.Commit(a.rid)) {
      CommitRenewal(p.core.config, s.core, a.rid);
      CommitFits(p, s, a);
    } else {
      FailedCommitFits(p, s, a);
    }
  }

  lemma CommitRenewal(c: Config, s: R.System, rid: nat)
    requires R.Inv(c, s) && P.Renews(s.provider, P.Commit(rid))
    ensures rid in s.provider.pending && s.provider.pending[rid].Ready? && R.PendingOk(c, s, rid)
    ensures var r, q := s.provider, s.provider.pending[rid];
            && R.Renewal(r, P.Replace(r, rid, q), rid, q)
            && P.SameGrant(q.entry, q.next) && q.hash in r.issued && r.issued[q.hash] == q.entry
  {
    R.CommitFactsHold(s.provider, rid);
    R.ReplaceIsRenewal(s.provider, rid);
    assert P.NotStored(s.provider, s.provider.pending[rid]);
    assert R.PendingOk(c, s, rid);
  }

  lemma WriteBackFits(p: R.Params, s: R.System, rid: nat)
    requires R.Link(p.config, s) && TokensFit(p.config, s) && R.Enabled(p, s, R.WriteBack(rid))
    ensures TokensFit(p.config, R.Step(p, s, R.WriteBack(rid)))
  {
    var s', f := R.Step(p, s, R.WriteBack(rid)), s.callers[rid].flowId;
    assert R.InFlight(s, f, rid) && R.CallerOk(p.config, s, rid);
    WriteBackEffect(p, s, rid);
    forall q | q in s'.callers && s'.callers[q].phase.Answered? ensures s'.callers[q] == s.callers[q] && s'.callers[q].flowId != f {
      assert R.InFlight(s, s.callers[q].flowId, q);
    }
    WriteBackTokenFits(p, s, rid);
    FitsFrame(p.config, s, s');
  }

  /** What is written back fits, being an answer. */
  lemma WriteBackTokenFits(p: R.Params, s: R.System, rid: nat)
    requires TokensFit(p.config, s) && R.Enabled(p, s, R.WriteBack(rid)) && s.callers[rid].flowId in s.tokens
    ensures var s', f := R.Step(p, s, R.WriteBack(rid)), s.callers[rid].flowId;
            && s'.provider == s.provider && s'.tokens.Keys == s.tokens.Keys
            && Fits(s'.provider, p.config.hash(s'.tokens[f].refreshToken), s'.tokens[f])
  {
  }

  lemma RevokeFits(p: Params, s: System, a: R.Action)
    requires TokensFit(p.core.config, s.core) && a.Revoke? && Enabled(p, s, Core(a))
    ensures TokensFit(p.core.config, R.Step(p.core, s.core, a))
  {
    FitsFrame(p.core.config, s.core, R.Step(p.core, s.core, a));
  }

  lemma MovesFit(c: Config, s: R.System, s': R.System, rid: nat)
    requires TokensFit(c, s) && R.Moves(s, s', rid)
    ensures TokensFit(c, s')
  {
    forall q | q in s'.callers && s'.callers[q].phase.Answered? ensures q in s.callers && s'.callers[q] == s.callers[q] {
      assert q in s'.callers - {rid};
      assert s'.callers[q] == (s.callers - {rid})[q];
    }
    FitsFrame(c, s, s');
  }

  lemma MoveFits(p: R.Params, s: R.System, a: R.Action)
    requires TokensFit(p.config, s) && R.IsMove(a) && R.Enabled(p, s, a)
    ensures TokensFit(p.config, R.Step(p, s, a))
  {
    R.MoveMoves(p, s, a);
    MovesFit(p.config, s, R.Step(p, s, a), a.rid);
  }

  lemma LoseFits(p: R.Params, s: R.System, rid: nat)
    requires TokensFit(p.config, s) && R.Enabled(p, s, R.Lose(rid))
    ensures TokensFit(p.config, R.Step(p, s, R.Lose(rid)))
  {
    FitsFrame(p.config, s, R.Step(p, s, R.Lose(rid)));
  }

  lemma DeleteFits(p: R.Params, s: R.System, f: string)
    requires TokensFit(p.config, s) && R.Enabled(p, s, R.Delete(f))
    ensures TokensFit(p.config, R.Step(p, s, R.Delete(f)))
  {
    FitsFrame(p.config, s, R.Step(p, s, R.Delete(f)));
  }

  // ---------------------------------------------------------------- every step keeps the invariant

  lemma TokensFitStep(p: Params, s: System, a: R.Action)
    requires R.Inv(p.core.config, s.core) && HoldsStored(s.core) && TokensFit(p.core.config, s.core) && Enabled(p, s, Core(a))
    ensures TokensFit(p.core.config, R.Step(p.core, s.core, a))
  {
    match a {
      case Grant(_, _, _, _, _, _, _) => GrantFits(p, s, a);
      case Commit(_, _) => AnyCommitFits(p, s, a);
      case WriteBack(rid) => WriteBackFits(p.core, s.core, rid);
      case Delete(f) => DeleteFits(p.core, s.core, f);
      case Revoke(_) => RevokeFits(p, s, a);
      case Lose(rid) => LoseFits(p.core, s.core, rid);
      case _ => MoveFits(p.core, s.core, a);
    }
  }

  lemma CoreInv(p: Params, s: System, a: R.Action)
    requires R.Inv(p.core.config, s.core) && LockInv(p, s)
    requires HoldsStored(s.core) && TokensFit(p.core.config, s.core) && BoundAccepted(p.core.config, s.core)
    requires Enabled(p, s, Core(a))
    ensures var s' := R.Step(p.core, s.core, a);
            HoldsStored(s') && BoundAccepted(p.core.config, s') && TokensFit(p.core.config, s')
  {
    HoldsStoredStep(p, s, a);
    BoundAcceptedStep(p, s, a);
    TokensFitStep(p, s, a);
  }

  /** The step of the unlocked protocol this step is, if it is one. */
  function CoreAction(p: Params, s: System, a: Action): Option<R.Action> {
    match a
    case Core(b) => Some(b)
    case Begin(rid, flowId, _) => Some(R.Start(rid, flowId, s.now))
    case Lock(rid) =>
      if rid !in s.core.callers || rid !in s.owners then None
      else if Acquired(s.locks, s.core.callers[rid].flowId, s.owners[rid], s.now, p.timeout).Ok? then Some(R.Enter(rid))
      else Some(R.GiveUp(rid))
    case Unlock(_) => None
    case Tick(_) => None
  }

  /** With the lock, the tokens and the provider do only what they may do without it. */
  lemma LockedRefinesUnlocked(p: Params, s: System, a: Action)
    requires Enabled(p, s, a)
    ensures match CoreAction(p, s, a)
            case None => Step(p, s, a).core == s.core
            case Some(b) => R.Enabled(p.core, s.core, b) && Step(p, s, a).core == R.Step(p.core, s.core, b)
  {
  }

  lemma EntryInv(p: Params, s: System, a: R.Action)
    requires HoldsStored(s.core) && TokensFit(p.core.config, s.core) && BoundAccepted(p.core.config, s.core)
    requires (a.Start? || a.Enter? || a.GiveUp?) && R.Enabled(p.core, s.core, a)
    ensures var s' := R.Step(p.core, s.core, a);
            HoldsStored(s') && BoundAccepted(p.core.config, s') && TokensFit(p.core.config, s')
  {
    var s' := R.Step(p.core, s.core, a);
    MoveHoldsStored(s.core, s', a.rid);
    BoundFrame(p.core.config, s.core, s');
    MoveFits(p.core, s.core, a);
  }

  lemma StepInv(p: Params, s: System, a: Action)
    requires Inv(p, s) && Enabled(p, s, a) && p.timeout >= 0
    ensures Inv(p, Step(p, s, a))
  {
    StepLockInv(p, s, a);
    LockedRefinesUnlocked(p, s, a);
    var b := CoreAction(p, s, a);
    if b.Some? {
      R.StepInv(p.core, s.core, b.value);
      if a.Core? { CoreInv(p, s, b.value); } else { EntryInv(p, s, b.value); }
    }
  }

  const NOBODY: System := System(R.INITIAL, map[], 0, map[], {})

  ghost predicate IsRun(p: Params, states: seq<System>, actions: seq<Action>) {
    && |states| == |actions| + 1 && states[0] == NOBODY.(now := states[0].now) && p.timeout >= 0
    && forall i :: 0 <= i < |actions| ==> Enabled(p, states[i], actions[i]) && states[i + 1] == Step(p, states[i], actions[i])
  }

  lemma {:induction false} RunInv(p: Params, states: seq<System>, actions: seq<Action>, n: nat)
    requires IsRun(p, states, actions) && n <= |actions|
    ensures Inv(p, states[n])
  {
    if n == 0 {
      P.InitialInv();
    } else {
      RunInv(p, states, actions, n - 1);
      StepInv(p, states[n - 1], actions[n - 1]);
    }
  }

  // ---------------------------------------------------------------- what the lock adds

  /** At most one call per identifier is between acquiring the lock and having written back. */
  lemma MutualExclusion(p: Params, states: seq<System>, actions: seq<Action>, n: nat, rid: nat, q: nat)
    requires IsRun(p, states, actions) && n <= |actions|
    requires var s := states[n].core;
             && rid in s.callers && q in s.callers && s.callers[rid].flowId == s.callers[q].flowId
             && Critical(s.callers[rid].phase) && Critical(s.callers[q].phase)
    ensures rid == q
  {
    RunInv(p, states, actions, n);
    OneInCriticalSection(p, states[n], rid, q);
  }

  lemma NoAnswerWhileHolding(p: Params, s: System, rid: nat)
    requires LockInv(p, s) && rid in s.core.callers && R.Holding(s.core.callers[rid].phase)
    ensures forall q :: !R.InFlight(s.core, s.core.callers[rid].flowId, q)
  {
    forall q ensures !R.InFlight(s.core, s.core.callers[rid].flowId, q) {
      if R.InFlight(s.core, s.core.callers[rid].flowId, q) { OneInCriticalSection(p, s, rid, q); }
    }
  }

  /** Whoever asks for a refresh of a live flow presents its live refresh token, exactly unless the flow
      has lost an answer. */
  lemma PresentsLive(p: Params, s: System, rid: nat)
    requires R.Link(p.core.config, s.core) && P.IssuedInv(s.core.provider) && Aligned(s.core.provider.store)
    requires LockInv(p, s) && HoldsStored(s.core)
    requires rid in s.core.callers && R.Holding(s.core.callers[rid].phase)
    requires s.core.callers[rid].flowId in s.core.provider.store.byFlow
    ensures var f, h := s.core.callers[rid].flowId, p.core.config.hash(s.core.callers[rid].phase.data.refreshToken);
            && (h == s.core.provider.store.byFlow[f].hash <==> f !in s.core.lost)
            && (f !in s.core.lost ==> h in s.core.provider.store.byHash)
  {
    NoAnswerWhileHolding(p, s, rid);
    R.StoredIsLiveIff(p.core.config, s.core, s.core.callers[rid].flowId);
  }

  /** The provider does not turn the request down. */
  predicate NotRefused(c: Config, s: R.System, s': R.System, a: R.Action) {
    match a
    case Look(rid, _) => rid in s'.callers && s'.callers[rid].phase.Asked?
    case Mint(rid, _, _, _) =>
      && rid in s.provider.pending && s.provider.pending[rid].Looked?
      && CheckBound(c, s.provider.pending[rid].entry, s.provider.pending[rid].bound).Ok?
    case Commit(rid, _) => rid in s'.callers && s'.callers[rid].phase.Answered?
    case _ => true
  }

  lemma LookNotRefused(p: R.Params, s: R.System, rid: nat, bound: string)
    requires R.Enabled(p, s, R.Look(rid, bound))
    requires p.config.hash(s.callers[rid].phase.data.refreshToken) in s.provider.store.byHash
    ensures NotRefused(p.config, s, R.Step(p, s, R.Look(rid, bound)), R.Look(rid, bound))
  {
  }

  lemma CommitNotRefused(p: R.Params, s: R.System, rid: nat, expiresAt: int)
    requires R.Enabled(p, s, R.Commit(rid, expiresAt)) && R.PendingOk(p.config, s, rid)
    requires p.config.hash(s.callers[rid].phase.data.refreshToken) in s.provider.store.byHash
    ensures NotRefused(p.config, s, R.Step(p, s, R.Commit(rid, expiresAt)), R.Commit(rid, expiresAt))
  {
  }

  lemma StepNotRefused(p: Params, s: System, a: R.Action)
    requires R.Link(p.core.config, s.core) && BoundAccepted(p.core.config, s.core) && R.Enabled(p.core, s.core, a)
    requires a.Look? || a.Mint? || a.Commit?
    requires p.core.config.hash(s.core.callers[a.rid].phase.data.refreshToken) in s.core.provider.store.byHash
    ensures NotRefused(p.core.config, s.core, R.Step(p.core, s.core, a), a)
  {
    match a {
      case Look(rid, bound) => LookNotRefused(p.core, s.core, rid, bound);
      case Commit(rid, expiresAt) =>
        assert R.PendingOk(p.core.config, s.core, rid);
        CommitNotRefused(p.core, s.core, rid, expiresAt);
      case _ =>
    }
  }

  lemma LostIsRefused(p: Params, s: System, a: R.Action)
    requires R.Link(p.core.config, s.core) && R.Enabled(p.core, s.core, a) && (a.Look? || a.Commit?)
    requires s.core.callers[a.rid].flowId in s.core.lost
    ensures !NotRefused(p.core.config, s.core, R.Step(p.core, s.core, a), a)
  {
    R.RefusedWhenLost(p.core, s.core, a);
  }

  /** Under the lock a refresh of a live flow is refused as stale exactly when the flow has lost an answer:
      otherwise its refresh token is found, its bound token passes the check, and its update replaces the
      entry. */
  lemma NeverRefusedAsStale(p: Params, states: seq<System>, actions: seq<Action>, n: nat, a: R.Action)
    requires IsRun(p, states, actions) && n < |actions| && actions[n] == Core(a) && (a.Look? || a.Mint? || a.Commit?)
    requires states[n].core.callers[a.rid].flowId in states[n].core.provider.store.byFlow
    ensures var lost := states[n].core.callers[a.rid].flowId in states[n].core.lost;
            && (!lost ==> NotRefused(p.core.config, states[n].core, states[n + 1].core, a))
            && (lost && !a.Mint? ==> !NotRefused(p.core.config, states[n].core, states[n + 1].core, a))
  {
    RunInv(p, states, actions, n);
    if states[n].core.callers[a.rid].flowId in states[n].core.lost {
      if !a.Mint? { LostIsRefused(p, states[n], a); }
    } else {
      PresentsLive(p, states[n], a.rid);
      StepNotRefused(p, states[n], a);
    }
  }
}
