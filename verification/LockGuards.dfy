/**
 Guards of the in-memory lock manager. A successful `lock` hands out a guard; dropping it only spawns a
 task, whose `unlock` runs later, in any order. A lock has an epoch: from the insertion of its record
 to the record's removal. `release_locks` is not used here. An unlock may run against a later lock of
 the same owner; what the guards stand for then survives exactly when the unlock is harmless.
 */
module LockGuards {
  import opened Wrappers
  import opened MemoryLocks

  datatype Guard = Guard(id: string, owner: string, epoch: nat)

  /** `held` are the guards in scope, `spawned` those dropped whose unlock has not run. `epoch` is the
      last epoch of an identifier, `last` the time of an epoch's last acquisition. */
  datatype System = System(
    locks: Locks,
    now: int,
    held: multiset<Guard>,
    spawned: multiset<Guard>,
    epoch: map<string, nat>,
    last: map<nat, int>,
    next: nat)

  datatype Action =
    | Lock(id: string, owner: string)
    | Drop(guard: Guard)
    | RunUnlock(guard: Guard)
    | Tick(elapsed: nat)

  /** How many guards equal to `g` still have to be released. */
  function Outstanding(s: System, g: Guard): nat { s.held[g] + s.spawned[g] }

  /** The record of the guard's identifier is that of the guard's own lock. */
  predicate Current(s: System, g: Guard) { g.id in s.locks && g.id in s.epoch && s.epoch[g.id] == g.epoch }

  predicate Enabled(s: System, a: Action) {
    match a
    case Lock(_, _) => true
    case Drop(g) => s.held[g] > 0
    case RunUnlock(g) => s.spawned[g] > 0
    case Tick(_) => true
  }

  /** The unlock takes nothing away from a later lock: the record is its own lock's, somebody else's or
      gone, or it has a single acquisition left and has expired. */
  predicate HarmlessUnlock(s: System, g: Guard, timeout: int) {
    g.id in s.locks && s.locks[g.id].owner == g.owner ==>
      Current(s, g) || (s.locks[g.id].count == 1 && Expired(s.locks[g.id], s.now, timeout))
  }

  predicate Harmless(s: System, a: Action, timeout: int) { a.RunUnlock? ==> HarmlessUnlock(s, a.guard, timeout) }

  function Step(s: System, a: Action, timeout: int): System
    requires Enabled(s, a)
  {
    match a
    case Lock(id, o) =>
      (match Acquired(s.locks, id, o, s.now, timeout)
       case Err(_) => s
       case Ok(l) =>
         if l[id].count == 1 then
           s.(locks := l, held := s.held + multiset{Guard(id, o, s.next)}, epoch := s.epoch[id := s.next],
              last := s.last[s.next := s.now], next := s.next + 1)
         else if id in s.epoch then
           s.(locks := l, held := s.held + multiset{Guard(id, o, s.epoch[id])}, last := s.last[s.epoch[id] := s.now])
         else s)
    case Drop(g) => s.(held := s.held - multiset{g}, spawned := s.spawned + multiset{g})
    case RunUnlock(g) =>
      (match Released(s.locks, g.id, g.owner)
       case Err(_) => s.(spawned := s.spawned - multiset{g})
       case Ok(l) => s.(locks := l, spawned := s.spawned - multiset{g}))
    case Tick(d) => s.(now := s.now + d)
  }

  ghost predicate RecordOk(s: System, id: string)
    requires id in s.locks
  {
    && id in s.epoch && s.epoch[id] < s.next && s.epoch[id] in s.last && s.last[s.epoch[id]] == s.locks[id].acquiredAt
    && s.locks[id].count >= 1
    && s.locks[id].count == Outstanding(s, Guard(id, s.locks[id].owner, s.epoch[id]))
  }

  /** A guard not yet released belongs to the record, or its lease has run out. */
  ghost predicate GuardOk(s: System, g: Guard, timeout: int) {
    && g.epoch < s.next && g.epoch in s.last
    && (if Current(s, g) then s.locks[g.id].owner == g.owner else s.now - s.last[g.epoch] > timeout)
  }

  ghost predicate Inv(s: System, timeout: int) {
    && (forall id :: id in s.locks ==> RecordOk(s, id))
    && (forall g :: Outstanding(s, g) > 0 ==> GuardOk(s, g, timeout))
    && (forall id, g :: id in s.epoch && Outstanding(s, g) > 0 && g.epoch == s.epoch[id] ==> g.id == id)
    && (forall id :: id in s.epoch ==> s.epoch[id] < s.next)
    && (forall i, j :: i in s.epoch && j in s.epoch && s.epoch[i] == s.epoch[j] ==> i == j)
  }

  /** The system after the record of a new lock has been inserted. */
  ghost predicate Inserted(s: System, s': System, id: string, o: string) {
    s' == s.(locks := (s.locks - {id})[id := LockRecord(o, s.now, 1)],
             held := s.held + multiset{Guard(id, o, s.next)}, epoch := s.epoch[id := s.next],
             last := s.last[s.next := s.now], next := s.next + 1)
  }

  lemma OneMoreGuard(s: System, s': System, id: string, o: string, timeout: int)
    requires Inv(s, timeout) && Inserted(s, s', id, o)
    ensures Outstanding(s, Guard(id, o, s.next)) == 0
    ensures forall g :: Outstanding(s', g) == Outstanding(s, g) + if g == Guard(id, o, s.next) then 1 else 0
  {
    var taken := Guard(id, o, s.next);
    assert Outstanding(s, taken) > 0 ==> GuardOk(s, taken, timeout);
  }

  lemma NewLockGuards(s: System, s': System, id: string, o: string, timeout: int)
    requires Inv(s, timeout) && (id in s.locks ==> Expired(s.locks[id], s.now, timeout)) && Inserted(s, s', id, o)
    ensures forall g :: Outstanding(s', g) > 0 ==> GuardOk(s', g, timeout)
    ensures forall i, g :: i in s'.epoch && Outstanding(s', g) > 0 && g.epoch == s'.epoch[i] ==> g.id == i
  {
    OneMoreGuard(s, s', id, o, timeout);
    assert id in s.locks ==> RecordOk(s, id);
    forall g | Outstanding(s', g) > 0 ensures GuardOk(s', g, timeout) {
      if g != Guard(id, o, s.next) { assert GuardOk(s, g, timeout); }
    }
    forall i, g | i in s'.epoch && Outstanding(s', g) > 0 && g.epoch == s'.epoch[i] ensures g.id == i {
      if g != Guard(id, o, s.next) { assert GuardOk(s, g, timeout); }
    }
  }

  lemma NewLockRecords(s: System, s': System, id: string, o: string, timeout: int)
    requires Inv(s, timeout) && Inserted(s, s', id, o)
    ensures forall i :: i in s'.locks ==> RecordOk(s', i)
  {
    OneMoreGuard(s, s', id, o, timeout);
    forall i | i in s'.locks ensures RecordOk(s', i) {
      if i != id { assert RecordOk(s, i); }
    }
  }

  lemma NewLockInv(s: System, s': System, id: string, o: string, timeout: int)
    requires Inv(s, timeout) && (id in s.locks ==> Expired(s.locks[id], s.now, timeout)) && Inserted(s, s', id, o)
    ensures Inv(s', timeout)
  {
    NewLockGuards(s, s', id, o, timeout);
    NewLockRecords(s, s', id, o, timeout);
  }

  lemma RelockInv(s: System, s': System, id: string, timeout: int)
    requires Inv(s, timeout) && id in s.locks && id in s.epoch
    requires var o, n := s.locks[id].owner, s.locks[id].count;
             s' == s.(locks := s.locks[id := LockRecord(o, s.now, n + 1)],
                      held := s.held + multiset{Guard(id, o, s.epoch[id])}, last := s.last[s.epoch[id] := s.now])
    ensures Inv(s', timeout)
  {
    var taken := Guard(id, s.locks[id].owner, s.epoch[id]);
    assert RecordOk(s, id);
    forall g ensures Outstanding(s', g) == Outstanding(s, g) + if g == taken then 1 else 0 {}
    forall g | Outstanding(s', g) > 0 ensures GuardOk(s', g, timeout) {
      assert GuardOk(s, g, timeout);
    }
    forall i | i in s'.locks ensures RecordOk(s', i) { assert RecordOk(s, i); }
  }

  lemma LockInv(s: System, id: string, o: string, timeout: int)
    requires Inv(s, timeout)
    ensures Inv(Step(s, Lock(id, o), timeout), timeout)
  {
    if id in s.locks { assert RecordOk(s, id); }
    var s' := Step(s, Lock(id, o), timeout);
    if id !in s.locks || Expired(s.locks[id], s.now, timeout) {
      assert s'.locks == (s.locks - {id})[id := LockRecord(o, s.now, 1)];
      NewLockInv(s, s', id, o, timeout);
    } else if s.locks[id].owner == o {
      RelockInv(s, s', id, timeout);
    }
  }

  lemma DropInv(s: System, g: Guard, timeout: int)
    requires Inv(s, timeout) && s.held[g] > 0
    ensures Inv(Step(s, Drop(g), timeout), timeout)
  {
    var s' := Step(s, Drop(g), timeout);
    forall h ensures Outstanding(s', h) == Outstanding(s, h) {}
    forall h | Outstanding(s', h) > 0 ensures GuardOk(s', h, timeout) { assert GuardOk(s, h, timeout); }
    forall id | id in s'.locks ensures RecordOk(s', id) { assert RecordOk(s, id); }
  }

  lemma OneGuardLess(s: System, g: Guard, timeout: int)
    requires Enabled(s, RunUnlock(g))
    ensures forall h :: Outstanding(Step(s, RunUnlock(g), timeout), h) == Outstanding(s, h) - if h == g then 1 else 0
  {
  }

  lemma RunUnlockRecords(s: System, g: Guard, timeout: int)
    requires Inv(s, timeout) && Enabled(s, RunUnlock(g)) && HarmlessUnlock(s, g, timeout)
    ensures forall id :: id in Step(s, RunUnlock(g), timeout).locks ==> RecordOk(Step(s, RunUnlock(g), timeout), id)
  {
    var s' := Step(s, RunUnlock(g), timeout);
    OneGuardLess(s, g, timeout);
    assert GuardOk(s, g, timeout);
    forall id | id in s'.locks ensures RecordOk(s', id) {
      assert RecordOk(s, id);
      var own := Guard(id, s.locks[id].owner, s.epoch[id]);
      assert Outstanding(s', own) == Outstanding(s, own) - if own == g then 1 else 0;
      assert id != g.id ==> s'.locks[id] == s.locks[id] && own != g;
    }
  }

  lemma RunUnlockGuards(s: System, g: Guard, timeout: int)
    requires Inv(s, timeout) && Enabled(s, RunUnlock(g)) && HarmlessUnlock(s, g, timeout)
    ensures forall h :: Outstanding(Step(s, RunUnlock(g), timeout), h) > 0 ==> GuardOk(Step(s, RunUnlock(g), timeout), h, timeout)
  {
    var s' := Step(s, RunUnlock(g), timeout);
    OneGuardLess(s, g, timeout);
    assert g.id in s.locks ==> RecordOk(s, g.id);
    forall h | Outstanding(s', h) > 0 ensures GuardOk(s', h, timeout) { assert GuardOk(s, h, timeout); }
  }

  lemma RunUnlockInv(s: System, g: Guard, timeout: int)
    requires Inv(s, timeout) && Enabled(s, RunUnlock(g)) && HarmlessUnlock(s, g, timeout)
    ensures Inv(Step(s, RunUnlock(g), timeout), timeout)
  {
    OneGuardLess(s, g, timeout);
    RunUnlockRecords(s, g, timeout);
    RunUnlockGuards(s, g, timeout);
  }

  /** A harmful unlock leaves either a record with fewer acquisitions than guards, or a guard in scope
      whose lease has not run out without its record. */
  lemma HarmfulUnlockBreaks(s: System, g: Guard, timeout: int)
    requires Inv(s, timeout) && Enabled(s, RunUnlock(g)) && !HarmlessUnlock(s, g, timeout)
    ensures !Inv(Step(s, RunUnlock(g), timeout), timeout)
  {
    var s' := Step(s, RunUnlock(g), timeout);
    assert RecordOk(s, g.id);
    var own := Guard(g.id, g.owner, s.epoch[g.id]);
    OneGuardLess(s, g, timeout);
    assert own != g && Outstanding(s', own) == s.locks[g.id].count;
    if s.locks[g.id].count > 1 {
      assert s'.locks[g.id].count == s.locks[g.id].count - 1;
      assert !RecordOk(s', g.id);
    } else {
      assert g.id !in s'.locks && !GuardOk(s', own, timeout);
    }
  }

  /** Exactly when running a dropped guard's unlock keeps what the guards stand for. */
  lemma UnlockKeepsInvIff(s: System, g: Guard, timeout: int)
    requires Inv(s, timeout) && Enabled(s, RunUnlock(g))
    ensures Inv(Step(s, RunUnlock(g), timeout), timeout) <==> HarmlessUnlock(s, g, timeout)
  {
    if HarmlessUnlock(s, g, timeout) { RunUnlockInv(s, g, timeout); } else { HarmfulUnlockBreaks(s, g, timeout); }
  }

  lemma TickInv(s: System, elapsed: nat, timeout: int)
    requires Inv(s, timeout)
    ensures Inv(Step(s, Tick(elapsed), timeout), timeout)
  {
    var s' := Step(s, Tick(elapsed), timeout);
    forall h ensures Outstanding(s', h) == Outstanding(s, h) {}
    forall h | Outstanding(s', h) > 0 ensures GuardOk(s', h, timeout) { assert GuardOk(s, h, timeout); }
    forall id | id in s'.locks ensures RecordOk(s', id) { assert RecordOk(s, id); }
  }

  ghost predicate IsRun(states: seq<System>, actions: seq<Action>, timeout: int) {
    && |states| == |actions| + 1
    && states[0] == System(map[], states[0].now, multiset{}, multiset{}, map[], map[], 0)
    && forall i :: 0 <= i < |actions| ==> Enabled(states[i], actions[i]) && states[i + 1] == Step(states[i], actions[i], timeout)
  }

  /** Every unlock up to `n` was harmless. */
  ghost predicate AllHarmless(states: seq<System>, actions: seq<Action>, timeout: int, n: nat)
    requires n <= |actions| < |states|
  {
    forall k :: 0 <= k < n ==> Harmless(states[k], actions[k], timeout)
  }

  lemma StepInvIff(s: System, a: Action, timeout: int)
    requires Inv(s, timeout) && Enabled(s, a)
    ensures Inv(Step(s, a, timeout), timeout) <==> Harmless(s, a, timeout)
  {
    match a {
      case Lock(id, o) => LockInv(s, id, o, timeout);
      case Drop(g) => DropInv(s, g, timeout);
      case RunUnlock(g) => UnlockKeepsInvIff(s, g, timeout);
      case Tick(d) => TickInv(s, d, timeout);
    }
  }

  lemma {:induction false} RunInv(states: seq<System>, actions: seq<Action>, timeout: int, n: nat)
    requires IsRun(states, actions, timeout) && n <= |actions| && AllHarmless(states, actions, timeout, n)
    ensures Inv(states[n], timeout)
  {
    if n > 0 {
      RunInv(states, actions, timeout, n - 1);
      StepInvIff(states[n - 1], actions[n - 1], timeout);
    }
  }

  /** Over whole runs: the invariant holds all the way exactly when every unlock was harmless. */
  lemma {:induction false} InvariantHoldsIff(states: seq<System>, actions: seq<Action>, timeout: int, n: nat)
    requires IsRun(states, actions, timeout) && n <= |actions|
    ensures (forall k :: 0 <= k <= n ==> Inv(states[k], timeout)) <==> AllHarmless(states, actions, timeout, n)
  {
    if AllHarmless(states, actions, timeout, n) {
      forall k | 0 <= k <= n ensures Inv(states[k], timeout) { RunInv(states, actions, timeout, k); }
    }
    if forall k :: 0 <= k <= n ==> Inv(states[k], timeout) {
      forall k | 0 <= k < n ensures Harmless(states[k], actions[k], timeout) {
        assert Inv(states[k], timeout) && Inv(states[k + 1], timeout);
        StepInvIff(states[k], actions[k], timeout);
      }
    }
  }

  /** In particular an unlock that runs within the lease of its own lock is harmless. */
  lemma UnlockWithinLeaseIsHarmless(s: System, g: Guard, timeout: int)
    requires Inv(s, timeout) && Outstanding(s, g) > 0 && g.epoch in s.last && s.now - s.last[g.epoch] <= timeout
    ensures HarmlessUnlock(s, g, timeout) && Released(s.locks, g.id, g.owner).Ok?
  {
    assert GuardOk(s, g, timeout);
  }

  /** As long as unlocks are harmless the reentrant count of a record is at least one and is exactly the
      number of its guards that are in scope or waiting to be unlocked. */
  lemma CountIsGuardsOutstanding(states: seq<System>, actions: seq<Action>, timeout: int, n: nat, id: string)
    requires IsRun(states, actions, timeout) && n <= |actions| && AllHarmless(states, actions, timeout, n)
    requires id in states[n].locks
    ensures id in states[n].epoch
    ensures var s := states[n];
            s.locks[id].count >= 1 && s.locks[id].count == Outstanding(s, Guard(id, s.locks[id].owner, s.epoch[id]))
  {
    RunInv(states, actions, timeout, n);
    assert RecordOk(states[n], id);
  }

  /** As long as unlocks are harmless nobody else acquires a lock while a guard of it is not released, unless more than the
      timeout has passed since the holder's last acquisition. */
  lemma NoAcquireWhileGuarded(states: seq<System>, actions: seq<Action>, timeout: int, n: nat, g: Guard, o: string)
    requires IsRun(states, actions, timeout) && n <= |actions| && AllHarmless(states, actions, timeout, n)
    requires Outstanding(states[n], g) > 0 && o != g.owner
    requires Acquired(states[n].locks, g.id, o, states[n].now, timeout).Ok?
    ensures g.epoch in states[n].last && states[n].now - states[n].last[g.epoch] > timeout
  {
    RunInv(states, actions, timeout, n);
    assert GuardOk(states[n], g, timeout);
    if Current(states[n], g) { assert RecordOk(states[n], g.id); }
  }

  /** A harmful unlock: run after its lease against a later lock of the same owner, it takes that lock
      away while its guard is still in scope, and anybody can then acquire it at once. */
  lemma StaleUnlockReleasesLaterLock(id: string, o: string, other: string, timeout: nat)
    ensures var first := Acquired(map[], id, o, 0, timeout).value;
            var second := Acquired(first, id, o, timeout + 1, timeout).value;
            && second[id].count == 1
            && Released(second, id, o) == Ok(map[])
            && Acquired(map[], id, other, timeout + 1, timeout).Ok?
  {
    var first := Acquired(map[], id, o, 0, timeout).value;
    assert Cleaned(first, id, timeout + 1, timeout) == map[];
    var second := Acquired(first, id, o, timeout + 1, timeout).value;
    assert second - {id} == map[];
  }
}
