/**
 The in-memory lock manager: leased, reentrant locks per identifier. Clock readings are arguments.
 The functions give each operation's effect on the map of records; `Live` is the part of the map that
 has not expired, which is all a caller of `lock` or `lock_count` can observe.
 */
module MemoryLocks {
  import opened Wrappers
  import opened Arithmetic

  datatype LockRecord = LockRecord(owner: string, acquiredAt: int, count: nat)

  type Locks = map<string, LockRecord>

  datatype LockError =
    | LockAlreadyHeld(identifier: string, owner: string, attemptedOwner: string)
    | LockNotFound(identifier: string, owner: string)
    | StoreError(message: string)
    | InternalError(message: string)

  predicate Expired(r: LockRecord, now: int, timeout: int) { now - r.acquiredAt > timeout }

  /** The records that have not expired. */
  function Live(locks: Locks, now: int, timeout: int): Locks {
    map id | id in locks && !Expired(locks[id], now, timeout) :: locks[id]
  }

  /** Every record counts at least one acquisition; otherwise `unlock` would underflow. */
  ghost predicate WellCounted(locks: Locks) { forall id :: id in locks ==> locks[id].count >= 1 }

  function Cleaned(locks: Locks, id: string, now: int, timeout: int): Locks {
    if id in locks && Expired(locks[id], now, timeout) then locks - {id} else locks
  }

  function Acquired(locks: Locks, id: string, owner: string, now: int, timeout: int): Result<Locks, LockError> {
    var m := Cleaned(locks, id, now, timeout);
    if id !in m then Ok(m[id := LockRecord(owner, now, 1)])
    else if m[id].owner == owner then Ok(m[id := LockRecord(owner, now, m[id].count + 1)])
    else Err(LockAlreadyHeld(id, m[id].owner, owner))
  }

  function Released(locks: Locks, id: string, owner: string): Result<Locks, LockError> {
    if id !in locks then Err(LockNotFound(id, owner))
    else if locks[id].owner != owner then Err(LockAlreadyHeld(id, locks[id].owner, owner))
    else if locks[id].count <= 1 then Ok(locks - {id})
    else Ok(locks[id := locks[id].(count := locks[id].count - 1)])
  }

  function Counted(locks: Locks, id: string, owner: string, now: int, timeout: int): nat {
    if id in locks && locks[id].owner == owner && !Expired(locks[id], now, timeout)
    then locks[id].count % U32_RANGE else 0
  }

  function Without(locks: Locks, owner: string): Locks {
    map id | id in locks && locks[id].owner != owner :: locks[id]
  }

  class MemoryLockManager {
    var locks: Locks
    const timeout: int

    ghost predicate Valid()
      reads this
    {
      WellCounted(locks)
    }

    constructor (timeout: int)
      ensures Valid() && locks == map[] && this.timeout == timeout
    {
      locks := map[];
      this.timeout := timeout;
    }

    method CleanupExpiredLock(identifier: string, now: int)
      requires Valid()
      modifies this
      ensures Valid() && locks == Cleaned(old(locks), identifier, now, timeout)
    {
      if identifier in locks && Expired(locks[identifier], now, timeout) {
        locks := locks - {identifier};
      }
    }

    method Lock(identifier: string, owner: string, now: int) returns (r: Result<(), LockError>)
      requires Valid()
      modifies this
      ensures Valid()
      ensures match Acquired(old(locks), identifier, owner, now, timeout)
              case Ok(m) => r == Ok(()) && locks == m
              case Err(e) => r == Err(e) && locks == old(locks)
      ensures var was := old(locks);
              && (r.Ok? <==> || identifier !in was || was[identifier].owner == owner
                             || now - was[identifier].acquiredAt > timeout)
              && (r.Ok? ==>
                    && identifier in locks && locks == was[identifier := locks[identifier]]
                    && locks[identifier].owner == owner && locks[identifier].acquiredAt == now
                    && locks[identifier].count ==
                       1 + if identifier in was && now - was[identifier].acquiredAt <= timeout then was[identifier].count else 0)
              && (r.Err? ==> locks == was && r == Err(LockAlreadyHeld(identifier, was[identifier].owner, owner)))
    {
      CleanupExpiredLock(identifier, now);
      if identifier in locks {
        var existing := locks[identifier];
        if existing.owner == owner {
          locks := locks[identifier := LockRecord(owner, now, existing.count + 1)];
          return Ok(());
        }
        return Err(LockAlreadyHeld(identifier, existing.owner, owner));
      }
      locks := locks[identifier := LockRecord(owner, now, 1)];
      r := Ok(());
    }

    method Unlock(identifier: string, owner: string) returns (r: Result<(), LockError>)
      requires Valid()
      modifies this
      ensures Valid()
      ensures match Released(old(locks), identifier, owner)
              case Ok(m) => r == Ok(()) && locks == m
              case Err(e) => r == Err(e) && locks == old(locks)
      ensures var was := old(locks);
              && (r.Ok? <==> identifier in was && was[identifier].owner == owner)
              && (r.Ok? ==>
                    && (identifier in locks <==> was[identifier].count > 1)
                    && (identifier in locks ==>
                          locks[identifier] == LockRecord(owner, was[identifier].acquiredAt, was[identifier].count - 1))
                    && locks - {identifier} == was - {identifier})
              && (r.Err? ==>
                    && locks == was
                    && r == Err(if identifier in was then LockAlreadyHeld(identifier, was[identifier].owner, owner)
                                else LockNotFound(identifier, owner)))
    {
      if identifier !in locks {
        return Err(LockNotFound(identifier, owner));
      }
      var lock := locks[identifier];
      if lock.owner != owner {
        return Err(LockAlreadyHeld(identifier, lock.owner, owner));
      }
      var left := lock.count - 1;
      if left == 0 {
        locks := locks - {identifier};
      } else {
        locks := locks[identifier := lock.(count := left)];
      }
      r := Ok(());
    }

    method LockCount(identifier: string, owner: string, now: int) returns (n: nat)
      ensures n == Counted(locks, identifier, owner, now, timeout)
      ensures n == if identifier in locks && locks[identifier].owner == owner && now - locks[identifier].acquiredAt <= timeout
                   then locks[identifier].count % 0x1_0000_0000 else 0
    {
      if identifier in locks {
        var lock := locks[identifier];
        if lock.owner == owner && !Expired(lock, now, timeout) {
          return lock.count % U32_RANGE;
        }
      }
      n := 0;
    }

    method ReleaseLocks(owner: string)
      requires Valid()
      modifies this
      ensures Valid() && locks == Without(old(locks), owner)
      ensures forall id :: id in locks <==> id in old(locks) && old(locks)[id].owner != owner
      ensures forall id :: id in locks ==> locks[id] == old(locks)[id]
    {
      locks := map id | id in locks && locks[id].owner != owner :: locks[id];
    }
  }

  /** Exactly when a second caller gets a lock somebody has just acquired: when it is the same owner, or
      the lease ran out in between. A caller that passes the identifier itself as owner, as the token
      API handler does, is therefore never refused. */
  lemma SecondAcquireSucceedsIff(locks: Locks, id: string, o0: string, o1: string, t0: int, t1: int, timeout: int)
    requires Acquired(locks, id, o0, t0, timeout).Ok?
    ensures Acquired(Acquired(locks, id, o0, t0, timeout).value, id, o1, t1, timeout).Ok? <==>
            o0 == o1 || t1 - t0 > timeout
  {
  }

  /** Releasing what was just acquired restores what can be observed, but for the renewed lease of a
      lock that was already held. */
  lemma ReleaseUndoesAcquire(locks: Locks, id: string, owner: string, now: int, timeout: int)
    requires WellCounted(locks) && Acquired(locks, id, owner, now, timeout).Ok? && timeout >= 0
    ensures var r := Released(Acquired(locks, id, owner, now, timeout).value, id, owner);
            && r.Ok?
            && Live(r.value, now, timeout) ==
               if id in Live(locks, now, timeout) then Live(locks, now, timeout)[id := locks[id].(acquiredAt := now)]
               else Live(locks, now, timeout)
  {
  }

  function AcquiredTimes(id: string, owner: string, now: int, timeout: int, n: nat): Locks {
    if n == 0 then map[] else
    var m := AcquiredTimes(id, owner, now, timeout, n - 1);
    match Acquired(m, id, owner, now, timeout) case Ok(l) => l case Err(_) => m
  }

  /** The locks left, and how many of the `m` releases succeeded. */
  function ReleasedTimes(locks: Locks, id: string, owner: string, m: nat): (r: (Locks, nat))
    decreases m
  {
    if m == 0 then (locks, 0) else
    match Released(locks, id, owner)
    case Err(_) => ReleasedTimes(locks, id, owner, m - 1)
    case Ok(l) => var (l', k) := ReleasedTimes(l, id, owner, m - 1); (l', k + 1)
  }

  function HeldTimes(id: string, owner: string, now: int, n: nat): Locks {
    if n == 0 then map[] else map[id := LockRecord(owner, now, n)]
  }

  lemma {:induction false} AcquiresCount(id: string, owner: string, now: int, timeout: int, n: nat)
    requires timeout >= 0
    ensures AcquiredTimes(id, owner, now, timeout, n) == HeldTimes(id, owner, now, n)
  {
    if n > 0 {
      AcquiresCount(id, owner, now, timeout, n - 1);
    }
  }

  lemma {:induction false} ReleasesCount(id: string, owner: string, now: int, n: nat, m: nat)
    ensures ReleasedTimes(HeldTimes(id, owner, now, n), id, owner, m)
            == (HeldTimes(id, owner, now, if m < n then n - m else 0), if m < n then m else n)
    decreases m
  {
    if m > 0 {
      var l := HeldTimes(id, owner, now, n);
      if n > 0 {
        assert Released(l, id, owner).value == HeldTimes(id, owner, now, n - 1);
        ReleasesCount(id, owner, now, n - 1, m - 1);
      } else {
        ReleasesCount(id, owner, now, 0, m - 1);
      }
    }
  }

  /** Of `m` releases after `n` acquisitions exactly `min(n, m)` succeed, and `n - m` remain. */
  lemma ReleasesSucceedMin(id: string, owner: string, now: int, timeout: int, n: nat, m: nat)
    requires timeout >= 0
    ensures var (left, k) := ReleasedTimes(AcquiredTimes(id, owner, now, timeout, n), id, owner, m);
            && k == (if m < n then m else n)
            && Counted(left, id, owner, now, timeout) == (if m < n then n - m else 0) % U32_RANGE
            && (id in left <==> m < n)
  {
    AcquiresCount(id, owner, now, timeout, n);
    ReleasesCount(id, owner, now, n, m);
  }
}
