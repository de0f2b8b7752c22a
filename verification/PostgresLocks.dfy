/**
 The Postgres lock manager over its `distributed_locks` table, and its refinement of the in-memory
 one: although one sweeps every expired row and the other only the row asked for, the live locks are the
 same as long as the sweep is not skipped, and only unlocking an expired lock is answered differently.
 */
module PostgresLocks {
  import opened Wrappers
  import opened Arithmetic
  import opened MemoryLocks

  /** The table by primary key; `count` is the INTEGER column `reentrant_count`. */
  type Rows = map<string, LockRecord>

  const I32_MAX: nat := 0x7fff_ffff
  const MAX_RETRIES: nat := 5

  /** `DELETE ... WHERE acquired_at < now - timeout`. */
  function Swept(rows: Rows, now: int, timeout: int): Rows {
    map id | id in rows && !(rows[id].acquiredAt < now - timeout) :: rows[id]
  }

  /** `INSERT ... ON CONFLICT DO UPDATE ... WHERE owner = EXCLUDED.owner RETURNING`: the new table, or
      None when no row is returned. Incrementing the largest INTEGER is an error. */
  function Upserted(rows: Rows, id: string, owner: string, now: int): Result<Option<Rows>, LockError> {
    if id !in rows then Ok(Some(rows[id := LockRecord(owner, now, 1)]))
    else if rows[id].owner != owner then Ok(None)
    else if rows[id].count >= I32_MAX then Err(StoreError("integer out of range"))
    else Ok(Some(rows[id := LockRecord(owner, now, rows[id].count + 1)]))
  }

  /** One undisturbed lock transaction: the table it leaves (an error rolls back) and its answer. */
  function LockTransaction(rows: Rows, id: string, owner: string, now: int, timeout: int, cleanup: bool)
    : (Rows, Result<(), LockError>)
  {
    var swept := if cleanup then Swept(rows, now, timeout) else rows;
    match Upserted(swept, id, owner, now)
    case Err(e) => (rows, Err(e))
    case Ok(Some(t)) => (t, Ok(()))
    case Ok(None) => (swept, Err(LockAlreadyHeld(id, swept[id].owner, owner)))
  }

  /** The unlock transaction: decrement the owner's positive count, then delete the row at zero. */
  function UnlockTransaction(rows: Rows, id: string, owner: string): (Rows, Result<(), LockError>) {
    if id in rows && rows[id].owner == owner && rows[id].count > 0 then
      var t := rows[id := rows[id].(count := rows[id].count - 1)];
      (if t[id].count <= 0 then t - {id} else t, Ok(()))
    else if id in rows && rows[id].owner != owner then
      (rows, Err(LockAlreadyHeld(id, rows[id].owner, owner)))
    else
      (rows, Err(LockNotFound(id, owner)))
  }

  /** Nobody else commits while a call runs. */
  ghost predicate Alone(before: (nat, Rows) -> Rows, others: (nat, Rows) -> Rows) {
    forall k, t :: before(k, t) == t && others(k, t) == t
  }

  class PostgresLockManager {
    var rows: Rows
    const timeout: int
    const retries: nat

    constructor (timeout: int, retries: nat)
      ensures rows == map[] && this.timeout == timeout && this.retries == retries
    {
      rows := map[];
      this.timeout, this.retries := timeout, retries;
    }

    /** The acquisition loop. `clock(k)` is read by the k-th attempt and `cleanup` is the outcome of the
        random draw. Concurrent transactions commit at any time: `before(k, t)` is the table the k-th
        attempt finds, `others(k, t)` what they make of the table between its upsert and its query for
        the owner. */
    method LockInternal(identifier: string, owner: string, clock: nat -> int, cleanup: bool,
                        before: (nat, Rows) -> Rows, others: (nat, Rows) -> Rows)
      returns (r: Result<(), LockError>, transactions: nat)
      modifies this
      ensures 1 <= transactions <= (if retries < MAX_RETRIES then retries else MAX_RETRIES) + 1
      ensures Alone(before, others) ==>
                transactions == 1 && (rows, r) == LockTransaction(old(rows), identifier, owner, clock(0), timeout, cleanup)
      ensures r.Ok? ==> && identifier in rows && rows[identifier].owner == owner
                        && rows[identifier].acquiredAt == clock(transactions - 1)
      ensures r.Err? && r.error.LockAlreadyHeld? ==>
                identifier in rows && r.error == LockAlreadyHeld(identifier, rows[identifier].owner, owner)
      ensures r.Err? && r.error.InternalError? ==>
                && transactions == (if retries < MAX_RETRIES then retries else MAX_RETRIES) + 1
                && identifier !in rows
    {
      var attempt := 0;
      transactions := 0;
      while attempt <= retries
        invariant 0 <= attempt == transactions <= retries + 1
        invariant attempt <= MAX_RETRIES
        invariant attempt == 0 ==> rows == old(rows)
        invariant attempt > 0 ==> identifier !in rows && !Alone(before, others)
      {
        rows := before(attempt, rows);
        transactions := transactions + 1;
        var now := clock(attempt);
        var tx := rows;
        if attempt == 0 && cleanup {
          tx := Swept(tx, now, timeout);
        }
        var result := Upserted(tx, identifier, owner, now);
        if result.Err? {
          return Err(result.error), transactions;
        }
        if result.value.Some? {
          rows := result.value.value;
          return Ok(()), transactions;
        }
        rows := others(attempt, tx);
        if identifier in rows {
          return Err(LockAlreadyHeld(identifier, rows[identifier].owner, owner)), transactions;
        }
        assert others(attempt, tx) != tx;
        if attempt >= MAX_RETRIES {
          return Err(InternalError("Lock acquisition failed: exceeded retry limit due to concurrent releases")), transactions;
        }
        attempt := attempt + 1;
      }
      r := Err(InternalError("Lock acquisition failed: unexpected end of retry loop"));
    }

    method Unlock(identifier: string, owner: string) returns (r: Result<(), LockError>)
      modifies this
      ensures (rows, r) == UnlockTransaction(old(rows), identifier, owner)
      ensures var was := old(rows);
              && (r.Ok? <==> identifier in was && was[identifier].owner == owner && was[identifier].count > 0)
              && (r.Ok? ==>
                    && (identifier in rows <==> was[identifier].count > 1)
                    && (identifier in rows ==>
                          rows[identifier] == LockRecord(owner, was[identifier].acquiredAt, was[identifier].count - 1))
                    && rows - {identifier} == was - {identifier})
              && (r.Err? ==>
                    && rows == was
                    && r == Err(if identifier in was && was[identifier].owner != owner
                                then LockAlreadyHeld(identifier, was[identifier].owner, owner)
                                else LockNotFound(identifier, owner)))
    {
      if identifier in rows && rows[identifier].owner == owner && rows[identifier].count > 0 {
        rows := rows[identifier := rows[identifier].(count := rows[identifier].count - 1)];
        if rows[identifier].count <= 0 {
          rows := rows - {identifier};
        }
        return Ok(());
      }
      if identifier in rows && rows[identifier].owner != owner {
        return Err(LockAlreadyHeld(identifier, rows[identifier].owner, owner));
      }
      r := Err(LockNotFound(identifier, owner));
    }

    /** The answer the in-memory manager gives on the same records: the count of the owner's live one. */
    method LockCount(identifier: string, owner: string, now: int) returns (n: nat)
      ensures n == Counted(rows, identifier, owner, now, timeout)
      ensures n == if identifier in rows && rows[identifier].owner == owner && now - rows[identifier].acquiredAt <= timeout
                   then rows[identifier].count % 0x1_0000_0000 else 0
    {
      n := RowCount(rows, identifier, owner, now, timeout);
    }

    method ReleaseLocks(owner: string)
      modifies this
      ensures rows == Without(old(rows), owner)
      ensures forall id :: id in rows <==> id in old(rows) && old(rows)[id].owner != owner
      ensures forall id :: id in rows ==> rows[id] == old(rows)[id]
    {
      rows := map id | id in rows && rows[id].owner != owner :: rows[id];
    }
  }

  /** `SELECT reentrant_count ... WHERE owner = ... AND acquired_at >= now - timeout`, cast to u32. */
  function RowCount(rows: Rows, id: string, owner: string, now: int, timeout: int): nat {
    if id in rows && rows[id].owner == owner && rows[id].acquiredAt >= now - timeout
    then rows[id].count % U32_RANGE else 0
  }

  /** What an undisturbed lock transaction does: after the sweep, if there is one, the row is taken,
      incremented, or refused as another owner's; nothing else changes. */
  lemma LockTransactionIs(rows: Rows, id: string, owner: string, now: int, timeout: int, cleanup: bool)
    ensures var (t, r) := LockTransaction(rows, id, owner, now, timeout, cleanup);
            var held := id in rows && (cleanup ==> now - rows[id].acquiredAt <= timeout);
            && (r.Ok? <==> !held || (rows[id].owner == owner && rows[id].count < 0x7fff_ffff))
            && (r.Ok? ==> id in t && t[id] == LockRecord(owner, now, 1 + if held then rows[id].count else 0))
            && (r.Err? ==> r == Err(if rows[id].owner != owner then LockAlreadyHeld(id, rows[id].owner, owner)
                                    else StoreError("integer out of range")))
            && (r.Err? && r.error.StoreError? ==> t == rows)
            && (r.Ok? || !r.error.StoreError? ==>
                  forall x :: x != id ==> (x in t <==> x in rows && (cleanup ==> now - rows[x].acquiredAt <= timeout)))
            && (forall x :: x in t && (x != id || r.Err?) ==> x in rows && t[x] == rows[x])
  {
  }

  // ---------------------------------------------------------------- refinement

  /** Both managers under one clock. */
  datatype Both = Both(mem: Locks, rows: Rows, now: int)

  datatype Op =
    | Lock(id: string, owner: string)
    | Unlock(id: string, owner: string)
    | Count(id: string, owner: string)
    | ReleaseAll(owner: string)
    | Tick(elapsed: nat)

  datatype Answer = Done | Failed(error: LockError) | Number(n: nat)

  function ToAnswer(r: Result<(), LockError>): Answer { match r case Ok(_) => Done case Err(e) => Failed(e) }

  function MemoryDoes(mem: Locks, now: int, timeout: int, op: Op): (Locks, Answer) {
    match op
    case Lock(id, o) => (match Acquired(mem, id, o, now, timeout) case Ok(l) => (l, Done) case Err(e) => (mem, Failed(e)))
    case Unlock(id, o) => (match Released(mem, id, o) case Ok(l) => (l, Done) case Err(e) => (mem, Failed(e)))
    case Count(id, o) => (mem, Number(Counted(mem, id, o, now, timeout)))
    case ReleaseAll(o) => (Without(mem, o), Done)
    case Tick(_) => (mem, Done)
  }

  function PostgresDoes(rows: Rows, now: int, timeout: int, op: Op): (Rows, Answer) {
    match op
    case Lock(id, o) => var (t, r) := LockTransaction(rows, id, o, now, timeout, true); (t, ToAnswer(r))
    case Unlock(id, o) => var (t, r) := UnlockTransaction(rows, id, o); (t, ToAnswer(r))
    case Count(id, o) => (rows, Number(RowCount(rows, id, o, now, timeout)))
    case ReleaseAll(o) => (Without(rows, o), Done)
    case Tick(_) => (rows, Done)
  }

  function Next(s: Both, timeout: int, op: Op): Both {
    Both(MemoryDoes(s.mem, s.now, timeout, op).0, PostgresDoes(s.rows, s.now, timeout, op).0,
         if op.Tick? then s.now + op.elapsed else s.now)
  }

  ghost predicate CountsAtMost(locks: Locks, n: nat) { forall id :: id in locks ==> locks[id].count <= n }

  /** The two managers look the same: the same unexpired locks, all properly counted. */
  ghost predicate LookAlike(s: Both, timeout: int, n: nat) {
    && Live(s.mem, s.now, timeout) == Live(s.rows, s.now, timeout)
    && WellCounted(s.mem) && WellCounted(s.rows) && CountsAtMost(s.mem, n) && CountsAtMost(s.rows, n)
  }

  /** Whether the question is about a record that may have expired: only `unlock` does not look. */
  ghost predicate AboutLive(s: Both, timeout: int, op: Op) { op.Unlock? ==> op.id in Live(s.mem, s.now, timeout) }

  lemma StepAlike(s: Both, timeout: int, op: Op, n: nat)
    requires timeout >= 0 && LookAlike(s, timeout, n) && n < I32_MAX
    ensures LookAlike(Next(s, timeout, op), timeout, n + 1)
    ensures AboutLive(s, timeout, op) ==>
              MemoryDoes(s.mem, s.now, timeout, op).1 == PostgresDoes(s.rows, s.now, timeout, op).1
  {
    match op {
      case Lock(id, o) => LockAlike(s, timeout, id, o, n);
      case Unlock(id, o) => UnlockAlike(s, timeout, id, o, n);
      case Count(id, o) => CountAlike(s, timeout, id, o, n);
      case ReleaseAll(o) => ReleaseAlike(s, timeout, o, n);
      case Tick(d) => TickAlike(s, timeout, d, n);
    }
  }

  lemma UnlockAlike(s: Both, timeout: int, id: string, o: string, n: nat)
    requires LookAlike(s, timeout, n)
    ensures LookAlike(Next(s, timeout, Unlock(id, o)), timeout, n)
    ensures id in Live(s.mem, s.now, timeout) ==>
              MemoryDoes(s.mem, s.now, timeout, Unlock(id, o)).1 == PostgresDoes(s.rows, s.now, timeout, Unlock(id, o)).1
  {
    assert id in Live(s.mem, s.now, timeout) <==> id in Live(s.rows, s.now, timeout);
    UnlockKeepsLive(s.mem, id, o, s.now, timeout);
    UnlockRowsIsReleased(s.rows, id, o);
    UnlockKeepsLive(s.rows, id, o, s.now, timeout);
  }

  lemma CountAlike(s: Both, timeout: int, id: string, o: string, n: nat)
    requires LookAlike(s, timeout, n)
    ensures Counted(s.mem, id, o, s.now, timeout) == RowCount(s.rows, id, o, s.now, timeout)
  {
    assert id in Live(s.mem, s.now, timeout) <==> id in Live(s.rows, s.now, timeout);
  }

  lemma ReleaseAlike(s: Both, timeout: int, o: string, n: nat)
    requires LookAlike(s, timeout, n)
    ensures LookAlike(Next(s, timeout, ReleaseAll(o)), timeout, n)
  {
    assert Live(Without(s.mem, o), s.now, timeout) == Without(Live(s.mem, s.now, timeout), o);
    assert Live(Without(s.rows, o), s.now, timeout) == Without(Live(s.rows, s.now, timeout), o);
  }

  /** What has expired stays expired. */
  lemma TickAlike(s: Both, timeout: int, elapsed: nat, n: nat)
    requires LookAlike(s, timeout, n)
    ensures LookAlike(Next(s, timeout, Tick(elapsed)), timeout, n)
  {
    assert Live(s.mem, s.now + elapsed, timeout) == Live(Live(s.mem, s.now, timeout), s.now + elapsed, timeout);
    assert Live(s.rows, s.now + elapsed, timeout) == Live(Live(s.rows, s.now, timeout), s.now + elapsed, timeout);
  }

  lemma SweptIsLive(rows: Rows, now: int, timeout: int)
    ensures Swept(rows, now, timeout) == Live(rows, now, timeout)
  {
  }

  /** On a table without expired rows the transaction is the in-memory acquisition. */
  lemma TransactionAcquires(rows: Rows, id: string, o: string, now: int, timeout: int, n: nat)
    requires timeout >= 0 && n < I32_MAX && CountsAtMost(rows, n) && WellCounted(rows)
    ensures var m := Live(rows, now, timeout);
            LockTransaction(rows, id, o, now, timeout, true) ==
            match Acquired(m, id, o, now, timeout) case Ok(l) => (l, Ok(())) case Err(e) => (m, Err(e))
  {
    SweptIsLive(rows, now, timeout);
    var m := Live(rows, now, timeout);
    assert Cleaned(m, id, now, timeout) == m;
    assert id in m ==> m[id].count <= n;
  }

  lemma AcquiredCounts(locks: Locks, id: string, o: string, now: int, timeout: int, n: nat)
    requires WellCounted(locks) && CountsAtMost(locks, n) && Acquired(locks, id, o, now, timeout).Ok?
    ensures var l := Acquired(locks, id, o, now, timeout).value; WellCounted(l) && CountsAtMost(l, n + 1)
  {
  }

  lemma LiveCounts(locks: Locks, now: int, timeout: int, n: nat)
    requires WellCounted(locks) && CountsAtMost(locks, n)
    ensures var m := Live(locks, now, timeout); WellCounted(m) && CountsAtMost(m, n) && CountsAtMost(m, n + 1)
  {
  }

  lemma LiveOfLive(locks: Locks, now: int, timeout: int)
    ensures Live(Live(locks, now, timeout), now, timeout) == Live(locks, now, timeout)
  {
  }

  lemma LockAlike(s: Both, timeout: int, id: string, o: string, n: nat)
    requires timeout >= 0 && LookAlike(s, timeout, n) && n < I32_MAX
    ensures LookAlike(Next(s, timeout, Lock(id, o)), timeout, n + 1)
    ensures MemoryDoes(s.mem, s.now, timeout, Lock(id, o)).1 == PostgresDoes(s.rows, s.now, timeout, Lock(id, o)).1
  {
    var m := Live(s.mem, s.now, timeout);
    AcquireOnLive(s.mem, id, o, s.now, timeout);
    AcquireOnLive(m, id, o, s.now, timeout);
    LiveOfLive(s.mem, s.now, timeout);
    TransactionAcquires(s.rows, id, o, s.now, timeout, n);
    LiveCounts(s.rows, s.now, timeout, n);
    if Acquired(s.mem, id, o, s.now, timeout).Ok? {
      AcquiredCounts(s.mem, id, o, s.now, timeout, n);
      AcquiredCounts(m, id, o, s.now, timeout, n);
    }
  }

  /** Acquiring looks only at what is live, and what is live afterwards depends only on that. */
  lemma AcquireOnLive(locks: Locks, id: string, o: string, now: int, timeout: int)
    requires timeout >= 0
    ensures var m := Live(locks, now, timeout);
            match Acquired(locks, id, o, now, timeout)
            case Ok(l) => Acquired(m, id, o, now, timeout) == Ok(Live(l, now, timeout))
            case Err(e) => Acquired(m, id, o, now, timeout) == Err(e)
  {
    var m := Live(locks, now, timeout);
    assert Cleaned(m, id, now, timeout) == m;
    var r, q := Acquired(locks, id, o, now, timeout), Acquired(m, id, o, now, timeout);
    if r.Ok? {
      assert Live(r.value, now, timeout) == q.value;
    }
  }

  lemma UnlockRowsIsReleased(rows: Rows, id: string, o: string)
    requires WellCounted(rows)
    ensures UnlockTransaction(rows, id, o) ==
            match Released(rows, id, o) case Ok(l) => (l, Ok(())) case Err(e) => (rows, Err(e))
  {
    if id in rows {
      assert rows[id := rows[id].(count := 0)] - {id} == rows - {id};
    }
  }

  /** Releasing a record that has expired changes nothing that is live. */
  lemma UnlockKeepsLive(locks: Locks, id: string, o: string, now: int, timeout: int)
    ensures var l := match Released(locks, id, o) case Ok(l) => l case Err(_) => locks;
            Live(l, now, timeout) ==
            var m := Live(locks, now, timeout);
            if id in m then (match Released(m, id, o) case Ok(l) => l case Err(_) => m) else m
  {
  }

  function Run(s: Both, timeout: int, ops: seq<Op>): Both {
    if ops == [] then s else Next(Run(s, timeout, ops[..|ops| - 1]), timeout, ops[|ops| - 1])
  }

  /** After any run of fewer than 2^31 operations under a clock that never goes back, the two managers
      hold the same live locks; the last of the operations was answered alike, unless it was an
      `unlock` of a lock that is not live. */
  lemma {:induction false} ManagersLookAlike(ops: seq<Op>, start: int, timeout: int)
    requires timeout >= 0 && |ops| <= I32_MAX
    ensures LookAlike(Run(Both(map[], map[], start), timeout, ops), timeout, |ops|)
    ensures ops != [] ==>
              var s, op := Run(Both(map[], map[], start), timeout, ops[..|ops| - 1]), ops[|ops| - 1];
              AboutLive(s, timeout, op) ==>
                MemoryDoes(s.mem, s.now, timeout, op).1 == PostgresDoes(s.rows, s.now, timeout, op).1
  {
    if ops != [] {
      ManagersLookAlike(ops[..|ops| - 1], start, timeout);
      StepAlike(Run(Both(map[], map[], start), timeout, ops[..|ops| - 1]), timeout, ops[|ops| - 1], |ops| - 1);
    }
  }

  /** The table holds no row that memory does not, and the same record where both do: it only forgets
      sooner. */
  ghost predicate Forgets(s: Both) {
    forall id :: id in s.rows ==> id in s.mem && s.mem[id] == s.rows[id]
  }

  lemma LockForgets(s: Both, timeout: int, id: string, o: string, n: nat)
    requires timeout >= 0 && LookAlike(s, timeout, n) && n < I32_MAX && Forgets(s)
    ensures Forgets(Next(s, timeout, Lock(id, o)))
  {
    SweptIsLive(s.rows, s.now, timeout);
    LockAlike(s, timeout, id, o, n);
    var m := Live(s.mem, s.now, timeout);
    assert id in m <==> id in s.mem && !Expired(s.mem[id], s.now, timeout);
    assert id in m ==> m[id].count <= n;
    forall i | i in Swept(s.rows, s.now, timeout) ensures i in s.mem && i in m && s.mem[i] == s.rows[i] {}
  }

  lemma UnlockForgets(s: Both, timeout: int, id: string, o: string)
    requires WellCounted(s.rows) && Forgets(s)
    ensures Forgets(Next(s, timeout, Unlock(id, o)))
  {
    UnlockRowsIsReleased(s.rows, id, o);
  }

  lemma StepForgets(s: Both, timeout: int, op: Op, n: nat)
    requires timeout >= 0 && LookAlike(s, timeout, n) && n < I32_MAX && Forgets(s)
    ensures Forgets(Next(s, timeout, op))
  {
    match op {
      case Lock(id, o) => LockForgets(s, timeout, id, o, n);
      case Unlock(id, o) => UnlockForgets(s, timeout, id, o);
      case _ =>
    }
  }

  lemma {:induction false} RunForgets(ops: seq<Op>, start: int, timeout: int)
    requires timeout >= 0 && |ops| <= I32_MAX
    ensures Forgets(Run(Both(map[], map[], start), timeout, ops))
  {
    if ops != [] {
      var init := ops[..|ops| - 1];
      RunForgets(init, start, timeout);
      ManagersLookAlike(init, start, timeout);
      StepForgets(Run(Both(map[], map[], start), timeout, init), timeout, ops[|ops| - 1], |init|);
    }
  }

  /** Exactly when `unlock` is answered alike, after any run: unless memory still has the record and a
      sweep has taken the row. The two then differ in their answers, not in what is live. */
  lemma UnlockAnswersAlikeIff(ops: seq<Op>, start: int, timeout: int, id: string, o: string)
    requires timeout >= 0 && |ops| <= I32_MAX
    ensures var s := Run(Both(map[], map[], start), timeout, ops);
            MemoryDoes(s.mem, s.now, timeout, Unlock(id, o)).1 == PostgresDoes(s.rows, s.now, timeout, Unlock(id, o)).1 <==>
            (id in s.mem ==> id in s.rows)
    ensures var s := Run(Both(map[], map[], start), timeout, ops);
            id in s.mem && id !in s.rows ==> Expired(s.mem[id], s.now, timeout)
  {
    var s := Run(Both(map[], map[], start), timeout, ops);
    RunForgets(ops, start, timeout);
    ManagersLookAlike(ops, start, timeout);
    UnlockRowsIsReleased(s.rows, id, o);
    assert id in Live(s.mem, s.now, timeout) <==> id in Live(s.rows, s.now, timeout);
  }

  /** The one difference a caller can see: an expired lock that a sweep has removed is not found by
      `unlock` in the table, while in memory it is still released. */
  lemma UnlockOfExpiredDiffers(id: string, other: string, o: string, timeout: nat)
    requires id != other
    ensures var s := Run(Both(map[], map[], 0), timeout, [Lock(id, o), Tick(timeout + 1), Lock(other, o)]);
            && MemoryDoes(s.mem, s.now, timeout, Unlock(id, o)).1 == Done
            && PostgresDoes(s.rows, s.now, timeout, Unlock(id, o)).1 == Failed(LockNotFound(id, o))
  {
    var ops := [Lock(id, o), Tick(timeout + 1), Lock(other, o)];
    var s0 := Both(map[], map[], 0);
    assert ops[..2] == [Lock(id, o), Tick(timeout + 1)] && ops[..2][..1] == [Lock(id, o)] && ops[..2][..1][..0] == [];
    var s1 := Next(s0, timeout, ops[0]);
    assert s1 == Run(s0, timeout, ops[..2][..1]);
    var s2 := Next(s1, timeout, ops[1]);
    assert s2 == Run(s0, timeout, ops[..2]);
    assert s2.rows[id].acquiredAt < s2.now - timeout;
  }

  /** Exactly when skipping the sweep makes no difference to a lock call: when its own row, if there is
      one, has not expired. */
  lemma SkippedSweepAgreesIff(rows: Rows, id: string, owner: string, now: int, timeout: int)
    requires WellCounted(rows) && CountsAtMost(rows, I32_MAX - 1) && timeout >= 0
    ensures var (t0, r0) := LockTransaction(rows, id, owner, now, timeout, false);
            var (t1, r1) := LockTransaction(rows, id, owner, now, timeout, true);
            (r0 == r1 && (id in t0 <==> id in t1) && (id in t0 && id in t1 ==> t0[id] == t1[id])) <==>
            (id in rows ==> !Expired(rows[id], now, timeout))
  {
    SweptIsLive(rows, now, timeout);
  }
}
