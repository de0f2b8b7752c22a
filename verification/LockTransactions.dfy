/**
 The Postgres lock manager's transactions, statement by statement, on the row of one identifier. Any
 number of lock and unlock transactions interleave; a statement that changes the row holds its row
 lock until commit or rollback, and other transactions read committed data. No row expires and
 `release_locks` is not used. `log` records the transactions that committed a change, in commit order.
 */
module LockTransactions {
  import opened Wrappers
  import PL = PostgresLocks

  datatype Row = Row(owner: string, count: int)

  datatype Event = Locked(owner: string) | Unlocked(owner: string)

  /** Where a transaction stands. `Locking` and `Unlocking` have begun; `Inserted`, `Decremented` and
      `Deleted` hold the row lock; `Refused` got no row back from its upsert. */
  datatype Tx =
    | Locking(owner: string)
    | Inserted(owner: string)
    | Refused(owner: string)
    | Unlocking(owner: string)
    | Decremented(owner: string)
    | Deleted(owner: string)

  predicate HoldsRow(t: Tx) { t.Inserted? || t.Decremented? || t.Deleted? }

  datatype Db = Db(committed: Option<Row>, working: Option<Row>, holder: Option<nat>, txs: map<nat, Tx>, log: seq<Event>)

  const INITIAL: Db := Db(None, None, None, map[], [])

  datatype Statement =
    | BeginLock(tx: nat, owner: string)
    | Upsert(tx: nat)                     // INSERT ... ON CONFLICT DO UPDATE ... WHERE owner = ... RETURNING
    | SelectOwner(tx: nat)                // after a refused upsert; ends the attempt
    | BeginUnlock(tx: nat, owner: string)
    | Decrement(tx: nat)                  // UPDATE ... reentrant_count - 1 WHERE owner = ... AND reentrant_count > 0
    | DeleteAtZero(tx: nat)               // DELETE ... WHERE owner = ... AND reentrant_count <= 0
    | Commit(tx: nat)
    | Rollback(tx: nat)

  predicate At(s: Db, t: nat) { t in s.txs }

  /** When a statement can run: in its place in the transaction, and not while it waits for the row lock. */
  predicate Enabled(s: Db, a: Statement) {
    match a
    case BeginLock(t, _) => t !in s.txs
    case BeginUnlock(t, _) => t !in s.txs
    case Upsert(t) => t in s.txs && s.txs[t].Locking? && s.holder == None
    case SelectOwner(t) => t in s.txs && s.txs[t].Refused?
    case Decrement(t) =>
      t in s.txs && s.txs[t].Unlocking? && (Matches(s.committed, s.txs[t].owner) ==> s.holder == None)
    case DeleteAtZero(t) => t in s.txs && s.txs[t].Decremented?
    case Commit(t) => t in s.txs && (s.txs[t].Inserted? || s.txs[t].Deleted?)
    case Rollback(t) => t in s.txs
  }

  /** The row the decrement's WHERE clause selects. */
  predicate Matches(row: Option<Row>, owner: string) { row.Some? && row.value.owner == owner && row.value.count > 0 }

  function Enter(s: Db, t: nat, tx: Tx): Db { s.(txs := s.txs[t := tx]) }

  function Leave(s: Db, t: nat): Db { s.(txs := s.txs - {t}) }

  function Write(s: Db, t: nat, tx: Tx, row: Option<Row>): Db { Enter(s, t, tx).(working := row, holder := Some(t)) }

  function Step(s: Db, a: Statement): Db
    requires Enabled(s, a)
  {
    match a
    case BeginLock(t, o) => Enter(s, t, Locking(o))
    case BeginUnlock(t, o) => Enter(s, t, Unlocking(o))
    case Upsert(t) =>
      var o := s.txs[t].owner;
      if s.committed == None then Write(s, t, Inserted(o), Some(Row(o, 1)))
      else if s.committed.value.owner == o then Write(s, t, Inserted(o), Some(Row(o, s.committed.value.count + 1)))
      else Enter(s, t, Refused(o))
    case SelectOwner(t) =>
      // no row: the attempt is retried in a new transaction; a row: the call fails
      if s.committed == None then Enter(s, t, Locking(s.txs[t].owner)) else Leave(s, t)
    case Decrement(t) =>
      var o := s.txs[t].owner;
      if Matches(s.committed, o) then Write(s, t, Decremented(o), Some(Row(o, s.committed.value.count - 1)))
      else Leave(s, t)
    case DeleteAtZero(t) =>
      var o := s.txs[t].owner;
      Write(s, t, Deleted(o),
            if s.working.Some? && s.working.value.owner == o && s.working.value.count <= 0 then None else s.working)
    case Commit(t) =>
      Leave(s, t).(committed := s.working, working := None, holder := None,
                   log := s.log + [if s.txs[t].Inserted? then Locked(s.txs[t].owner) else Unlocked(s.txs[t].owner)])
    case Rollback(t) =>
      if s.holder == Some(t) then Leave(s, t).(working := None, holder := None) else Leave(s, t)
  }

  // ---------------------------------------------------------------- the serial semantics

  /** What one undisturbed call does to the row, when it succeeds. */
  function Effect(row: Option<Row>, ev: Event): Result<Option<Row>, ()> {
    match ev
    case Locked(o) =>
      if row == None then Ok(Some(Row(o, 1)))
      else if row.value.owner == o then Ok(Some(Row(o, row.value.count + 1)))
      else Err(())
    case Unlocked(o) =>
      if row == None || row.value.owner != o || row.value.count <= 0 then Err(())
      else if row.value.count == 1 then Ok(None)
      else Ok(Some(Row(o, row.value.count - 1)))
  }

  /** The row after the calls of `log`, one after the other, if each of them succeeds in its turn. */
  function Serial(log: seq<Event>): Result<Option<Row>, ()> {
    if log == [] then Ok(None) else
    match Serial(log[..|log| - 1])
    case Err(_) => Err(())
    case Ok(row) => Effect(row, log[|log| - 1])
  }

  function Locks(log: seq<Event>): nat {
    if log == [] then 0 else Locks(log[..|log| - 1]) + if log[|log| - 1].Locked? then 1 else 0
  }

  function Unlocks(log: seq<Event>): nat {
    if log == [] then 0 else Unlocks(log[..|log| - 1]) + if log[|log| - 1].Unlocked? then 1 else 0
  }

  function CountOf(row: Option<Row>): int { if row == None then 0 else row.value.count }

  /** The row of one identifier in the table of the lock manager. */
  function RowOf(rows: PL.Rows, id: string): Option<Row> {
    if id in rows then Some(Row(rows[id].owner, rows[id].count)) else None
  }

  /** It is what the manager's undisturbed transactions do to that row. */
  lemma EffectIsTransaction(rows: PL.Rows, id: string, o: string, now: int, timeout: int)
    ensures var (t, r) := PL.LockTransaction(rows, id, o, now, timeout, false);
            (r.Ok? ==> Effect(RowOf(rows, id), Locked(o)) == Ok(RowOf(t, id)))
            && (r.Err? && !r.error.StoreError? ==> Effect(RowOf(rows, id), Locked(o)).Err?)
    ensures var (t, r) := PL.UnlockTransaction(rows, id, o);
            Effect(RowOf(rows, id), Unlocked(o)) == if r.Ok? then Ok(RowOf(t, id)) else Err(())
  {
  }

  // ---------------------------------------------------------------- invariant

  /** Only the holder has written, and what it has written is what its call does to the committed row. */
  ghost predicate HolderInv(s: Db) {
    && (forall t :: t in s.txs && HoldsRow(s.txs[t]) ==> s.holder == Some(t))
    && (s.holder.Some? ==>
          var t := s.holder.value;
          && t in s.txs && HoldsRow(s.txs[t])
          && match s.txs[t]
             case Inserted(o) => Effect(s.committed, Locked(o)) == Ok(s.working)
             case Decremented(o) => Matches(s.committed, o) && s.working == Some(Row(o, s.committed.value.count - 1))
             case Deleted(o) => Effect(s.committed, Unlocked(o)) == Ok(s.working)
             case _ => false)
  }

  ghost predicate Inv(s: Db) {
    && HolderInv(s)
    && Serial(s.log) == Ok(s.committed)
    && (s.committed.Some? ==> s.committed.value.count >= 1)
  }

  lemma CommitInv(s: Db, t: nat)
    requires Inv(s) && Enabled(s, Commit(t))
    ensures Inv(Step(s, Commit(t)))
  {
    assert Step(s, Commit(t)).log[..|s.log|] == s.log;
  }

  lemma UpsertInv(s: Db, t: nat)
    requires Inv(s) && Enabled(s, Upsert(t))
    ensures Inv(Step(s, Upsert(t)))
  {
  }

  lemma UnlockingInv(s: Db, a: Statement)
    requires Inv(s) && Enabled(s, a) && (a.Decrement? || a.DeleteAtZero?)
    ensures Inv(Step(s, a))
  {
  }

  lemma StepInv(s: Db, a: Statement)
    requires Inv(s) && Enabled(s, a)
    ensures Inv(Step(s, a))
  {
    match a {
      case Upsert(t) => UpsertInv(s, t);
      case Decrement(_) => UnlockingInv(s, a);
      case DeleteAtZero(_) => UnlockingInv(s, a);
      case Commit(t) => CommitInv(s, t);
      case _ =>
    }
  }

  ghost predicate IsRun(states: seq<Db>, statements: seq<Statement>) {
    && |states| == |statements| + 1 && states[0] == INITIAL
    && forall i :: 0 <= i < |statements| ==> Enabled(states[i], statements[i]) && states[i + 1] == Step(states[i], statements[i])
  }

  lemma {:induction false} RunInv(states: seq<Db>, statements: seq<Statement>, n: nat)
    requires IsRun(states, statements) && n <= |statements|
    ensures Inv(states[n])
  {
    if n > 0 {
      RunInv(states, statements, n - 1);
      StepInv(states[n - 1], statements[n - 1]);
    }
  }

  // ---------------------------------------------------------------- theorems

  lemma {:induction false} SerialCount(log: seq<Event>)
    requires Serial(log).Ok?
    ensures CountOf(Serial(log).value) == Locks(log) - Unlocks(log)
    ensures Serial(log).value.Some? ==> Serial(log).value.value.count >= 1
  {
    if log != [] {
      SerialCount(log[..|log| - 1]);
    }
  }

  /** Every interleaving is serializable in commit order, and the committed count is the locks committed
      minus the unlocks committed; while the row exists it is at least one. */
  lemma CommittedCount(states: seq<Db>, statements: seq<Statement>, n: nat)
    requires IsRun(states, statements) && n <= |statements|
    ensures var s := states[n];
            && Serial(s.log) == Ok(s.committed)
            && CountOf(s.committed) == Locks(s.log) - Unlocks(s.log)
            && (s.committed.Some? ==> CountOf(s.committed) >= 1)
  {
    RunInv(states, statements, n);
    SerialCount(states[n].log);
  }

  /** At most one transaction at a time has changed the row and not yet committed. */
  lemma OneWriter(states: seq<Db>, statements: seq<Statement>, n: nat, t: nat, u: nat)
    requires IsRun(states, statements) && n <= |statements|
    requires t in states[n].txs && u in states[n].txs && HoldsRow(states[n].txs[t]) && HoldsRow(states[n].txs[u])
    ensures t == u
  {
    RunInv(states, statements, n);
  }

  /** The decrement finds its row exactly when the committed calls leave the owner a lock to release. */
  lemma DecrementFindsRowIff(states: seq<Db>, statements: seq<Statement>, n: nat)
    requires IsRun(states, statements) && n < |statements| && statements[n].Decrement?
    ensures var s, t := states[n], statements[n].tx;
            (t in states[n + 1].txs <==> s.committed.Some? && s.committed.value.owner == s.txs[t].owner)
  {
    RunInv(states, statements, n);
  }

  // ---------------------------------------------------------------- per owner

  function LocksBy(log: seq<Event>, o: string): nat {
    if log == [] then 0 else LocksBy(log[..|log| - 1], o) + if log[|log| - 1] == Locked(o) then 1 else 0
  }

  function UnlocksBy(log: seq<Event>, o: string): nat {
    if log == [] then 0 else UnlocksBy(log[..|log| - 1], o) + if log[|log| - 1] == Unlocked(o) then 1 else 0
  }

  /** How often the owner holds the lock. */
  function HeldBy(row: Option<Row>, o: string): int { if row.Some? && row.value.owner == o then row.value.count else 0 }

  lemma EffectOnOwner(row: Option<Row>, ev: Event, o: string)
    requires Effect(row, ev).Ok?
    ensures HeldBy(Effect(row, ev).value, o) ==
            HeldBy(row, o) + (if ev == Locked(o) then 1 else 0) - (if ev == Unlocked(o) then 1 else 0)
  {
  }

  lemma {:induction false} SerialPerOwner(log: seq<Event>, o: string)
    requires Serial(log).Ok?
    ensures LocksBy(log, o) - UnlocksBy(log, o) == HeldBy(Serial(log).value, o)
  {
    if log != [] {
      var init, ev := log[..|log| - 1], log[|log| - 1];
      SerialPerOwner(init, o);
      EffectOnOwner(Serial(init).value, ev, o);
    }
  }

  /** In every interleaving and for every owner: the locks it has committed less the unlocks it has
      committed are its acquisitions in the committed row, and none if the row is another's or absent. */
  lemma CommittedPerOwner(states: seq<Db>, statements: seq<Statement>, n: nat, o: string)
    requires IsRun(states, statements) && n <= |statements|
    ensures LocksBy(states[n].log, o) - UnlocksBy(states[n].log, o) == HeldBy(states[n].committed, o) >= 0
  {
    RunInv(states, statements, n);
    SerialPerOwner(states[n].log, o);
  }

  /** So in no interleaving does an owner commit more unlocks than locks, nor do all owners together. */
  lemma UnlocksNeverExceedLocks(states: seq<Db>, statements: seq<Statement>, n: nat)
    requires IsRun(states, statements) && n <= |statements|
    ensures Unlocks(states[n].log) <= Locks(states[n].log)
    ensures forall o :: UnlocksBy(states[n].log, o) <= LocksBy(states[n].log, o)
  {
    CommittedCount(states, statements, n);
    forall o ensures UnlocksBy(states[n].log, o) <= LocksBy(states[n].log, o) { CommittedPerOwner(states, statements, n, o); }
  }

  // ---------------------------------------------------------------- unlocks run to completion

  /** A statement of an unlock transaction of the owner, and none that gives up. */
  predicate OfUnlock(s: Db, a: Statement, o: string) {
    match a
    case BeginUnlock(_, p) => p == o
    case Decrement(_) => true
    case DeleteAtZero(_) => true
    case Commit(_) => true
    case _ => false
  }

  /** From `i` to `j` only unlock transactions of the owner run, none of them under way at `i`. */
  ghost predicate UnlocksOnly(states: seq<Db>, statements: seq<Statement>, i: nat, j: nat, o: string)
    requires i <= j <= |statements| < |states|
  {
    states[i].txs == map[] && forall k :: i <= k < j ==> OfUnlock(states[k], statements[k], o)
  }

  /** How many transactions begin from `i` to `j`. */
  function Begun(statements: seq<Statement>, i: nat, j: nat): nat
    requires i <= j <= |statements|
  {
    if i == j then 0 else Begun(statements, i, j - 1) + if statements[j - 1].BeginUnlock? then 1 else 0
  }

  /** Every transaction under way is an unlock of the owner. */
  ghost predicate OnlyUnlocks(s: Db, o: string) {
    forall t :: t in s.txs ==> s.txs[t] in {Unlocking(o), Decremented(o), Deleted(o)}
  }

  /** Begun are those committed, those that found no row, and those under way; one finds no row only
      when nothing is left to release. */
  ghost predicate Tally(s: Db, o: string, held: int, begun: nat, committed: nat, missed: nat) {
    && OnlyUnlocks(s, o)
    && begun == committed + missed + |s.txs|
    && HeldBy(s.committed, o) == held - committed
    && (missed > 0 ==> held == committed)
  }

  lemma TallyBegin(s: Db, t: nat, o: string, held: int, begun: nat, committed: nat, missed: nat)
    requires t !in s.txs && Tally(s, o, held, begun, committed, missed)
    ensures Tally(Enter(s, t, Unlocking(o)), o, held, begun + 1, committed, missed)
  {
    assert (s.txs[t := Unlocking(o)]).Keys == s.txs.Keys + {t};
    assert |s.txs[t := Unlocking(o)].Keys| == |s.txs[t := Unlocking(o)]| && |s.txs.Keys| == |s.txs|;
  }

  /** A transaction goes on without ending. */
  lemma TallyOn(s: Db, s': Db, t: nat, o: string, held: int, begun: nat, committed: nat, missed: nat)
    requires t in s.txs && Tally(s, o, held, begun, committed, missed)
    requires s'.committed == s.committed && (s'.txs == s.txs[t := Decremented(o)] || s'.txs == s.txs[t := Deleted(o)])
    ensures Tally(s', o, held, begun, committed, missed)
  {
    SameCount(s.txs, t, s'.txs[t]);
  }

  /** A transaction ends, having released one acquisition or found none. */
  lemma TallyEnd(s: Db, s': Db, t: nat, o: string, held: int, begun: nat, committed: nat, missed: nat, released: bool)
    requires t in s.txs && Tally(s, o, held, begun, committed, missed) && s'.txs == s.txs - {t}
    requires HeldBy(s'.committed, o) == HeldBy(s.committed, o) - if released then 1 else 0
    requires !released ==> HeldBy(s.committed, o) == 0
    requires HeldBy(s'.committed, o) >= 0
    ensures Tally(s', o, held, begun, committed + if released then 1 else 0, missed + if released then 0 else 1)
  {
    OneLess(s.txs, t);
  }

  lemma TallyCommit(s: Db, t: nat, o: string, held: int, begun: nat, committed: nat, missed: nat)
    requires Inv(s) && Enabled(s, Commit(t)) && Tally(s, o, held, begun, committed, missed)
    ensures Tally(Step(s, Commit(t)), o, held, begun, committed + 1, missed)
  {
    EffectOnOwner(s.committed, Unlocked(o), o);
    StepInv(s, Commit(t));
    TallyEnd(s, Step(s, Commit(t)), t, o, held, begun, committed, missed, true);
  }

  lemma TallyStep(s: Db, a: Statement, o: string, held: int, begun: nat, committed: nat, missed: nat)
    returns (committed': nat, missed': nat)
    requires Inv(s) && Enabled(s, a) && OfUnlock(s, a, o) && Tally(s, o, held, begun, committed, missed)
    ensures Tally(Step(s, a), o, held, begun + if a.BeginUnlock? then 1 else 0, committed', missed')
  {
    committed', missed' := committed, missed;
    match a {
      case BeginUnlock(t, _) => TallyBegin(s, t, o, held, begun, committed, missed);
      case Decrement(t) =>
        if Matches(s.committed, o) {
          TallyOn(s, Step(s, a), t, o, held, begun, committed, missed);
        } else {
          missed' := missed + 1;
          TallyEnd(s, Step(s, a), t, o, held, begun, committed, missed, false);
        }
      case DeleteAtZero(t) => TallyOn(s, Step(s, a), t, o, held, begun, committed, missed);
      case Commit(t) =>
        committed' := committed + 1;
        TallyCommit(s, t, o, held, begun, committed, missed);
    }
  }

  lemma SameCount(txs: map<nat, Tx>, t: nat, tx: Tx)
    requires t in txs
    ensures |txs[t := tx]| == |txs|
  {
    assert txs[t := tx].Keys == txs.Keys;
    assert |txs[t := tx].Keys| == |txs[t := tx]| && |txs.Keys| == |txs|;
  }

  lemma OneLess(txs: map<nat, Tx>, t: nat)
    requires t in txs
    ensures |txs - {t}| == |txs| - 1
  {
    assert (txs - {t}).Keys == txs.Keys - {t};
    assert |(txs - {t}).Keys| == |txs - {t}| && |txs.Keys| == |txs|;
  }

  lemma {:induction false} TallyRun(states: seq<Db>, statements: seq<Statement>, i: nat, j: nat, o: string)
    returns (committed: nat, missed: nat)
    requires IsRun(states, statements) && i <= j <= |statements| && UnlocksOnly(states, statements, i, j, o)
    ensures Tally(states[j], o, HeldBy(states[i].committed, o), Begun(statements, i, j), committed, missed)
    decreases j - i
  {
    if i == j {
      committed, missed := 0, 0;
    } else {
      committed, missed := TallyRun(states, statements, i, j - 1, o);
      RunInv(states, statements, j - 1);
      committed, missed :=
        TallyStep(states[j - 1], statements[j - 1], o, HeldBy(states[i].committed, o), Begun(statements, i, j - 1), committed, missed);
    }
  }

  function Min(a: int, b: int): int { if a < b then a else b }

  /** Of `m` unlock transactions that run to completion in any interleaving while the owner holds the
      lock `n` times, exactly min(n, m) commit. */
  lemma ExactlyMinCommit(states: seq<Db>, statements: seq<Statement>, i: nat, j: nat, o: string)
    requires IsRun(states, statements) && i <= j <= |statements|
    requires UnlocksOnly(states, statements, i, j, o) && states[j].txs == map[]
    ensures var n, m := HeldBy(states[i].committed, o), Begun(statements, i, j);
            && UnlocksBy(states[j].log, o) - UnlocksBy(states[i].log, o) == Min(n, m)
            && HeldBy(states[j].committed, o) == n - Min(n, m)
  {
    var committed, missed := TallyRun(states, statements, i, j, o);
    CommittedPerOwner(states, statements, i, o);
    CommittedPerOwner(states, statements, j, o);
    NoLocks(states, statements, i, j, o);
  }

  lemma {:induction false} NoLocks(states: seq<Db>, statements: seq<Statement>, i: nat, j: nat, o: string)
    requires IsRun(states, statements) && i <= j <= |statements| && UnlocksOnly(states, statements, i, j, o)
    ensures LocksBy(states[j].log, o) == LocksBy(states[i].log, o)
    decreases j - i
  {
    if i < j {
      NoLocks(states, statements, i, j - 1, o);
      var _, _ := TallyRun(states, statements, i, j - 1, o);
      var s, s' := states[j - 1], states[j];
      if statements[j - 1].Commit? {
        assert s'.log[..|s.log|] == s.log;
      }
    }
  }
}
