/**
 The two renewable-token stores of the token manager: three hash maps kept together in memory, and
 one Postgres table. `Aligned` is the invariant under which the maps index the same entries; under it
 the table, viewed by primary key, is refined by the in-memory store operation by operation.
 */
module RenewableTokenStore {
  import opened Wrappers
  import opened TokenTypes

  // ---------------------------------------------------------------- in-memory store

  /** The three maps of the in-memory store, as one value. */
  datatype Index = Index(byHash: map<string, Entry>, byId: map<string, Entry>, byFlow: map<string, Entry>)

  const EMPTY: Index := Index(map[], map[], map[])

  function Find(entries: map<string, Entry>, key: string): Result<Entry, TokenError> {
    if key in entries then Ok(entries[key]) else Err(TokenNotFound(key))
  }

  function Saved(s: Index, e: Entry): Index {
    Index(s.byHash[e.hash := e], s.byId[e.id := e], s.byFlow[e.flowId := e])
  }

  function Removed(s: Index, flowId: string): Result<Index, TokenError> {
    if flowId !in s.byFlow then Err(TokenNotFound(flowId)) else
    var e := s.byFlow[flowId];
    Ok(Index(s.byHash - {e.hash}, s.byId - {e.id}, s.byFlow - {flowId}))
  }

  function Updated(s: Index, oldHash: string, e: Entry): Result<Index, TokenError> {
    if oldHash !in s.byHash then Err(TokenNotFound(oldHash)) else
    var prev := s.byHash[oldHash];
    Ok(Saved(Index(s.byHash - {oldHash}, s.byId - {prev.id}, s.byFlow - {prev.flowId}), e))
  }

  /** The hash map and the id map hold the same entries, each under its own key, and every entry
      indexed by flow is one of them. */
  ghost predicate Indexed(s: Index) {
    && (forall h :: h in s.byHash ==>
          s.byHash[h].hash == h && s.byHash[h].id in s.byId && s.byId[s.byHash[h].id] == s.byHash[h])
    && (forall i :: i in s.byId ==>
          s.byId[i].id == i && s.byId[i].hash in s.byHash && s.byHash[s.byId[i].hash] == s.byId[i])
    && (forall f :: f in s.byFlow ==>
          s.byFlow[f].flowId == f && s.byFlow[f].id in s.byId && s.byId[s.byFlow[f].id] == s.byFlow[f])
  }

  /** All three maps index the same entries. */
  ghost predicate Aligned(s: Index) {
    && Indexed(s)
    && forall i :: i in s.byId ==> s.byId[i].flowId in s.byFlow && s.byFlow[s.byId[i].flowId] == s.byId[i]
  }

  /** Every entry stored, by its id. */
  function Entries(s: Index): set<Entry> { s.byId.Values }

  class MemoryRenewableTokenStore {
    var entriesByHash: map<string, Entry>
    var entriesById: map<string, Entry>
    var entriesByFlowId: map<string, Entry>

    function Contents(): Index
      reads this
    {
      Index(entriesByHash, entriesById, entriesByFlowId)
    }

    constructor ()
      ensures Contents() == EMPTY
    {
      entriesByHash, entriesById, entriesByFlowId := map[], map[], map[];
    }

    method Save(entry: Entry)
      modifies this
      ensures Contents() == Saved(old(Contents()), entry)
    {
      entriesByHash := entriesByHash[entry.hash := entry];
      entriesById := entriesById[entry.id := entry];
      entriesByFlowId := entriesByFlowId[entry.flowId := entry];
    }

    /** When the maps are indexed: the entry stored with this hash, or there is none. */
    method FindByRenewal(hash: string) returns (r: Result<Entry, TokenError>)
      ensures r.Ok? <==> hash in Contents().byHash
      ensures r.Ok? ==> r.value == Contents().byHash[hash]
      ensures r.Err? ==> r.error == TokenNotFound(hash)
      ensures Indexed(Contents()) ==>
                if r.Ok? then r.value in Entries(Contents()) && r.value.hash == hash
                else forall e :: e in Entries(Contents()) ==> e.hash != hash
    {
      if hash !in entriesByHash {
        return Err(TokenNotFound(hash));
      }
      r := Ok(entriesByHash[hash]);
      assert Indexed(Contents()) ==> Contents().byId[r.value.id] == r.value;
    }

    /** When the maps are indexed: the entry stored with this id, or there is none. */
    method FindById(id: string) returns (r: Result<Entry, TokenError>)
      ensures r.Ok? <==> id in Contents().byId
      ensures r.Ok? ==> r.value == Contents().byId[id]
      ensures r.Err? ==> r.error == TokenNotFound(id)
      ensures Indexed(Contents()) ==>
                if r.Ok? then r.value in Entries(Contents()) && r.value.id == id
                else forall e :: e in Entries(Contents()) ==> e.id != id
    {
      if id !in entriesById {
        return Err(TokenNotFound(id));
      }
      r := Ok(entriesById[id]);
      assert Indexed(Contents()) ==> Contents().byId[r.value.id] == r.value;
    }

    /** When the maps index the same entries: the entry stored with this flow id, or there is none. */
    method FindByFlowId(flowId: string) returns (r: Result<Entry, TokenError>)
      ensures r.Ok? <==> flowId in Contents().byFlow
      ensures r.Ok? ==> r.value == Contents().byFlow[flowId]
      ensures r.Err? ==> r.error == TokenNotFound(flowId)
      ensures Aligned(Contents()) ==>
                if r.Ok? then r.value in Entries(Contents()) && r.value.flowId == flowId
                else forall e :: e in Entries(Contents()) ==> e.flowId != flowId
    {
      if flowId !in entriesByFlowId {
        return Err(TokenNotFound(flowId));
      }
      r := Ok(entriesByFlowId[flowId]);
      assert Aligned(Contents()) ==> Contents().byId[r.value.id] == r.value;
    }

    method RemoveByFlowId(flowId: string) returns (r: Result<(), TokenError>)
      modifies this
      ensures match Removed(old(Contents()), flowId)
              case Ok(s) => r == Ok(()) && Contents() == s
              case Err(e) => r == Err(e) && Contents() == old(Contents())
    {
      if flowId !in entriesByFlowId {
        return Err(TokenNotFound(flowId));
      }
      var entry := entriesByFlowId[flowId];
      entriesByFlowId := entriesByFlowId - {flowId};
      entriesByHash := entriesByHash - {entry.hash};
      entriesById := entriesById - {entry.id};
      r := Ok(());
    }

    method Update(oldHash: string, newEntry: Entry) returns (r: Result<(), TokenError>)
      modifies this
      ensures match Updated(old(Contents()), oldHash, newEntry)
              case Ok(s) => r == Ok(()) && Contents() == s
              case Err(e) => r == Err(e) && Contents() == old(Contents())
    {
      if oldHash !in entriesByHash {
        return Err(TokenNotFound(oldHash));
      }
      var oldEntry := entriesByHash[oldHash];
      entriesByHash := entriesByHash - {oldHash};
      entriesById := entriesById - {oldEntry.id};
      entriesByFlowId := entriesByFlowId - {oldEntry.flowId};
      entriesByHash := entriesByHash[newEntry.hash := newEntry];
      entriesById := entriesById[newEntry.id := newEntry];
      entriesByFlowId := entriesByFlowId[newEntry.flowId := newEntry];
      r := Ok(());
    }
  }

  // ---------------------------------------------------------------- Postgres store

  /** The rows of `renewable_tokens`, by primary key. */
  type Table = map<string, Entry>

  /** Every row is under its own id. */
  ghost predicate Keyed(rows: Table) { forall id :: id in rows ==> rows[id].id == id }

  function WithId(rows: Table, id: string): set<string> { set k | k in rows && rows[k].id == id }

  function WithHash(rows: Table, hash: string): set<string> { set id | id in rows && rows[id].hash == hash }

  function WithFlow(rows: Table, flowId: string): set<string> { set id | id in rows && rows[id].flowId == flowId }

  /** `UPDATE ... SET id = ... WHERE hashed_refresh_token = ...`: a second row with the new primary key
      is a unique violation, whether it was there before or is updated by the same statement. */
  function RowsUpdated(rows: Table, oldHash: string, e: Entry): Result<Table, TokenError> {
    var hit := WithHash(rows, oldHash);
    if hit == {} then Err(TokenNotFound(oldHash))
    else if |hit| > 1 || (e.id in rows && e.id !in hit) then Err(DatabaseError("duplicate key value"))
    else Ok((rows - hit)[e.id := e])
  }

  function RowsRemoved(rows: Table, flowId: string): Result<Table, TokenError> {
    var hit := WithFlow(rows, flowId);
    if hit == {} then Err(TokenNotFound(flowId)) else Ok(rows - hit)
  }

  /** `fetch_optional` over `hit`: some matching row, which one is up to the database. */
  predicate Fetched(rows: Table, hit: set<string>, key: string, r: Result<Entry, TokenError>)
    requires hit <= rows.Keys
  {
    match r
    case Ok(e) => exists id :: id in hit && rows[id] == e
    case Err(err) => hit == {} && err == TokenNotFound(key)
  }

  class PostgresRenewableTokenStore {
    var rows: Table

    ghost predicate Valid()
      reads this
    {
      Keyed(rows)
    }

    constructor ()
      ensures Valid() && rows == map[]
    {
      rows := map[];
    }

    method Save(entry: Entry)
      requires Valid()
      modifies this
      ensures Valid() && rows == old(rows)[entry.id := entry]
    {
      rows := rows[entry.id := entry];
    }

    method Fetch(hit: set<string>, key: string) returns (r: Result<Entry, TokenError>)
      requires hit <= rows.Keys
      ensures Fetched(rows, hit, key, r)
    {
      if hit == {} {
        return Err(TokenNotFound(key));
      }
      var id :| id in hit;
      r := Ok(rows[id]);
    }

    method FindByRenewal(hash: string) returns (r: Result<Entry, TokenError>)
      ensures Fetched(rows, WithHash(rows, hash), hash, r)
      ensures if r.Ok? then r.value in rows.Values && r.value.hash == hash
              else forall id :: id in rows ==> rows[id].hash != hash
    {
      r := Fetch(WithHash(rows, hash), hash);
      assert forall id :: id in rows && rows[id].hash == hash ==> id in WithHash(rows, hash);
    }

    /** The id being the primary key, at most one row has it: the row under it. */
    method FindById(id: string) returns (r: Result<Entry, TokenError>)
      requires Valid()
      ensures r == Find(rows, id)
      ensures if r.Ok? then r.value in rows.Values && r.value.id == id else forall k :: k in rows ==> rows[k].id != id
    {
      assert id in rows ==> id in WithId(rows, id);
      r := Fetch(WithId(rows, id), id);
    }

    method FindByFlowId(flowId: string) returns (r: Result<Entry, TokenError>)
      ensures Fetched(rows, WithFlow(rows, flowId), flowId, r)
      ensures if r.Ok? then r.value in rows.Values && r.value.flowId == flowId
              else forall id :: id in rows ==> rows[id].flowId != flowId
    {
      r := Fetch(WithFlow(rows, flowId), flowId);
      assert forall id :: id in rows && rows[id].flowId == flowId ==> id in WithFlow(rows, flowId);
    }

    method RemoveByFlowId(flowId: string) returns (r: Result<(), TokenError>)
      requires Valid()
      modifies this
      ensures Valid()
      ensures match RowsRemoved(old(rows), flowId)
              case Ok(t) => r == Ok(()) && rows == t
              case Err(e) => r == Err(e) && rows == old(rows)
      ensures forall id :: id in rows <==> id in old(rows) && old(rows)[id].flowId != flowId
      ensures forall id :: id in rows ==> rows[id] == old(rows)[id]
      ensures r == if rows == old(rows) then Err(TokenNotFound(flowId)) else Ok(())
    {
      assert forall id :: id in WithFlow(rows, flowId) <==> id in rows && rows[id].flowId == flowId;
      var hit := WithFlow(rows, flowId);
      rows := rows - hit;
      r := if hit == {} then Err(TokenNotFound(flowId)) else Ok(());
    }

    method Update(oldHash: string, newEntry: Entry) returns (r: Result<(), TokenError>)
      requires Valid()
      modifies this
      ensures Valid()
      ensures match RowsUpdated(old(rows), oldHash, newEntry)
              case Ok(t) => r == Ok(()) && rows == t
              case Err(e) => r == Err(e) && rows == old(rows)
    {
      var hit := WithHash(rows, oldHash);
      if hit == {} {
        return Err(TokenNotFound(oldHash));
      }
      if |hit| > 1 || (newEntry.id in rows && newEntry.id !in hit) {
        return Err(DatabaseError("duplicate key value"));
      }
      rows := (rows - hit)[newEntry.id := newEntry];
      r := Ok(());
    }
  }

  /** Exactly when an update succeeds: when one row alone has the old hash, and no other row has the new id.
      The new entry then stands for that row. */
  lemma RowsUpdatedIs(rows: Table, oldHash: string, e: Entry)
    ensures var r := RowsUpdated(rows, oldHash, e);
            && (r.Ok? <==> exists id :: && id in rows && rows[id].hash == oldHash
                                        && (forall x :: x in rows && rows[x].hash == oldHash ==> x == id)
                                        && (e.id in rows ==> e.id == id))
            && (r == Err(TokenNotFound(oldHash)) <==> forall id :: id in rows ==> rows[id].hash != oldHash)
            && (r.Ok? ==> forall x :: x in r.value <==> x == e.id || (x in rows && rows[x].hash != oldHash))
            && (r.Ok? ==> forall x :: x in r.value ==> r.value[x] == if x == e.id then e else rows[x])
  {
    var hit := WithHash(rows, oldHash);
    assert forall x :: x in hit <==> x in rows && rows[x].hash == oldHash;
    if hit != {} {
      var id :| id in hit;
      Singleton(hit, id);
      if |hit| != 1 {
        assert exists x :: x in hit && x != id;
      }
    }
  }

  lemma Singleton(s: set<string>, x: string)
    requires x in s
    ensures |s| == 1 <==> s == {x}
  {
    assert s == (s - {x}) + {x};
  }

  // ---------------------------------------------------------------- invariants

  datatype Op =
    | Save(entry: Entry)
    | FindByRenewal(hash: string)
    | FindById(id: string)
    | FindByFlowId(flowId: string)
    | Update(oldHash: string, entry: Entry)
    | Remove(flowId: string)

  datatype Answer = Found(entry: Entry) | Done | Failed(error: TokenError)

  function AnswerOf(r: Result<Entry, TokenError>): Answer {
    match r case Ok(e) => Found(e) case Err(err) => Failed(err)
  }

  /** Saved ids and hashes are not in use; a replacement may keep those of the entry it replaces. */
  ghost predicate FreshKeys(s: Index, op: Op) {
    match op
    case Save(e) => e.id !in s.byId && e.hash !in s.byHash
    case Update(h, e) =>
      h in s.byHash ==>
        (e.id in s.byId ==> e.id == s.byHash[h].id) && (e.hash in s.byHash ==> e.hash == h)
    case _ => true
  }

  /** No two live entries come to share a flow id. */
  ghost predicate FreshFlow(s: Index, op: Op) {
    match op
    case Save(e) => e.flowId !in s.byFlow
    case Update(h, e) => h in s.byHash && e.flowId in s.byFlow ==> e.flowId == s.byHash[h].flowId
    case _ => true
  }

  function MemoryStep(s: Index, op: Op): (Index, Answer) {
    match op
    case Save(e) => (Saved(s, e), Done)
    case FindByRenewal(h) => (s, AnswerOf(Find(s.byHash, h)))
    case FindById(i) => (s, AnswerOf(Find(s.byId, i)))
    case FindByFlowId(f) => (s, AnswerOf(Find(s.byFlow, f)))
    case Update(h, e) => (match Updated(s, h, e) case Ok(t) => (t, Done) case Err(err) => (s, Failed(err)))
    case Remove(f) => (match Removed(s, f) case Ok(t) => (t, Done) case Err(err) => (s, Failed(err)))
  }

  ghost predicate TableStep(rows: Table, op: Op, rows': Table, a: Answer) {
    match op
    case Save(e) => rows' == rows[e.id := e] && a == Done
    case FindByRenewal(h) => rows' == rows && exists r :: Fetched(rows, WithHash(rows, h), h, r) && a == AnswerOf(r)
    case FindById(i) => rows' == rows && a == AnswerOf(Find(rows, i))
    case FindByFlowId(f) => rows' == rows && exists r :: Fetched(rows, WithFlow(rows, f), f, r) && a == AnswerOf(r)
    case Update(h, e) =>
      (match RowsUpdated(rows, h, e)
       case Ok(t) => rows' == t && a == Done
       case Err(err) => rows' == rows && a == Failed(err))
    case Remove(f) =>
      (match RowsRemoved(rows, f)
       case Ok(t) => rows' == t && a == Done
       case Err(err) => rows' == rows && a == Failed(err))
  }

  /** Without any assumption on flow ids, every flow-indexed entry stays in the other two maps and
      those two go on holding the same entries. */
  lemma IndexedPreserved(s: Index, op: Op)
    requires Indexed(s) && FreshKeys(s, op)
    ensures Indexed(MemoryStep(s, op).0)
  {
    match op {
      case Save(e) => SavedIndexed(s, e);
      case Update(h, e) => UpdatedIndexed(s, h, e);
      case Remove(f) => RemovedIndexed(s, f);
      case _ =>
    }
  }

  lemma SavedIndexed(s: Index, e: Entry)
    requires Indexed(s) && e.id !in s.byId && e.hash !in s.byHash
    ensures Indexed(Saved(s, e))
  {
  }

  lemma RemovedIndexed(s: Index, f: string)
    requires Indexed(s)
    ensures Removed(s, f).Ok? ==> Indexed(Removed(s, f).value)
  {
  }

  /** After removing a flow nothing of it is left in any map, and nothing else is gone. */
  lemma RemovedIs(s: Index, f: string)
    requires Aligned(s)
    ensures Removed(s, f).Ok? <==> f in s.byFlow
    ensures Removed(s, f).Ok? ==>
              var t := Removed(s, f).value;
              && (forall g :: g in t.byFlow <==> g in s.byFlow && g != f)
              && (forall id :: id in t.byId <==> id in s.byId && s.byId[id].flowId != f)
              && (forall h :: h in t.byHash <==> h in s.byHash && s.byHash[h].flowId != f)
  {
  }

  lemma UpdatedIndexed(s: Index, h: string, e: Entry)
    requires Indexed(s) && FreshKeys(s, Update(h, e))
    ensures Updated(s, h, e).Ok? ==> Indexed(Updated(s, h, e).value)
  {
  }

  lemma AlignedPreserved(s: Index, op: Op)
    requires Aligned(s) && FreshKeys(s, op) && FreshFlow(s, op)
    ensures Aligned(MemoryStep(s, op).0)
  {
    IndexedPreserved(s, op);
  }

  lemma HitByHash(s: Index, h: string)
    requires Indexed(s)
    ensures WithHash(s.byId, h) == if h in s.byHash then {s.byHash[h].id} else {}
  {
  }

  lemma HitByFlow(s: Index, f: string)
    requires Aligned(s)
    ensures WithFlow(s.byId, f) == if f in s.byFlow then {s.byFlow[f].id} else {}
  {
  }

  ghost predicate ByFlow(op: Op) { op.FindByFlowId? || op.Remove? }

  /** One step, whatever the flow ids: every operation that does not go by flow does to the table
      exactly what it does to the maps, and answers alike. */
  lemma StepRefinesIndexed(s: Index, op: Op, rows': Table, a: Answer)
    requires Indexed(s) && FreshKeys(s, op) && !ByFlow(op)
    requires TableStep(s.byId, op, rows', a)
    ensures Indexed(MemoryStep(s, op).0)
    ensures MemoryStep(s, op).1 == a && MemoryStep(s, op).0.byId == rows'
  {
    IndexedPreserved(s, op);
    match op {
      case FindByRenewal(h) => HitByHash(s, h);
      case Update(h, e) => HitByHash(s, h);
      case _ =>
    }
  }

  /** One step under distinct flow ids: the table may only do what the maps do. */
  lemma StepRefines(s: Index, op: Op, rows': Table, a: Answer)
    requires Aligned(s) && FreshKeys(s, op) && FreshFlow(s, op)
    requires TableStep(s.byId, op, rows', a)
    ensures Aligned(MemoryStep(s, op).0)
    ensures MemoryStep(s, op).1 == a && MemoryStep(s, op).0.byId == rows'
  {
    AlignedPreserved(s, op);
    match op {
      case FindByFlowId(f) => HitByFlow(s, f);
      case Remove(f) => HitByFlow(s, f);
      case _ => StepRefinesIndexed(s, op, rows', a);
    }
  }

  /** The in-memory states a run of operations goes through, from `s` on. */
  function MemoryRun(s: Index, ops: seq<Op>): (states: seq<Index>)
    ensures |states| == |ops| + 1 && states[0] == s
    decreases |ops|
  {
    if ops == [] then [s] else [s] + MemoryRun(MemoryStep(s, ops[0]).0, ops[1..])
  }

  /** Every operation of the run meets the freshness conditions in the state it finds. */
  ghost predicate FreshRun(s: Index, ops: seq<Op>)
    decreases |ops|
  {
    ops == [] || (FreshKeys(s, ops[0]) && FreshFlow(s, ops[0]) && FreshRun(MemoryStep(s, ops[0]).0, ops[1..]))
  }

  ghost predicate TableRun(tables: seq<Table>, ops: seq<Op>, answers: seq<Answer>) {
    && |tables| == |ops| + 1 && |answers| == |ops|
    && forall i :: 0 <= i < |ops| ==> TableStep(tables[i], ops[i], tables[i + 1], answers[i])
  }

  /** Whole runs: from empty stores, after any number of operations with fresh keys and distinct live
      flow ids, the three maps index the same entries, those are the rows of the table, and both
      stores have given the same answers. */
  lemma StoresAgreeOnRuns(ops: seq<Op>, tables: seq<Table>, answers: seq<Answer>)
    requires TableRun(tables, ops, answers) && tables[0] == map[] && FreshRun(EMPTY, ops)
    ensures forall i :: 0 <= i <= |ops| ==>
              Aligned(MemoryRun(EMPTY, ops)[i]) && MemoryRun(EMPTY, ops)[i].byId == tables[i]
    ensures forall i :: 0 <= i < |ops| ==> MemoryStep(MemoryRun(EMPTY, ops)[i], ops[i]).1 == answers[i]
  {
    RunRefines(EMPTY, ops, tables, answers);
  }

  lemma {:induction false} RunRefines(s: Index, ops: seq<Op>, tables: seq<Table>, answers: seq<Answer>)
    requires Aligned(s) && TableRun(tables, ops, answers) && tables[0] == s.byId && FreshRun(s, ops)
    ensures forall i :: 0 <= i <= |ops| ==>
              Aligned(MemoryRun(s, ops)[i]) && MemoryRun(s, ops)[i].byId == tables[i]
    ensures forall i :: 0 <= i < |ops| ==> MemoryStep(MemoryRun(s, ops)[i], ops[i]).1 == answers[i]
    decreases |ops|
  {
    if ops != [] {
      StepRefines(s, ops[0], tables[1], answers[0]);
      var next := MemoryStep(s, ops[0]).0;
      RunRefines(next, ops[1..], tables[1..], answers[1..]);
      var run, rest := MemoryRun(s, ops), MemoryRun(next, ops[1..]);
      assert run == [s] + rest;
      forall i | 1 <= i <= |ops| ensures Aligned(run[i]) && run[i].byId == tables[i] {
        assert run[i] == rest[i - 1] && tables[1..][i - 1] == tables[i];
      }
      forall i | 1 <= i < |ops| ensures MemoryStep(run[i], ops[i]).1 == answers[i] {
        assert run[i] == rest[i - 1] && ops[1..][i - 1] == ops[i] && answers[1..][i - 1] == answers[i];
      }
    }
  }

  /** Exactly when removing a flow does the same to both stores: when the flow index names the one row
      of that flow, or there is none. */
  lemma RemoveAgreesExactly(s: Index, f: string)
    requires Indexed(s)
    ensures var m, t := Removed(s, f), RowsRemoved(s.byId, f);
            (m.Ok? == t.Ok? && (m.Ok? ==> m.value.byId == t.value)) <==>
            WithFlow(s.byId, f) == if f in s.byFlow then {s.byFlow[f].id} else {}
  {
    var hit := WithFlow(s.byId, f);
    if f in s.byFlow {
      var e := s.byFlow[f];
      assert e.id in hit;
      if s.byId - {e.id} == s.byId - hit {
        forall id | id in hit ensures id == e.id {
          assert id !in (s.byId - hit);
        }
      }
    }
  }

  /** Two live entries sharing a flow: removing the flow takes one of them from the maps and both from
      the table, so the token of the first still validates in memory. */
  lemma SharedFlowSplitsStores(e0: Entry, e1: Entry)
    requires e0.id != e1.id && e0.hash != e1.hash && e0.flowId == e1.flowId
    ensures var s := Saved(Saved(EMPTY, e0), e1);
            && Indexed(s) && !Aligned(s)
            && Removed(s, e0.flowId).Ok? && Removed(s, e0.flowId).value.byId == map[e0.id := e0]
            && RowsRemoved(s.byId, e0.flowId) == Ok(map[])
  {
    var s := Saved(Saved(EMPTY, e0), e1);
    assert s.byId == map[e0.id := e0, e1.id := e1];
    assert WithFlow(s.byId, e0.flowId) == {e0.id, e1.id};
    assert s.byId[e0.id].flowId == e0.flowId;
  }
}
