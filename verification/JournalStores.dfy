/** The two journals as mutable state: OperationJournal's dictionaries, and the effect tables of 0004. */
module JournalStores {
  import opened Prelude
  import opened Json
  import opened Operations

  lemma PrepareKept(j: Journal, id: string, target: string, kind: string, payload: Value, key: string)
    ensures Kept(j) && id !in j.records ==> Kept(PythonPrepare(j, id, target, kind, payload, key).0)
  {
    if Kept(j) && id !in j.records { PrepareKeeps(InMemory, j, id, target, kind, payload, key); }
  }

  lemma StoreKept(j: Journal, id: string, key: string, target: string, kind: string, payload: Value, digest: Digest)
    ensures
      Kept(j) && Dumpable(payload) && payload == Plain(payload) && digest == EffectDigest(target, kind, payload) ==>
        Kept(SqlPrepare(j, id, key, target, kind, payload, digest).0)
  {
    if Kept(j) && Dumpable(payload) && payload == Plain(payload) && digest == EffectDigest(target, kind, payload) {
      PrepareKeeps(Postgres, j, id, target, kind, payload, key);
    }
  }

  lemma AppendKept(b: Backend, j: Journal, id: string, call: Call)
    ensures Kept(j) && Spoken(b, j) ==> Kept(Append(b, j, id, call).0) && Spoken(b, Append(b, j, id, call).0)
  {
    if Kept(j) && Spoken(b, j) {
      AppendKeeps(b, j, id, call);
      StepSpoken(b, j, Appending(id, call));
    }
  }

  class OperationJournal {
    var records: map<string, Record>
    var byIdempotency: map<string, string>

    function Snapshot(): Journal
      reads this
    {
      Journal(records, byIdempotency)
    }

    constructor ()
      ensures Snapshot() == EMPTY
    {
      records, byIdempotency := map[], map[];
    }

    /** `newId` is the id factory's answer, should one be needed. */
    method Prepare(newId: string, target: string, kind: string, payload: Value, key: string) returns (r: PrepareReply)
      modifies this
      ensures (Snapshot(), r) == PythonPrepare(old(Snapshot()), newId, target, kind, payload, key)
      ensures Kept(old(Snapshot())) && newId !in old(records) ==> Kept(Snapshot())
    {
      PrepareKept(Snapshot(), newId, target, kind, payload, key);
      if key == "" {
        return Error(MissingIdentity);
      }
      if !Dumpable(payload) {
        return Error(NotJson);
      }
      var digest := EffectDigest(target, kind, payload);
      if key in byIdempotency && byIdempotency[key] in records {
        var existing := records[byIdempotency[key]].intent;
        if existing.digest != digest {
          return Error(Collision);
        }
        return Ok(Prep(existing, true));
      }
      if newId == "" || target == "" || kind == "" {
        return Error(MissingIdentity);
      }
      var intent := Intent(newId, key, target, kind, Freeze(payload), digest);
      records := records[newId := Record(intent, [])];
      byIdempotency := byIdempotency[key := newId];
      return Ok(Prep(intent, false));
    }

    /** `attempt`, `mark_ambiguous` and `reconcile` share their shape: look up, refuse, or append. */
    method Append(id: string, call: Call) returns (r: Result<Event, Fault>)
      modifies this`records
      ensures (Snapshot(), r) == Operations.Append(InMemory, old(Snapshot()), id, call)
      ensures Kept(old(Snapshot())) && Spoken(InMemory, old(Snapshot())) ==>
        Kept(Snapshot()) && Spoken(InMemory, Snapshot())
    {
      AppendKept(InMemory, Snapshot(), id, call);
      if id !in records {
        return Error(UnknownOperation);
      }
      var refusal := PythonRefusal(records[id].events, call);
      if refusal.Some? {
        return Error(refusal.value);
      }
      records := records[id := records[id].(events := records[id].events + [Recorded(call)])];
      return Ok(Recorded(call));
    }
  }

  datatype EventRow = EventRow(operation: string, event: Event)

  /** The rows of one operation, in id order. */
  function HistoryOf(rows: seq<EventRow>, id: string): seq<Event> {
    if rows == [] then []
    else if Last(rows).operation == id then HistoryOf(Front(rows), id) + [Last(rows).event]
    else HistoryOf(Front(rows), id)
  }

  lemma {:induction false} NoRowsNoHistory(rows: seq<EventRow>, id: string)
    requires forall i | 0 <= i < |rows| :: rows[i].operation != id
    ensures HistoryOf(rows, id) == []
  {
    if rows != [] {
      NoRowsNoHistory(Front(rows), id);
    }
  }

  /** Each operation with its own events. */
  function View(operations: map<string, Intent>, rows: seq<EventRow>): map<string, Record> {
    map id | id in operations :: Record(operations[id], HistoryOf(rows, id))
  }

  lemma ViewInserts(operations: map<string, Intent>, rows: seq<EventRow>, id: string, intent: Intent)
    requires forall i | 0 <= i < |rows| :: rows[i].operation in operations
    requires id !in operations
    ensures View(operations[id := intent], rows) == View(operations, rows)[id := Record(intent, [])]
  {
    NoRowsNoHistory(rows, id);
  }

  lemma ViewAppends(operations: map<string, Intent>, rows: seq<EventRow>, id: string, e: Event)
    requires id in operations
    ensures
      var view := View(operations, rows);
      View(operations, rows + [EventRow(id, e)]) == view[id := Record(operations[id], HistoryOf(rows, id) + [e])]
  {
    assert Front(rows + [EventRow(id, e)]) == rows;
  }

  /** effect_operations with its primary and unique keys, and the append-only effect_operation_events. */
  class EffectTables {
    var operations: map<string, Intent>
    var keyIndex: map<string, string>
    var rows: seq<EventRow>

    /** The tables as a journal. */
    function Snapshot(): Journal
      reads this
    {
      Journal(View(operations, rows), keyIndex)
    }

    /** Every event row references an operation. */
    ghost predicate Valid()
      reads this
    {
      forall i {:trigger rows[i]} | 0 <= i < |rows| :: rows[i].operation in operations
    }

    constructor ()
      ensures Valid() && Snapshot() == EMPTY
    {
      operations, keyIndex, rows := map[], map[], [];
    }

    /** `SELECT * ... ORDER BY id DESC LIMIT 1`. */
    method LatestEventOf(id: string) returns (e: Option<Event>)
      ensures e == if HistoryOf(rows, id) == [] then None else Some(Last(HistoryOf(rows, id)))
    {
      var i := |rows|;
      assert rows[..i] == rows;
      while i > 0
        invariant 0 <= i <= |rows|
        invariant HistoryOf(rows, id) == HistoryOf(rows[..i], id)
      {
        assert Front(rows[..i]) == rows[..i - 1];
        if rows[i - 1].operation == id {
          return Some(rows[i - 1].event);
        }
        i := i - 1;
      }
      return None;
    }

    /** The store's `state`, for an operation that may be unknown. */
    method StateOf(id: string) returns (s: OpState)
      requires Valid()
      ensures s == if id in Snapshot().records then CurrentState(Snapshot().records[id].events) else Prepared
    {
      var e := LatestEventOf(id);
      if id !in operations { NoRowsNoHistory(rows, id); }
      return if e.None? then Prepared else e.value.state;
    }

    /** `prepare_effect_operation`. */
    method PrepareEffectOperation(id: string, key: string, target: string, kind: string, payload: Value, digest: Digest)
      returns (r: PrepareReply)
      requires Valid()
      modifies this
      ensures Valid()
      ensures (Snapshot(), r) == SqlPrepare(old(Snapshot()), id, key, target, kind, payload, digest)
      ensures
        Kept(old(Snapshot())) && Dumpable(payload) && payload == Plain(payload)
          && digest == EffectDigest(target, kind, payload) ==>
          Kept(Snapshot())
    {
      StoreKept(Snapshot(), id, key, target, kind, payload, digest);
      if id == "" || Blank(key) || Blank(target) || Blank(kind) || Blank(digest) {
        return Error(MissingIdentity);
      }
      if key in keyIndex && keyIndex[key] in operations {
        var existing := operations[keyIndex[key]];
        if existing.target != target || existing.kind != kind || Plain(existing.payload) != Plain(payload)
           || existing.digest != digest {
          return Error(Collision);
        }
        return Ok(Prep(existing, true));
      }
      if id in operations {
        return Error(Collision);
      }
      var intent := Intent(id, key, target, kind, Freeze(payload), digest);
      ViewInserts(operations, rows, id, intent);
      operations := operations[id := intent];
      keyIndex := keyIndex[key := id];
      return Ok(Prep(intent, false));
    }

    /** `record_effect_attempt` and `reconcile_effect_operation`. */
    method RecordEvent(id: string, call: Call) returns (r: Result<Event, Fault>)
      requires Valid()
      modifies this`rows
      ensures Valid()
      ensures (Snapshot(), r) == Append(Postgres, old(Snapshot()), id, call)
      ensures Kept(old(Snapshot())) && Spoken(Postgres, old(Snapshot())) ==>
        Kept(Snapshot()) && Spoken(Postgres, Snapshot())
    {
      AppendKept(Postgres, Snapshot(), id, call);
      if id !in operations {
        return Error(UnknownOperation);
      }
      var latest := LatestEventOf(id);
      var refusal := StateRefusal(if latest.None? then None else Some(latest.value.state), call);
      if refusal.Some? {
        return Error(refusal.value);
      }
      ViewAppends(operations, rows, id, Recorded(call));
      rows := rows + [EventRow(id, Recorded(call))];
      return Ok(Recorded(call));
    }
  }
}
