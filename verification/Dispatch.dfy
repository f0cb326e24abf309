/**
 Any number of coordinators over one durable journal, interleaved step by step: each prepares,
 attempts and only then calls its handler, and any of them may crash between two steps, while
 anyone may reconcile any operation at any time (execution.py:145-158 over 0004).
 */
module Dispatch {
  import opened Prelude
  import opened Json
  import opened Operations

  /** Where a coordinator is: after prepare, or after its own attempt was stored and before the handler call. */
  datatype Phase = Held(operation: string) | Cleared(operation: string)

  /** The journal, the coordinators that are running, and the operations whose handler was called. */
  datatype System = System(journal: Journal, running: map<string, Phase>, calls: seq<string>)

  datatype Move =
    | Prepares(who: string, id: string, target: string, kind: string, payload: Value, key: string)
    | Attempts(who: string, note: Option<string>)
    | Calls(who: string)
    | Reconciles(id: string, call: Call)
    | Crashes(who: string)

  const START := System(EMPTY, map[], [])

  /** One atomic step; a step its coordinator is not ready for changes nothing. */
  function Next(s: System, m: Move): System {
    match m
    case Prepares(who, id, target, kind, payload, key) =>
      var (j, r) := StorePrepare(s.journal, id, target, kind, payload, key);
      if r.Ok? then System(j, s.running[who := Held(r.value.intent.id)], s.calls)
      else System(j, s.running - {who}, s.calls)
    case Attempts(who, note) =>
      if who !in s.running || !s.running[who].Held? then s
      else
        var id := s.running[who].operation;
        var (j, r) := Append(Postgres, s.journal, id, Attempt(note));
        if r.Ok? then System(j, s.running[who := Cleared(id)], s.calls)
        else System(j, s.running - {who}, s.calls)
    case Calls(who) =>
      if who !in s.running || !s.running[who].Cleared? then s
      else System(s.journal, s.running - {who}, s.calls + [s.running[who].operation])
    case Reconciles(id, call) =>
      if call.Attempt? then s else s.(journal := Append(Postgres, s.journal, id, call).0)
    case Crashes(who) => s.(running := s.running - {who})
  }

  function Reach(moves: seq<Move>): System {
    if moves == [] then START else Next(Reach(Front(moves)), Last(moves))
  }

  function Count(calls: seq<string>, id: string): nat {
    if calls == [] then 0 else Count(Front(calls), id) + if Last(calls) == id then 1 else 0
  }

  function ClearedFor(running: map<string, Phase>, id: string): set<string> {
    set who | who in running && running[who] == Cleared(id)
  }

  /** The operation's first stored event is ATTEMPTED. */
  predicate WasAttempted(j: Journal, id: string) {
    id in j.records && j.records[id].events != [] && j.records[id].events[0].state == Attempted
  }

  /** Calls made and calls still permitted come to at most the one attempt that is stored. */
  ghost predicate Budget(s: System, id: string) {
    Count(s.calls, id) + |ClearedFor(s.running, id)| <= if WasAttempted(s.journal, id) then 1 else 0
  }

  ghost predicate Safe(s: System) {
    Kept(s.journal) && forall id :: Budget(s, id)
  }

  lemma AppendRemembers(j: Journal, id: string, call: Call, x: string)
    requires WasAttempted(j, x)
    ensures WasAttempted(Append(Postgres, j, id, call).0, x)
  {
  }

  lemma PrepareRemembers(j: Journal, id: string, target: string, kind: string, payload: Value, key: string, x: string)
    requires WasAttempted(j, x)
    ensures WasAttempted(StorePrepare(j, id, target, kind, payload, key).0, x)
  {
  }

  lemma RemovingClears(running: map<string, Phase>, who: string, id: string)
    ensures |ClearedFor(running - {who}, id)| ==
            |ClearedFor(running, id)| - if who in running && running[who] == Cleared(id) then 1 else 0
  {
    if who in running && running[who] == Cleared(id) {
      assert ClearedFor(running, id) == ClearedFor(running - {who}, id) + {who};
    } else {
      assert ClearedFor(running, id) == ClearedFor(running - {who}, id);
    }
  }

  lemma AddingClears(running: map<string, Phase>, who: string, p: Phase, id: string)
    ensures |ClearedFor(running[who := p], id)| == |ClearedFor(running - {who}, id)| + if p == Cleared(id) then 1 else 0
  {
    if p == Cleared(id) {
      assert ClearedFor(running[who := p], id) == ClearedFor(running - {who}, id) + {who};
    } else {
      assert ClearedFor(running[who := p], id) == ClearedFor(running - {who}, id);
    }
  }

  lemma CountAppend(calls: seq<string>, x: string, id: string)
    ensures Count(calls + [x], id) == Count(calls, id) + if x == id then 1 else 0
  {
    assert Front(calls + [x]) == calls;
  }

  /** An attempt SQL accepts is the operation's first event. */
  lemma AttemptIsFirst(j: Journal, id: string, note: Option<string>)
    requires Append(Postgres, j, id, Attempt(note)).1.Ok?
    ensures !WasAttempted(j, id) && WasAttempted(Append(Postgres, j, id, Attempt(note)).0, id)
  {
  }

  lemma MoveKeepsBudget(s: System, m: Move, id: string)
    requires Budget(s, id)
    ensures Budget(Next(s, m), id)
  {
    match m
    case Prepares(who, x, target, kind, payload, key) =>
      RemovingClears(s.running, who, id);
      var r := StorePrepare(s.journal, x, target, kind, payload, key).1;
      if r.Ok? { AddingClears(s.running, who, Held(r.value.intent.id), id); }
      if WasAttempted(s.journal, id) { PrepareRemembers(s.journal, x, target, kind, payload, key, id); }
    case Attempts(who, note) =>
      if who in s.running && s.running[who].Held? {
        var x := s.running[who].operation;
        RemovingClears(s.running, who, id);
        AddingClears(s.running, who, Cleared(x), id);
        if WasAttempted(s.journal, id) { AppendRemembers(s.journal, x, Attempt(note), id); }
        if Append(Postgres, s.journal, x, Attempt(note)).1.Ok? { AttemptIsFirst(s.journal, x, note); }
      }
    case Calls(who) =>
      if who in s.running && s.running[who].Cleared? {
        RemovingClears(s.running, who, id);
        CountAppend(s.calls, s.running[who].operation, id);
      }
    case Reconciles(x, call) =>
      if WasAttempted(s.journal, id) { AppendRemembers(s.journal, x, call, id); }
    case Crashes(who) =>
      RemovingClears(s.running, who, id);
  }

  lemma MoveKeepsJournal(s: System, m: Move)
    requires Kept(s.journal)
    ensures Kept(Next(s, m).journal)
  {
    match m
    case Prepares(_, id, target, kind, payload, key) =>
      PrepareKeeps(Postgres, s.journal, id, target, kind, payload, key);
    case Attempts(who, note) =>
      if who in s.running { AppendKeeps(Postgres, s.journal, s.running[who].operation, Attempt(note)); }
    case Reconciles(id, call) => AppendKeeps(Postgres, s.journal, id, call);
    case _ =>
  }

  lemma {:induction false} AlwaysSafe(moves: seq<Move>)
    ensures Safe(Reach(moves))
  {
    if moves == [] {
      forall id ensures Budget(START, id) { assert ClearedFor(START.running, id) == {}; }
    } else {
      var s := Reach(Front(moves));
      AlwaysSafe(Front(moves));
      MoveKeepsJournal(s, Last(moves));
      forall id ensures Budget(Reach(moves), id) { MoveKeepsBudget(s, Last(moves), id); }
    }
  }

  /** Calls made for operations prepared under one idempotency key. */
  function CallsForKey(j: Journal, calls: seq<string>, key: string): nat {
    if calls == [] then 0
    else
      CallsForKey(j, Front(calls), key)
      + if Last(calls) in j.records && j.records[Last(calls)].intent.key == key then 1 else 0
  }

  lemma {:induction false} OneOperationPerKey(j: Journal, calls: seq<string>, key: string)
    requires Kept(j)
    ensures CallsForKey(j, calls, key) == if key in j.byKey then Count(calls, j.byKey[key]) else 0
  {
    if calls != [] {
      OneOperationPerKey(j, Front(calls), key);
      var id := Last(calls);
      if id in j.records { assert GoodRecord(j, id); }
      if key in j.byKey { assert GoodKey(j, key); }
    }
  }

  /** Whatever the interleaving, crashes and retries, a key's handler is called at most once. */
  lemma AtMostOneCallPerKey(moves: seq<Move>, key: string)
    ensures CallsForKey(Reach(moves).journal, Reach(moves).calls, key) <= 1
  {
    AlwaysSafe(moves);
    var s := Reach(moves);
    OneOperationPerKey(s.journal, s.calls, key);
    if key in s.journal.byKey { assert Budget(s, s.journal.byKey[key]); }
  }

  lemma OnlyCallsCall(s: System, m: Move)
    ensures Next(s, m).calls == s.calls || (m.Calls? && m.who in s.running && s.running[m.who].Cleared?)
  {
  }

  lemma CallSpends(s: System, who: string)
    requires Safe(s) && who in s.running && s.running[who].Cleared?
    ensures WasAttempted(s.journal, s.running[who].operation)
    ensures Count(s.calls, s.running[who].operation) == 0
  {
    var id := s.running[who].operation;
    assert Budget(s, id);
    assert who in ClearedFor(s.running, id);
  }

  /**
   Every handler call, when it is made, finds its operation's ATTEMPTED event stored as the first, and is the
   first call.
   */
  lemma CalledAfterAttempt(moves: seq<Move>, m: Move)
    requires Next(Reach(moves), m).calls != Reach(moves).calls
    ensures
      var s := Reach(moves);
      && m.Calls? && m.who in s.running
      && Next(s, m).calls == s.calls + [s.running[m.who].operation]
      && WasAttempted(s.journal, s.running[m.who].operation)
      && Count(s.calls, s.running[m.who].operation) == 0
  {
    AlwaysSafe(moves);
    OnlyCallsCall(Reach(moves), m);
    CallSpends(Reach(moves), m.who);
  }

  /** The operation an accepted prepare answers is in the journal. */
  lemma PreparedThere(j: Journal, id: string, target: string, kind: string, payload: Value, key: string)
    requires Kept(j) && StorePrepare(j, id, target, kind, payload, key).1.Ok?
    ensures
      var (k, r) := StorePrepare(j, id, target, kind, payload, key);
      r.value.intent.id in k.records && k.records[r.value.intent.id].intent == r.value.intent
  {
    FindsExactly(j, key);
    if key in j.byKey { assert GoodKey(j, key) && GoodRecord(j, j.byKey[key]); }
  }

  lemma PrepareRefused(s: System, prepare: Move, note: Option<string>)
    requires prepare.Prepares?
    requires
      StorePrepare(s.journal, prepare.id, prepare.target, prepare.kind, prepare.payload, prepare.key).1.Error?
    ensures Next(Next(Next(s, prepare), Attempts(prepare.who, note)), Calls(prepare.who)).calls == s.calls
  {
  }

  lemma HeldCalls(s: System, who: string, id: string, note: Option<string>)
    requires who in s.running && s.running[who] == Held(id) && id in s.journal.records
    ensures Next(Next(s, Attempts(who, note)), Calls(who)).calls ==
      if s.journal.records[id].events == [] then s.calls + [id] else s.calls
  {
  }

  /** A reconcile does to the journal what the store does with its verdict or doubt; it attempts and calls nothing. */
  lemma ReconcilesExactly(s: System, id: string, call: Call)
    ensures Next(s, Reconciles(id, call)) == System(
      match call
      case Attempt(_) => s.journal
      case _ => Append(Postgres, s.journal, id, call).0,
      s.running, s.calls)
  {
  }

  /** Runs are made of single moves. */
  lemma ReachGrows(moves: seq<Move>, m: Move)
    ensures Reach(moves + [m]) == Next(Reach(moves), m)
  {
    assert Front(moves + [m]) == moves;
  }

  /**
   After every run, a coordinator that prepares, attempts and calls makes its call exactly when the prepare is
   accepted and the operation has no event yet: a new or never attempted operation is called, any other is not.
   */
  lemma CallsExactly(moves: seq<Move>, prepare: Move, note: Option<string>)
    requires prepare.Prepares?
    ensures
      var s := Reach(moves);
      var (j, r) := StorePrepare(s.journal, prepare.id, prepare.target, prepare.kind, prepare.payload, prepare.key);
      && (r.Ok? ==> r.value.intent.id in j.records)
      && Next(Next(Next(s, prepare), Attempts(prepare.who, note)), Calls(prepare.who)).calls ==
           if r.Ok? && j.records[r.value.intent.id].events == [] then s.calls + [r.value.intent.id] else s.calls
  {
    var s := Reach(moves);
    var (j, r) := StorePrepare(s.journal, prepare.id, prepare.target, prepare.kind, prepare.payload, prepare.key);
    AlwaysSafe(moves);
    if r.Ok? {
      PreparedThere(s.journal, prepare.id, prepare.target, prepare.kind, prepare.payload, prepare.key);
      HeldCalls(Next(s, prepare), prepare.who, r.value.intent.id, note);
    } else {
      PrepareRefused(s, prepare, note);
    }
  }
}
