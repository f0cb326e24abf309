/**
 The operation journal: the in-memory reference semantics (operations.py) and the guarded
 functions that keep it in Postgres (0004), side by side.
 */
module Operations {
  import opened Prelude
  import opened Json

  datatype OpState = Prepared | Attempted | Ambiguous | Verified | Failed

  /** The states an event can record; an operation without events is PREPARED. */
  type EventState = s: OpState | s != Prepared witness Attempted

  datatype Event = Event(state: EventState, evidence: Option<string>, readback: Option<string>)

  datatype Intent = Intent(id: string, key: string, target: string, kind: string, payload: Value, digest: Digest)

  datatype Record = Record(intent: Intent, events: seq<Event>)

  datatype Journal = Journal(records: map<string, Record>, byKey: map<string, string>)

  datatype Fault =
    | UnknownOperation | MissingIdentity | NotJson | Collision | BadTransition | MissingEvidence | MissingReadback

  datatype Backend = InMemory | Postgres

  const EMPTY := Journal(map[], map[])

  function CurrentState(events: seq<Event>): OpState {
    if events == [] then Prepared else Last(events).state
  }

  // ---- appending to one operation's history ----

  datatype Call =
    | Attempt(note: Option<string>)
    | MarkAmbiguous(evidence: string)
    | Reconcile(verified: bool, evidence: string, readback: Option<string>)

  function Recorded(call: Call): Event {
    match call
    case Attempt(note) => Event(Attempted, note, None)
    case MarkAmbiguous(evidence) => Event(Ambiguous, Some(evidence), None)
    case Reconcile(verified, evidence, readback) =>
      Event(if verified then Verified else Failed, Some(evidence), readback)
  }

  /** Why OperationJournal raises, in the order it checks. */
  function PythonRefusal(events: seq<Event>, call: Call): Option<Fault> {
    var state := CurrentState(events);
    match call
    case Attempt(_) =>
      if state != Prepared then Some(BadTransition) else None
    case MarkAmbiguous(evidence) =>
      if state != Attempted then Some(BadTransition)
      else if evidence == "" then Some(MissingEvidence)
      else None
    case Reconcile(verified, evidence, readback) =>
      if state !in {Attempted, Ambiguous} then Some(BadTransition)
      else if evidence == "" then Some(MissingEvidence)
      else if verified && (readback.None? || readback.value == "") then Some(MissingReadback)
      else None
  }

  /** NULL when the operation has no event yet. */
  function LatestState(events: seq<Event>): Option<OpState> {
    if events == [] then None else Some(Last(events).state)
  }

  /** `state NOT IN (...)` in SQL's three-valued logic. */
  function NotIn(state: Option<OpState>, listed: set<OpState>): Option<bool> {
    if state.None? then None else Some(state.value !in listed)
  }

  /** Why the guarded functions raise: an IF takes its branch only when its condition is true, not NULL. */
  function StateRefusal(state: Option<OpState>, call: Call): Option<Fault> {
    match call
    case Attempt(_) =>
      if state.Some? then Some(BadTransition) else None
    case MarkAmbiguous(evidence) =>
      if Blank(evidence) then Some(MissingEvidence)
      else if state != Some(Attempted) then Some(BadTransition)
      else None
    case Reconcile(verified, evidence, readback) =>
      if Blank(evidence) then Some(MissingEvidence)
      else if NotIn(state, {Attempted, Ambiguous}) == Some(true) then Some(BadTransition)
      else if verified && (readback.None? || Blank(readback.value)) then Some(MissingReadback)
      else None
  }

  function SqlRefusal(events: seq<Event>, call: Call): Option<Fault> {
    StateRefusal(LatestState(events), call)
  }

  function Refusal(b: Backend, events: seq<Event>, call: Call): Option<Fault> {
    if b.InMemory? then PythonRefusal(events, call) else SqlRefusal(events, call)
  }

  /** Spaces where a reference is needed: enough for Python, refused by SQL. */
  predicate BlankReference(call: Call) {
    match call
    case Attempt(_) => false
    case MarkAmbiguous(evidence) => Blank(evidence)
    case Reconcile(verified, evidence, readback) =>
      Blank(evidence) || (verified && readback.Some? && Blank(readback.value))
  }

  /**
   Where the two backends part, for every history and call: Python alone accepts blank references,
   and SQL alone reconciles an operation that was never attempted.
   */
  lemma BackendsPart(events: seq<Event>, call: Call)
    ensures PythonRefusal(events, call).None? ==> (SqlRefusal(events, call).Some? <==> BlankReference(call))
    ensures SqlRefusal(events, call).None? ==> (PythonRefusal(events, call).Some? <==> call.Reconcile? && events == [])
    ensures events == [] && call.Reconcile? && !BlankReference(call) && (call.verified ==> call.readback.Some?) ==>
            PythonRefusal(events, call).Some? && SqlRefusal(events, call).None?
  {
    assert Blank("");
  }

  // ---- which histories there are ----

  /** The references a call needs: some text in memory, some text that is not only spaces in SQL. */
  predicate Referenced(b: Backend, call: Call) {
    match call
    case Attempt(_) => true
    case MarkAmbiguous(evidence) => Refers(b, evidence)
    case Reconcile(verified, evidence, readback) =>
      Refers(b, evidence) && (verified ==> readback.Some? && Refers(b, readback.value))
  }

  predicate Refers(b: Backend, text: string) {
    if b.InMemory? then |text| > 0 else exists i :: 0 <= i < |text| && text[i] != ' '
  }

  lemma WordSnoc(b: Backend, w: seq<OpState>, e: OpState)
    ensures Word(b, w + [e]) <==>
      || (w == [] && (e == Attempted || (b.Postgres? && e in {Verified, Failed})))
      || (w == [Attempted] && e in {Ambiguous, Verified, Failed})
      || (w == [Attempted, Ambiguous] && e in {Verified, Failed})
  {
    if |w| == 0 {
      assert w == [] && w + [e] == [e];
    } else if |w| == 1 {
      assert w == [w[0]] && w + [e] == [w[0], e];
    } else if |w| == 2 {
      assert w == [w[0], w[1]] && w + [e] == [w[0], w[1], e];
    } else {
      assert |w + [e]| > 3;
    }
  }

  /** A call on a history of the language is accepted exactly when it stays in the language and has its references. */
  lemma AcceptsExactly(b: Backend, events: seq<Event>, call: Call)
    requires Word(b, States(events))
    ensures Refusal(b, events, call).None? <==>
      Referenced(b, call) && Word(b, States(events) + [match call
        case Attempt(_) => Attempted
        case MarkAmbiguous(_) => Ambiguous
        case Reconcile(verified, _, _) => if verified then Verified else Failed])
  {
    var w := States(events);
    assert events != [] ==> Last(events).state == Last(w);
    WordSnoc(b, w, Recorded(call).state);
  }

  function States(events: seq<Event>): (w: seq<OpState>)
    ensures |w| == |events| && forall i | 0 <= i < |events| :: w[i] == events[i].state
  {
    seq(|events|, i requires 0 <= i < |events| => events[i].state)
  }

  /** ATTEMPTED, perhaps AMBIGUOUS, then VERIFIED or FAILED. */
  predicate Complete(w: seq<OpState>) {
    || w == [Attempted, Verified] || w == [Attempted, Failed]
    || w == [Attempted, Ambiguous, Verified] || w == [Attempted, Ambiguous, Failed]
  }

  predicate PythonWord(w: seq<OpState>) {
    w == [] || w == [Attempted] || w == [Attempted, Ambiguous] || Complete(w)
  }

  predicate Word(b: Backend, w: seq<OpState>) {
    PythonWord(w) || (b.Postgres? && (w == [Verified] || w == [Failed]))
  }

  lemma PythonWordsArePrefixes(w: seq<OpState>)
    ensures PythonWord(w) <==> exists c :: Complete(c) && w <= c
  {
    if PythonWord(w) {
      var c := if Complete(w) then w else if |w| == 2 then [Attempted, Ambiguous, Failed] else [Attempted, Failed];
      assert Complete(c) && w <= c;
    }
    forall c | Complete(c) && w <= c ensures PythonWord(w) {
      assert w == c[..|w|];
    }
  }

  lemma WordGrows(b: Backend, events: seq<Event>, call: Call)
    requires Word(b, States(events)) && Refusal(b, events, call).None?
    ensures Word(b, States(events + [Recorded(call)]))
  {
    var w, e := States(events), Recorded(call).state;
    assert States(events + [Recorded(call)]) == w + [e];
    assert events != [] ==> Last(events).state == Last(w);
  }

  /** A history holds one VERIFIED event when the operation is VERIFIED, as its last event, and none otherwise. */
  lemma VerifiedOnce(b: Backend, events: seq<Event>)
    requires Word(b, States(events))
    ensures |VerifiedEvents(events)| == if CurrentState(events) == Verified then 1 else 0
    ensures CurrentState(events) == Verified ==> VerifiedEvents(events) == [Last(events)]
  {
    var w := States(events);
    assert events != [] ==> Last(events).state == Last(w);
    VerifiedAtEnd(events);
  }

  function VerifiedEvents(events: seq<Event>): seq<Event> {
    if events == [] then []
    else if Last(events).state == Verified then VerifiedEvents(Front(events)) + [Last(events)]
    else VerifiedEvents(Front(events))
  }

  lemma {:induction false} VerifiedAtEnd(events: seq<Event>)
    requires forall i | 0 <= i < |events| - 1 :: events[i].state != Verified
    ensures VerifiedEvents(events) == if CurrentState(events) == Verified then [Last(events)] else []
  {
    if events != [] {
      VerifiedAtEnd(Front(events));
    }
  }

  // ---- preparing ----

  function Find(j: Journal, key: string): Option<Record> {
    if key in j.byKey && j.byKey[key] in j.records then Some(j.records[j.byKey[key]]) else None
  }

  function Insert(j: Journal, intent: Intent): Journal {
    Journal(j.records[intent.id := Record(intent, [])], j.byKey[intent.key := intent.id])
  }

  /** The stored or found intent, and whether it was already there. */
  datatype Prep = Prep(intent: Intent, duplicate: bool)

  type PrepareReply = Result<Prep, Fault>

  /** OperationJournal.prepare; `id` is what the id factory returned. */
  function PythonPrepare(j: Journal, id: string, target: string, kind: string, payload: Value, key: string)
    : (Journal, PrepareReply)
  {
    if key == "" then (j, Error(MissingIdentity))
    else if !Dumpable(payload) then (j, Error(NotJson))
    else
      var digest := EffectDigest(target, kind, payload);
      var existing := Find(j, key);
      if existing.Some? then
        if existing.value.intent.digest != digest then (j, Error(Collision))
        else (j, Ok(Prep(existing.value.intent, true)))
      else if id == "" || target == "" || kind == "" then (j, Error(MissingIdentity))
      else
        var intent := Intent(id, key, target, kind, Freeze(payload), digest);
        (Insert(j, intent), Ok(Prep(intent, false)))
  }

  /**
   `prepare_effect_operation`. The payload column is kept as the frozen value it is read back as.
   An id that is already taken raises a unique violation; no row then has the key, so every column
   of the re-read row is NULL and distinct from the argument: a collision.
   */
  function SqlPrepare(j: Journal, id: string, key: string, target: string, kind: string, payload: Value, digest: Digest)
    : (Journal, PrepareReply)
  {
    if id == "" || Blank(key) || Blank(target) || Blank(kind) || Blank(digest) then (j, Error(MissingIdentity))
    else
      var existing := Find(j, key);
      if existing.Some? then
        var row := existing.value.intent;
        if row.target != target || row.kind != kind || Plain(row.payload) != Plain(payload) || row.digest != digest
        then (j, Error(Collision))
        else (j, Ok(Prep(row, true)))
      else if id in j.records then (j, Error(Collision))
      else
        var intent := Intent(id, key, target, kind, Freeze(payload), digest);
        (Insert(j, intent), Ok(Prep(intent, false)))
  }

  /** PostgresExecutionStore.prepare. */
  function StorePrepare(j: Journal, id: string, target: string, kind: string, payload: Value, key: string)
    : (Journal, PrepareReply)
  {
    if !Dumpable(Plain(payload)) then (j, Error(NotJson))
    else SqlPrepare(j, id, key, target, kind, Plain(payload), EffectDigest(target, kind, Plain(payload)))
  }

  function Prepare(b: Backend, j: Journal, id: string, target: string, kind: string, payload: Value, key: string)
    : (Journal, PrepareReply)
  {
    if b.InMemory? then PythonPrepare(j, id, target, kind, payload, key)
    else StorePrepare(j, id, target, kind, payload, key)
  }

  function Append(b: Backend, j: Journal, id: string, call: Call): (Journal, Result<Event, Fault>) {
    if id !in j.records then (j, Error(UnknownOperation))
    else
      var record := j.records[id];
      var refusal := Refusal(b, record.events, call);
      if refusal.Some? then (j, Error(refusal.value))
      else
        (j.(records := j.records[id := record.(events := record.events + [Recorded(call)])]), Ok(Recorded(call)))
  }

  // ---- whole runs ----

  datatype Step =
    | Preparing(id: string, target: string, kind: string, payload: Value, key: string)
    | Appending(id: string, call: Call)

  function After(b: Backend, j: Journal, s: Step): Journal {
    match s
    case Preparing(id, target, kind, payload, key) => Prepare(b, j, id, target, kind, payload, key).0
    case Appending(id, call) => Append(b, j, id, call).0
  }

  function Run(b: Backend, steps: seq<Step>): Journal {
    if steps == [] then EMPTY else After(b, Run(b, Front(steps)), Last(steps))
  }

  ghost predicate Spoken(b: Backend, j: Journal) {
    forall id {:trigger id in j.records} {:trigger j.records[id]}
      | id in j.records :: Word(b, States(j.records[id].events))
  }

  lemma StepSpoken(b: Backend, j: Journal, s: Step)
    requires Spoken(b, j)
    ensures Spoken(b, After(b, j, s))
  {
    if s.Appending? && s.id in j.records && Refusal(b, j.records[s.id].events, s.call).None? {
      WordGrows(b, j.records[s.id].events, s.call);
    }
  }

  /** No run of either backend, whatever ids it draws, records any other history. */
  lemma {:induction false} OnlyWords(b: Backend, steps: seq<Step>)
    ensures Spoken(b, Run(b, steps))
  {
    if steps != [] {
      OnlyWords(b, Front(steps));
      StepSpoken(b, Run(b, Front(steps)), Last(steps));
    }
  }

  function CallFor(s: EventState): Call {
    if s == Attempted then Attempt(None)
    else if s == Ambiguous then MarkAmbiguous("seen")
    else Reconcile(s == Verified, "seen", Some("sum"))
  }

  function Speak(w: seq<EventState>): seq<Step> {
    if w == [] then [Preparing("op", "target", "kind", Dict(map[]), "key")]
    else Speak(Front(w)) + [Appending("op", CallFor(Last(w)))]
  }

  /** Preparing under a new id and a new key stores the intent. */
  lemma PreparesNew(b: Backend, j: Journal, id: string, target: string, kind: string, payload: Value, key: string)
    requires id !in j.records && Find(j, key).None? && Dumpable(payload) && Dumpable(Plain(payload))
    requires id != "" && !Blank(key) && !Blank(target) && !Blank(kind)
    ensures
      var digest := if b.InMemory? then EffectDigest(target, kind, payload)
        else EffectDigest(target, kind, Plain(payload));
      var i := Intent(id, key, target, kind, if b.InMemory? then Freeze(payload) else Freeze(Plain(payload)), digest);
      Prepare(b, j, id, target, kind, payload, key) == (Insert(j, i), Ok(Prep(i, false)))
  {
    assert Blank("");
    Sha256Exact(Text(Envelope(target, kind, Plain(payload))), "");
  }

  lemma NotBlank(s: string)
    requires s != "" && s[0] != ' '
    ensures !Blank(s)
  {
  }

  lemma FirstPrepared(b: Backend)
    ensures "op" in Run(b, Speak([])).records && Run(b, Speak([])).records["op"].events == []
  {
    var payload := Dict(map[]);
    assert Front(Speak([])) == [] && Run(b, []) == EMPTY;
    PlainDumpable(payload);
    NotBlank("key");
    NotBlank("target");
    NotBlank("kind");
    PreparesNew(b, EMPTY, "op", "target", "kind", payload, "key");
  }

  lemma WordAccepted(b: Backend, events: seq<Event>, s: EventState)
    requires Word(b, States(events) + [s])
    ensures Refusal(b, events, CallFor(s)).None?
    ensures Word(b, States(events))
    ensures States(events + [Recorded(CallFor(s))]) == States(events) + [s]
  {
    var w := States(events);
    assert events != [] ==> Last(events).state == Last(w);
    assert (w + [s])[|w|] == s && forall i | 0 <= i < |w| :: (w + [s])[i] == w[i];
    assert !Blank("seen") && !Blank("sum") by { assert "seen"[0] == 's' && "sum"[0] == 's'; }
  }

  /** Every history the backend's language has is reached by a run. */
  lemma {:induction false} EveryWord(b: Backend, w: seq<EventState>)
    requires Word(b, w)
    ensures "op" in Run(b, Speak(w)).records && States(Run(b, Speak(w)).records["op"].events) == w
  {
    if w == [] {
      FirstPrepared(b);
    } else {
      assert w == Front(w) + [Last(w)];
      WordPrefix(b, w);
      EveryWord(b, Front(w));
      assert Front(Speak(w)) == Speak(Front(w));
      WordAccepted(b, Run(b, Speak(Front(w))).records["op"].events, Last(w));
    }
  }

  lemma WordPrefix(b: Backend, w: seq<OpState>)
    requires Word(b, w) && w != []
    ensures Word(b, Front(w))
  {
  }

  // ---- the journal's own consistency ----

  ghost predicate GoodIntent(i: Intent) {
    && i.id != "" && i.key != "" && i.target != "" && i.kind != ""
    && Dumpable(Plain(i.payload)) && i.payload == Freeze(i.payload)
    && i.digest == EffectDigest(i.target, i.kind, Plain(i.payload))
  }

  ghost predicate GoodRecord(j: Journal, id: string)
    requires id in j.records
  {
    var i := j.records[id].intent;
    GoodIntent(i) && i.id == id && i.key in j.byKey && j.byKey[i.key] == id
  }

  ghost predicate GoodKey(j: Journal, key: string)
    requires key in j.byKey
  {
    j.byKey[key] in j.records && j.records[j.byKey[key]].intent.key == key
  }

  /** Keys and operations are in one-to-one correspondence, and each digest is that of the stored payload. */
  ghost predicate Kept(j: Journal) {
    && (forall id {:trigger GoodRecord(j, id)} | id in j.records :: GoodRecord(j, id))
    && (forall key {:trigger GoodKey(j, key)} | key in j.byKey :: GoodKey(j, key))
  }

  /** The id the factory returns is new. SQL needs no such promise: the primary key refuses a used id. */
  predicate FreshId(b: Backend, j: Journal, s: Step) {
    b.InMemory? && s.Preparing? ==> s.id !in j.records
  }

  lemma InsertKeeps(j: Journal, i: Intent)
    requires Kept(j) && GoodIntent(i) && i.id !in j.records && i.key !in j.byKey
    ensures Kept(Insert(j, i))
  {
    var k := Insert(j, i);
    forall id | id in k.records ensures GoodRecord(k, id) {
      if id != i.id { assert GoodRecord(j, id); }
    }
    forall key | key in k.byKey ensures GoodKey(k, key) {
      if key != i.key { assert GoodKey(j, key); }
    }
  }

  lemma AppendKeeps(b: Backend, j: Journal, id: string, call: Call)
    requires Kept(j)
    ensures Kept(Append(b, j, id, call).0)
  {
    var k := Append(b, j, id, call).0;
    forall x | x in k.records ensures GoodRecord(k, x) { assert GoodRecord(j, x); }
    forall key | key in k.byKey ensures GoodKey(k, key) { assert GoodKey(j, key); }
  }

  lemma FindsExactly(j: Journal, key: string)
    requires Kept(j)
    ensures Find(j, key).Some? <==> key in j.byKey
    ensures Find(j, key).Some? ==> Find(j, key).value.intent.key == key && GoodIntent(Find(j, key).value.intent)
  {
    if key in j.byKey {
      assert GoodKey(j, key);
      assert GoodRecord(j, j.byKey[key]);
    }
  }

  lemma NewIntent(id: string, key: string, target: string, kind: string, payload: Value)
    requires id != "" && key != "" && target != "" && kind != "" && Dumpable(payload)
    ensures GoodIntent(Intent(id, key, target, kind, Freeze(payload), EffectDigest(target, kind, payload)))
  {
    FrozenDigest(target, kind, payload);
    FreezePlain(Freeze(payload));
    FreezePlain(payload);
    PlainFreeze(payload);
  }

  lemma PrepareKeeps(b: Backend, j: Journal, id: string, target: string, kind: string, payload: Value, key: string)
    requires Kept(j) && (b.InMemory? ==> id !in j.records)
    ensures Kept(Prepare(b, j, id, target, kind, payload, key).0)
  {
    FindsExactly(j, key);
    var r := Prepare(b, j, id, target, kind, payload, key);
    if r.1.Ok? && !r.1.value.duplicate {
      assert Blank("");
      if b.InMemory? {
        NewIntent(id, key, target, kind, payload);
      } else {
        NewIntent(id, key, target, kind, Plain(payload));
      }
      InsertKeeps(j, r.1.value.intent);
    }
  }

  lemma {:induction false} JournalKept(b: Backend, steps: seq<Step>)
    requires forall n | 0 <= n < |steps| :: FreshId(b, Run(b, steps[..n]), steps[n])
    ensures Kept(Run(b, steps))
  {
    if steps != [] {
      var before := Front(steps);
      forall n | 0 <= n < |before| ensures FreshId(b, Run(b, before[..n]), before[n]) {
        assert before[..n] == steps[..n];
      }
      JournalKept(b, before);
      assert steps[..|before|] == before;
      var j, s := Run(b, before), Last(steps);
      match s
      case Preparing(id, target, kind, payload, key) => PrepareKeeps(b, j, id, target, kind, payload, key);
      case Appending(id, call) => AppendKeeps(b, j, id, call);
    }
  }

  // ---- idempotency ----

  ghost predicate SameEffect(stored: Intent, target: string, kind: string, payload: Value) {
    stored.target == target && stored.kind == kind && Plain(stored.payload) == Plain(payload)
  }

  lemma DigestDecides(stored: Intent, target: string, kind: string, payload: Value)
    requires GoodIntent(stored) && Dumpable(payload)
    ensures stored.digest == EffectDigest(target, kind, payload) <==> SameEffect(stored, target, kind, payload)
  {
    EffectDigestExact(stored.target, stored.kind, Plain(stored.payload), target, kind, payload);
    PlainIdempotent(stored.payload);
  }

  /**
   A key that is in use is accepted exactly when target, kind and payload are the stored ones, up to
   key order and list or tuple; the caller then gets the stored intent and nothing changes.
   */
  lemma KeyNamesOneEffect(j: Journal, id: string, target: string, kind: string, payload: Value, key: string)
    requires Kept(j) && Find(j, key).Some? && Dumpable(payload)
    ensures
      var stored := Find(j, key).value.intent;
      PythonPrepare(j, id, target, kind, payload, key) ==
        (j, if SameEffect(stored, target, kind, payload) then Ok(Prep(stored, true)) else Error(Collision))
  {
    FindsExactly(j, key);
    DigestDecides(Find(j, key).value.intent, target, kind, payload);
  }

  /** The same for the durable store, which takes any payload whose plain form is JSON and refuses blank fields. */
  lemma StoredKeyNamesOneEffect(j: Journal, id: string, target: string, kind: string, payload: Value, key: string)
    requires Kept(j) && Find(j, key).Some? && JsonLike(payload) && id != ""
    ensures
      var stored := Find(j, key).value.intent;
      StorePrepare(j, id, target, kind, payload, key) ==
        (j, if Blank(key) || Blank(target) || Blank(kind) then Error(MissingIdentity)
            else if SameEffect(stored, target, kind, payload) then Ok(Prep(stored, true))
            else Error(Collision))
  {
    FindsExactly(j, key);
    PlainDumpable(payload);
    PlainIdempotent(payload);
    DigestDecides(Find(j, key).value.intent, target, kind, Plain(payload));
    Sha256Exact(Text(Envelope(target, kind, Plain(payload))), "");
  }

  /** Preparing a new key leaves every other operation alone exactly when the id factory returned a fresh id. */
  lemma OverwritesExactly(j: Journal, id: string, target: string, kind: string, payload: Value, key: string)
    requires Kept(j)
    requires
      var r := PythonPrepare(j, id, target, kind, payload, key).1;
      r.Ok? && !r.value.duplicate
    ensures
      var k := PythonPrepare(j, id, target, kind, payload, key).0;
      (forall x | x in j.records :: x in k.records && k.records[x] == j.records[x]) <==> id !in j.records
  {
    FindsExactly(j, key);
    var k := PythonPrepare(j, id, target, kind, payload, key).0;
    if id in j.records {
      assert GoodRecord(j, id);
      assert k.records[id].intent.key == key && j.records[id].intent.key != key;
    }
  }

  // ---- attempts per idempotency key, in memory ----

  predicate AlreadyAttempted(j: Journal, key: string) {
    key in j.byKey && j.byKey[key] in j.records && j.records[j.byKey[key]].events != []
  }

  predicate CanAttempt(j: Journal, key: string) {
    key in j.byKey && Append(InMemory, j, j.byKey[key], Attempt(None)).1.Ok?
  }

  /**
   An accepted prepare lets an already attempted key be attempted again exactly when its id is that of an
   operation with events.
   */
  lemma ReattemptableExactly(j: Journal, id: string, target: string, kind: string, payload: Value, key: string)
    requires Kept(j)
    requires
      var r := PythonPrepare(j, id, target, kind, payload, key).1;
      r.Ok? && !r.value.duplicate
    ensures
      (exists used :: AlreadyAttempted(j, used) && CanAttempt(PythonPrepare(j, id, target, kind, payload, key).0, used))
      <==> id in j.records && j.records[id].events != []
  {
    FindsExactly(j, key);
    var k := PythonPrepare(j, id, target, kind, payload, key).0;
    if id in j.records && j.records[id].events != [] {
      var used := j.records[id].intent.key;
      assert GoodRecord(j, id);
      assert AlreadyAttempted(j, used) && CanAttempt(k, used);
    }
  }

  /** The attempts accepted for the operation the key names at the time. */
  function Attempts(steps: seq<Step>, key: string): nat {
    if steps == [] then 0 else Attempts(Front(steps), key) + AttemptsAt(Run(InMemory, Front(steps)), Last(steps), key)
  }

  function AttemptsAt(j: Journal, s: Step, key: string): nat {
    if s.Appending? && s.call.Attempt? && key in j.byKey && j.byKey[key] == s.id
      && Append(InMemory, j, s.id, s.call).1.Ok? then 1 else 0
  }

  /** A prepare that inserts does not draw the id of an operation that has events. */
  predicate Careful(j: Journal, s: Step) {
    s.Preparing? && Find(j, s.key).None? && s.id in j.records
      && PythonPrepare(j, s.id, s.target, s.kind, s.payload, s.key).1.Ok?
    ==> j.records[s.id].events == []
  }

  ghost predicate AllCareful(steps: seq<Step>) {
    forall n {:trigger steps[n]} | 0 <= n < |steps| :: Careful(Run(InMemory, steps[..n]), steps[n])
  }

  /** At no point of the run could one more attempt give a key its second. */
  ghost predicate NeverTwice(steps: seq<Step>) {
    forall n, id, key {:trigger Attempts(steps[..n] + [Appending(id, Attempt(None))], key)} | 0 <= n <= |steps| ::
      Attempts(steps[..n] + [Appending(id, Attempt(None))], key) <= 1
  }

  /** An operation has been attempted once when it has events, whichever of its keys is asked about. */
  ghost predicate Counted(j: Journal, count: string -> nat) {
    && (forall id {:trigger j.records[id]} | id in j.records ::
          j.records[id].intent.key in j.byKey && j.byKey[j.records[id].intent.key] == id)
    && (forall key {:trigger j.byKey[key]} | key in j.byKey :: j.byKey[key] in j.records)
    && (forall key {:trigger count(key)} :: count(key) == if AlreadyAttempted(j, key) then 1 else 0)
  }

  ghost predicate CountGrows(j: Journal, s: Step, before: string -> nat, after: string -> nat) {
    forall key {:trigger after(key)} :: after(key) == before(key) + AttemptsAt(j, s, key)
  }

  lemma CountedPrepare(j: Journal, s: Step, before: string -> nat, after: string -> nat)
    requires s.Preparing? && Counted(j, before) && Careful(j, s) && CountGrows(j, s, before, after)
    ensures Counted(After(InMemory, j, s), after)
  {
    var (k, r) := PythonPrepare(j, s.id, s.target, s.kind, s.payload, s.key);
    forall key ensures after(key) == if AlreadyAttempted(k, key) then 1 else 0 {
      assert before(key) == if AlreadyAttempted(j, key) then 1 else 0;
    }
  }

  lemma CountedAppend(j: Journal, s: Step, before: string -> nat, after: string -> nat)
    requires s.Appending? && Counted(j, before) && CountGrows(j, s, before, after)
    ensures Counted(After(InMemory, j, s), after)
  {
    var k := Append(InMemory, j, s.id, s.call).0;
    forall key ensures after(key) == if AlreadyAttempted(k, key) then 1 else 0 {
      assert before(key) == if AlreadyAttempted(j, key) then 1 else 0;
    }
  }

  lemma {:induction false} CarefulCounts(steps: seq<Step>)
    requires AllCareful(steps)
    ensures Counted(Run(InMemory, steps), key => Attempts(steps, key))
  {
    if steps != [] {
      var before := Front(steps);
      forall n {:trigger before[n]} | 0 <= n < |before| ensures Careful(Run(InMemory, before[..n]), before[n]) {
        assert before[..n] == steps[..n] && before[n] == steps[n];
      }
      CarefulCounts(before);
      assert steps[..|before|] == before && steps[|before|] == Last(steps);
      var j, s := Run(InMemory, before), Last(steps);
      if s.Preparing? {
        CountedPrepare(j, s, key => Attempts(before, key), key => Attempts(steps, key));
      } else {
        CountedAppend(j, s, key => Attempts(before, key), key => Attempts(steps, key));
      }
    }
  }

  lemma AttemptsExtend(steps: seq<Step>, s: Step, key: string)
    ensures Attempts(steps + [s], key) == Attempts(steps, key) + AttemptsAt(Run(InMemory, steps), s, key)
    ensures Run(InMemory, steps + [s]) == After(InMemory, Run(InMemory, steps), s)
  {
    assert Front(steps + [s]) == steps;
  }

  /** While ids are drawn with care, every key is attempted at most once: once exactly when its operation has events. */
  lemma AttemptedAtMostOnce(steps: seq<Step>, key: string)
    requires AllCareful(steps)
    ensures Attempts(steps, key) == if AlreadyAttempted(Run(InMemory, steps), key) then 1 else 0
  {
    CarefulCounts(steps);
    ghost var count := (k: string) => Attempts(steps, k);
    assert count(key) == Attempts(steps, key);
  }

  /** Ids that are new are drawn with care. */
  lemma FreshIsCareful(steps: seq<Step>)
    requires forall n | 0 <= n < |steps| :: FreshId(InMemory, Run(InMemory, steps[..n]), steps[n])
    ensures AllCareful(steps)
  {
  }

  /** A careless prepare after a careful run: the overwritten operation's key can now be attempted a second time. */
  lemma CarelessAttemptsTwice(steps: seq<Step>, s: Step)
    requires AllCareful(steps) && !Careful(Run(InMemory, steps), s)
    ensures
      var key := Run(InMemory, steps).records[s.id].intent.key;
      Attempts(steps + [s] + [Appending(s.id, Attempt(None))], key) == 2
  {
    var j, key := Run(InMemory, steps), Run(InMemory, steps).records[s.id].intent.key;
    CarefulCounts(steps);
    AttemptedAtMostOnce(steps, key);
    AttemptsExtend(steps, s, key);
    AttemptsExtend(steps + [s], Appending(s.id, Attempt(None)), key);
    assert j.byKey[key] == s.id && key != s.key;
  }

  lemma FirstCareless(steps: seq<Step>) returns (n: nat)
    requires !AllCareful(steps)
    ensures n < |steps| && AllCareful(steps[..n]) && !Careful(Run(InMemory, steps[..n]), steps[n])
  {
    n :| 0 <= n < |steps| && !Careful(Run(InMemory, steps[..n]), steps[n]);
    if !AllCareful(steps[..n]) {
      var m := FirstCareless(steps[..n]);
      assert steps[..n][..m] == steps[..m] && steps[..n][m] == steps[m];
      n := m;
    }
  }

  lemma PrefixCareful(steps: seq<Step>, n: nat)
    requires AllCareful(steps) && n <= |steps|
    ensures AllCareful(steps[..n])
  {
    forall m {:trigger steps[..n][m]} | 0 <= m < n ensures Careful(Run(InMemory, steps[..n][..m]), steps[..n][m]) {
      assert steps[..n][..m] == steps[..m] && steps[..n][m] == steps[m];
    }
  }

  lemma AttemptCareful(steps: seq<Step>, s: Step)
    requires AllCareful(steps) && s.Appending?
    ensures AllCareful(steps + [s])
  {
    var after := steps + [s];
    forall n {:trigger after[n]} | 0 <= n < |after| ensures Careful(Run(InMemory, after[..n]), after[n]) {
      if n < |steps| { assert after[..n] == steps[..n] && after[n] == steps[n]; }
    }
  }

  lemma CarefulOnce(steps: seq<Step>, n: nat, id: string, key: string)
    requires AllCareful(steps) && n <= |steps|
    ensures Attempts(steps[..n] + [Appending(id, Attempt(None))], key) <= 1
  {
    PrefixCareful(steps, n);
    AttemptCareful(steps[..n], Appending(id, Attempt(None)));
    AttemptedAtMostOnce(steps[..n] + [Appending(id, Attempt(None))], key);
  }

  lemma CarelessTwice(steps: seq<Step>)
    requires !AllCareful(steps)
    ensures !NeverTwice(steps)
  {
    var n := FirstCareless(steps);
    CarelessAttemptsTwice(steps[..n], steps[n]);
    assert steps[..n] + [steps[n]] == steps[..n + 1];
    var key := Run(InMemory, steps[..n]).records[steps[n].id].intent.key;
    assert Attempts(steps[..n + 1] + [Appending(steps[n].id, Attempt(None))], key) == 2;
  }

  /**
   Over every run: no key can ever be attempted twice exactly when no prepare draws the id of an operation with
   events.
   */
  lemma AttemptedOncePerKeyExactly(steps: seq<Step>)
    ensures NeverTwice(steps) <==> AllCareful(steps)
  {
    if AllCareful(steps) {
      forall n, id, key | 0 <= n <= |steps| ensures Attempts(steps[..n] + [Appending(id, Attempt(None))], key) <= 1 {
        CarefulOnce(steps, n, id, key);
      }
    } else {
      CarelessTwice(steps);
    }
  }

  /** A repeated id lets one idempotency key be attempted twice in memory. */
  lemma RepeatedIdAttemptsTwice()
    ensures
      var effect := Dict(map[]);
      var first := Preparing("id", "target", "kind", effect, "key");
      var other := Preparing("id", "target", "kind", effect, "other");
      var attempt := Appending("id", Attempt(None));
      var j := Run(InMemory, [first, attempt, other]);
      && Prepare(InMemory, j, "new", "target", "kind", effect, "key").1.Ok?
      && Prepare(InMemory, j, "new", "target", "kind", effect, "key").1.value.intent.id == "id"
      && Append(InMemory, Run(InMemory, [first]), "id", Attempt(None)).1.Ok?
      && Append(InMemory, j, "id", Attempt(None)).1.Ok?
  {
    var effect := Dict(map[]);
    var first := Preparing("id", "target", "kind", effect, "key");
    var other := Preparing("id", "target", "kind", effect, "other");
    var attempt := Appending("id", Attempt(None));
    var digest := EffectDigest("target", "kind", effect);
    var i1 := Intent("id", "key", "target", "kind", Freeze(effect), digest);
    var i2 := Intent("id", "other", "target", "kind", Freeze(effect), digest);
    assert Front([first]) == [] && Front([first, attempt]) == [first]
      && Front([first, attempt, other]) == [first, attempt];
    var j1 := Run(InMemory, [first]);
    assert j1 == Insert(EMPTY, i1) by { assert Run(InMemory, []) == EMPTY; }
    var j2 := Run(InMemory, [first, attempt]);
    assert j2.byKey == map["key" := "id"];
    assert "other" !in j2.byKey by { assert "other"[0] != "key"[0]; }
    var j3 := Run(InMemory, [first, attempt, other]);
    assert j3 == Insert(j2, i2);
    assert j3.byKey["key"] == "id" by { assert "other"[0] != "key"[0]; }
  }
}
