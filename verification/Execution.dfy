/**
 The governed effect protocol (execution.py) over the durable journal, the file adapter, the outcome
 table (0006) and the lifecycle tables. Each journal call, each atomic file write and each outcome
 insert is one step; a process can die between any two, and the handler or the readback can raise.
 */
module Execution {
  import opened Prelude
  import opened Json
  import opened Operations
  import opened Bindings
  import L = LifecycleTables
  import FS = FileStore

  /** One row of outcome_observations; every row is an ACTIVE observation. */
  datatype Outcome = Outcome(
    correction: string, revision: int, promotion: string, binding: string, scope: Digest,
    effect: Digest, evidence: string,
    failureOccurred: bool, correctionTriggered: bool, prevented: bool, regression: bool)

  /** Everything that survives a crash. */
  datatype World = World(
    journal: Journal, dirs: FS.Dirs, outcomes: map<string, Outcome>, tables: L.Tables, now: L.Time)

  /** The one registered injector. */
  datatype Adapter = Adapter(name: string, version: string)

  function Kind(a: Adapter): string { "injector:" + a.name + "@" + a.version }

  datatype OutcomeFault =
    | OutcomeNotVerified | OutcomeDigestMismatch | OutcomeSubjectMismatch
    | OutcomeEvidenceMismatch | OutcomeLineageMismatch | OutcomeCollision

  datatype Stop =
    | NoActiveBinding | BindingConflict | NonExecutableBinding | StaleBinding | UnknownHandler
    | JournalRefused(journal: Operations.Fault)
    | HandlerRaised(handler: FS.Fault) | HandlerInterrupted | ReadbackRaised
    | MalformedOperation | NotVerified | TargetNoLongerVerified | TargetChanged
    | OutcomeRefused(outcome: OutcomeFault)

  datatype Reply =
    | Raised(stop: Stop)
    | Dead
    | Finished(operation: string, state: OpState, outcome: Option<Outcome>)

  // ---- what an operation carries ----

  function SelectorValue(s: Context): Value { Dict(map k | k in s :: Str(s[k])) }

  function SelectorDigest(s: Context): Digest { DigestOf(SelectorValue(s)) }

  /** `_operation_payload`; the reference adapter is a reversible write, so there is no authority reference. */
  function OperationPayload(b: InjectionBinding, context: Context, effect: Value): Value
    requires b.Executable()
  {
    Dict(map[
      "binding_id" := Str(b.id),
      "promotion_id" := Str(b.promotionId.value),
      "correction_id" := Str(b.correctionId),
      "correction_revision" := Int(b.correctionRevision),
      "selector" := SelectorValue(b.selector),
      "selector_digest" := Str(SelectorDigest(b.selector)),
      "activation_scope" := SelectorValue(b.activationScope),
      "adapter" := Str(b.adapter.value),
      "adapter_version" := Str(b.adapterVersion.value),
      "authority_ref" := Null,
      "context" := SelectorValue(context),
      "effect_payload" := Plain(effect)])
  }

  function Field(payload: Value, name: string): Option<Value> {
    if (payload.Dict? || payload.Proxy?) && name in payload.fields then Some(payload.fields[name]) else None
  }

  function TextField(payload: Value, name: string): Option<string> {
    match Field(payload, name)
    case Some(Str(s)) => Some(s)
    case _ => None
  }

  function SelectorField(payload: Value, name: string): Option<Context> {
    match Field(payload, name)
    case Some(v) =>
      if (v.Dict? || v.Proxy?) && forall k | k in v.fields :: v.fields[k].Str?
      then Some(map k | k in v.fields :: v.fields[k].s) else None
    case None => None
  }

  /** `_binding_from_operation`, on payloads with the field types the coordinator writes. */
  function BindingFromOperation(payload: Value): Option<InjectionBinding> {
    var id, correction := TextField(payload, "binding_id"), TextField(payload, "correction_id");
    var revision := Field(payload, "correction_revision");
    var selector, scope := SelectorField(payload, "selector"), SelectorField(payload, "activation_scope");
    var promotion, adapter := TextField(payload, "promotion_id"), TextField(payload, "adapter");
    var version := TextField(payload, "adapter_version");
    if id.None? || correction.None? || revision.None? || !revision.value.Int? || selector.None? || scope.None?
       || promotion.None? || adapter.None? || version.None? then None
    else
      var b := InjectionBinding(
        id.value, correction.value, revision.value.n, selector.value, scope.value,
        0, true, promotion, adapter, version);
      if Constructible(b) then Some(b) else None
  }

  /** What the handler and the readback are given (`_invocation`). */
  function RequestOf(i: Intent): FS.Request {
    var payload := Plain(i.payload);
    var effect := Field(payload, "effect_payload");
    FS.Request(i.target, i.id, i.digest, if effect.Some? then effect.value else Dict(map[]))
  }

  // ---- outcomes (0006:22-178) ----

  /** `_build_observation`, for a readback that reports neither failure, prevention nor regression. */
  function OutcomeFor(i: Intent, b: InjectionBinding, evidence: string): Outcome
    requires b.Executable()
  {
    Outcome(b.correctionId, b.correctionRevision, b.promotionId.value, b.id, SelectorDigest(b.selector),
            i.digest, evidence, false, true, false, false)
  }

  /** The binding row, its promotion's subject and the operation name one adapter and one scope. */
  predicate Lineage(t: L.Tables, i: Intent, o: Outcome) {
    && o.binding in t.bindings
    && var row := t.bindings[o.binding];
       && row.promotion == o.promotion && row.promotion in t.promotions
       && t.promotions[row.promotion].grant.subject == L.RevisionKey(o.correction, o.revision)
       && row.selectorDigest == o.scope
       && row.adapterVersion.Some?
       && TextField(i.payload, "adapter") == Some(row.adapter)
       && TextField(i.payload, "adapter_version") == row.adapterVersion
       && i.kind == Kind(Adapter(row.adapter, row.adapterVersion.value))
  }

  /** `record_verified_outcome_observation` for an existing operation. */
  function RecordOutcome(w: World, id: string, o: Outcome): (World, Result<Outcome, OutcomeFault>)
    requires id in w.journal.records
  {
    var i, events := w.journal.records[id].intent, w.journal.records[id].events;
    if LatestState(events) != Some(Verified) then (w, Error(OutcomeNotVerified))
    else if i.digest != o.effect then (w, Error(OutcomeDigestMismatch))
    else if TextField(i.payload, "correction_id") != Some(o.correction)
         || Field(i.payload, "correction_revision") != Some(Int(o.revision))
         || TextField(i.payload, "promotion_id") != Some(o.promotion)
         || TextField(i.payload, "binding_id") != Some(o.binding)
         || TextField(i.payload, "selector_digest") != Some(o.scope)
    then (w, Error(OutcomeSubjectMismatch))
    else if Last(events).evidence != Some(o.evidence) then (w, Error(OutcomeEvidenceMismatch))
    else if !Lineage(w.tables, i, o) then (w, Error(OutcomeLineageMismatch))
    else if id in w.outcomes then
      if w.outcomes[id] != o then (w, Error(OutcomeCollision)) else (w, Ok(o))
    else (w.(outcomes := w.outcomes[id := o]), Ok(o))
  }

  // ---- the choice of binding ----

  datatype Job = Job(bindings: seq<InjectionBinding>, context: Context, target: string, effect: Value, key: string)

  /** `binding_is_current`. */
  predicate IsCurrent(t: L.Tables, now: L.Time, b: InjectionBinding) {
    && b.Executable()
    && L.Effective(t, now, b.id)
    && var row := t.bindings[b.id];
       && row.promotion == b.promotionId.value
       && t.promotions[row.promotion].grant.subject == L.RevisionKey(b.correctionId, b.correctionRevision)
       && row.selectorDigest == SelectorDigest(b.selector)
       && row.adapter == b.adapter.value
       && row.adapterVersion == b.adapterVersion
  }

  /** Everything `execute` checks before it prepares. */
  function Choose(w: World, a: Adapter, job: Job): (r: Result<InjectionBinding, Stop>)
    ensures r.Ok? ==> r.value.Executable()
  {
    match Resolve(job.bindings, job.context)
    case Error(_) => Error(BindingConflict)
    case Ok(None) => Error(NoActiveBinding)
    case Ok(Some(b)) =>
      if !b.Executable() then Error(NonExecutableBinding)
      else if !IsCurrent(w.tables, w.now, b) then Error(StaleBinding)
      else if b.adapter.value != a.name || b.adapterVersion.value != a.version then Error(UnknownHandler)
      else Ok(b)
  }

  // ---- execute ----

  /** How a run is disturbed. Steps: prepare, attempt, three file writes, the journal's verdict, the outcome. */
  datatype Trouble =
    | Smooth
    | CrashAfter(steps: nat)
    | HandlerRaises(writes: nat)
    | ReadbackRaises

  predicate Stops(t: Trouble, steps: nat) { t.CrashAfter? && t.steps <= steps }

  function Append1(w: World, id: string, call: Call): (World, Result<Event, Operations.Fault>) {
    var (j, r) := Append(Postgres, w.journal, id, call);
    (w.(journal := j), r)
  }

  /** `mark_ambiguous`, then the exception that caused it. */
  function Doubt(w: World, id: string, evidence: string, stop: Stop): (World, Reply) {
    var (v, r) := Append1(w, id, MarkAmbiguous(evidence));
    (v, Raised(if r.Ok? then stop else JournalRefused(r.error)))
  }

  /** `execute`: choose and check, prepare, attempt, dispatch. */
  function Execute(w: World, a: Adapter, job: Job, newId: string, t: Trouble): (World, Reply) {
    match Choose(w, a, job)
    case Error(stop) => (w, Raised(stop))
    case Ok(b) => if Stops(t, 0) then (w, Dead) else Begin(w, a, job, newId, b, t)
  }

  /** `execute` while governance moves on between the currentness check and the first journal call. */
  function ExecuteAcross(
    w: World, a: Adapter, job: Job, newId: string, meanwhile: seq<L.Step>, t: Trouble): (World, Reply) {
    match Choose(w, a, job)
    case Error(stop) => (w, Raised(stop))
    case Ok(b) =>
      var v := w.(tables := L.After(w.tables, meanwhile));
      if Stops(t, 0) then (v, Dead) else Begin(v, a, job, newId, b, t)
  }

  function PreparedIn(j: Journal, a: Adapter, b: InjectionBinding, job: Job, newId: string): (Journal, PrepareReply)
    requires b.Executable()
  {
    StorePrepare(j, newId, job.target, Kind(a), OperationPayload(b, job.context, job.effect), job.key)
  }

  function Begin(w: World, a: Adapter, job: Job, newId: string, b: InjectionBinding, t: Trouble): (World, Reply)
    requires b.Executable()
  {
    var (j, prepared) := PreparedIn(w.journal, a, b, job, newId);
    var v := w.(journal := j);
    if prepared.Error? then (v, Raised(JournalRefused(prepared.error)))
    else if Stops(t, 1) then (v, Dead)
    else Launch(v, a, b, prepared.value.intent, t)
  }

  function Launch(w: World, a: Adapter, b: InjectionBinding, i: Intent, t: Trouble): (World, Reply)
    requires b.Executable()
  {
    var (v, attempted) := Append1(w, i.id, Attempt(Some("binding:" + b.id)));
    if attempted.Error? then (v, Raised(JournalRefused(attempted.error)))
    else if Stops(t, 2) then (v, Dead)
    else Dispatch(v, a, b, i, t)
  }

  /** The file writes that happen before the run is disturbed. */
  function FileWrites(t: Trouble): nat {
    match t
    case CrashAfter(steps) => if steps <= 2 then 0 else if steps >= 5 then 3 else steps - 2
    case HandlerRaises(writes) => if writes >= 3 then 3 else writes
    case _ => 3
  }

  /** The handler's effect on the files, and what it raised. */
  function Handle(w: World, a: Adapter, i: Intent, writes: nat): (World, Option<FS.Fault>) {
    match FS.TargetKey(a.name, i.target)
    case None => (w, Some(FS.BadTarget))
    case Some(key) =>
      var (d, r) := FS.Executed(a.name, FS.DirAt(w.dirs, key), RequestOf(i), writes);
      (w.(dirs := FS.Placed(w.dirs, key, d)), if r.Error? then Some(r.error) else None)
  }

  function Dispatch(w: World, a: Adapter, b: InjectionBinding, i: Intent, t: Trouble): (World, Reply)
    requires b.Executable()
  {
    var (v, fault) := Handle(w, a, i, FileWrites(t));
    Settle(v, SequelOf(a, t, fault), a, b, i, t)
  }

  /** What follows the handler call. */
  datatype Sequel = Die | Doubting(evidence: string, stop: Stop) | Rethrowing(stop: Stop) | Observing

  function SequelOf(a: Adapter, t: Trouble, fault: Option<FS.Fault>): Sequel {
    if t.HandlerRaises? then Doubting("execute-exception:" + a.name + "@" + a.version, HandlerInterrupted)
    else if fault == Some(FS.Died) then Die
    else if fault.Some? then
      if Stops(t, 2) then Die
      else Doubting("execute-exception:" + a.name + "@" + a.version, HandlerRaised(fault.value))
    else if Stops(t, 5) then Die
    else if t.ReadbackRaises? then Doubting("readback-exception:" + a.name + "@" + a.version, ReadbackRaised)
    else Observing
  }

  function Settle(w: World, sequel: Sequel, a: Adapter, b: InjectionBinding, i: Intent, t: Trouble): (World, Reply)
    requires b.Executable()
  {
    match sequel
    case Die => (w, Dead)
    case Doubting(evidence, stop) => Doubt(w, i.id, evidence, stop)
    case Rethrowing(stop) => (w, Raised(stop))
    case Observing => Observe(w, a, b, i, t)
  }

  /** Read the target back and apply what it shows. */
  function Observe(w: World, a: Adapter, b: InjectionBinding, i: Intent, t: Trouble): (World, Reply)
    requires b.Executable()
  {
    match FS.TargetKey(a.name, i.target)
    case None => Unreadable(w, a, i)
    case Some(key) => ApplyReadback(w, b, i, FS.Read(FS.DirAt(w.dirs, key), key, i.target, i.digest), t)
  }

  /** The readback raised: doubted only from ATTEMPTED. */
  function Unreadable(w: World, a: Adapter, i: Intent): (World, Reply) {
    if CurrentStateOf(w, i.id) == Attempted
    then Doubt(w, i.id, "readback-exception:" + a.name + "@" + a.version, ReadbackRaised)
    else (w, Raised(ReadbackRaised))
  }

  function CurrentStateOf(w: World, id: string): OpState {
    if id in w.journal.records then CurrentState(w.journal.records[id].events) else Prepared
  }

  function ApplyReadback(w: World, b: InjectionBinding, i: Intent, r: FS.Readback, t: Trouble): (World, Reply)
    requires b.Executable()
  {
    match r.verdict
    case FoundAmbiguous =>
      if CurrentStateOf(w, i.id) == Attempted then
        var (v, marked) := Append1(w, i.id, MarkAmbiguous(r.evidence));
        (v, if marked.Error? then Raised(JournalRefused(marked.error)) else Finished(i.id, Ambiguous, None))
      else (w, Finished(i.id, CurrentStateOf(w, i.id), None))
    case FoundFailed =>
      var (v, failed) := Append1(w, i.id, Reconcile(false, r.evidence, None));
      (v, if failed.Error? then Raised(JournalRefused(failed.error)) else Finished(i.id, Failed, None))
    case FoundVerified(observed) =>
      if !Dumpable(Plain(observed)) then (w, Raised(ReadbackRaised))
      else
        var (v, verified) := Append1(w, i.id, Reconcile(true, r.evidence, Some(DigestOf(Plain(observed)))));
        if verified.Error? then (v, Raised(JournalRefused(verified.error)))
        else if Stops(t, 6) then (v, Dead)
        else Conclude(v, i, b, r.evidence)
  }

  function Conclude(w: World, i: Intent, b: InjectionBinding, evidence: string): (World, Reply)
    requires b.Executable()
  {
    if i.id !in w.journal.records then (w, Raised(JournalRefused(UnknownOperation)))
    else
      var (v, recorded) := RecordOutcome(w, i.id, OutcomeFor(i, b, evidence));
      (v, if recorded.Error? then Raised(OutcomeRefused(recorded.error))
        else Finished(i.id, Verified, Some(recorded.value)))
  }

  // ---- reconcile and recover ----

  /** The binding an operation was made for, checked as both recovery entry points check it. */
  function Rebuilt(w: World, a: Adapter, id: string): Result<InjectionBinding, Stop> {
    if id !in w.journal.records then Error(JournalRefused(UnknownOperation))
    else
      var b := BindingFromOperation(w.journal.records[id].intent.payload);
      if b.None? then Error(MalformedOperation)
      else if !b.value.Executable() then Error(NonExecutableBinding)
      else if b.value.adapter.value != a.name || b.value.adapterVersion.value != a.version then Error(UnknownHandler)
      else Ok(b.value)
  }

  /** How `reconcile` goes on once the binding is rebuilt; a raising readback is doubted only from ATTEMPTED. */
  function ReconcileSequel(w: World, a: Adapter, id: string, t: Trouble): Sequel {
    if Stops(t, 5) then Die
    else if !t.ReadbackRaises? then Observing
    else if CurrentStateOf(w, id) == Attempted
    then Doubting("readback-exception:" + a.name + "@" + a.version, ReadbackRaised)
    else Rethrowing(ReadbackRaised)
  }

  /** `ExecutionCoordinator.reconcile`; a crash can fall before the journal's verdict, or between it and the outcome. */
  function ReconcileOperation(w: World, a: Adapter, id: string, t: Trouble): (World, Reply) {
    match Rebuilt(w, a, id)
    case Error(stop) => (w, Raised(stop))
    case Ok(b) => Settle(w, ReconcileSequel(w, a, id, t), a, b, w.journal.records[id].intent, t)
  }

  /** The original verification evidence, once the target still shows what was verified. */
  function RecoverEvidence(w: World, a: Adapter, r: Operations.Record): Result<string, Stop> {
    match FS.TargetKey(a.name, r.intent.target)
    case None => Error(ReadbackRaised)
    case Some(key) =>
      var verdict := FS.Read(FS.DirAt(w.dirs, key), key, r.intent.target, r.intent.digest).verdict;
      if !verdict.FoundVerified? then Error(TargetNoLongerVerified)
      else if !Dumpable(Plain(verdict.observed)) then Error(ReadbackRaised)
      else
        var seen := VerifiedEvents(r.events);
        if seen == [] || Last(seen).evidence.None? || Last(seen).readback != Some(DigestOf(Plain(verdict.observed)))
        then Error(TargetChanged)
        else Ok(Last(seen).evidence.value)
  }

  /** `recover_outcome`. */
  function RecoverOutcome(w: World, a: Adapter, id: string): (World, Reply) {
    if id !in w.journal.records then (w, Raised(JournalRefused(UnknownOperation)))
    else if CurrentStateOf(w, id) != Verified then (w, Raised(NotVerified))
    else
      match Rebuilt(w, a, id)
      case Error(stop) => (w, Raised(stop))
      case Ok(b) =>
        match RecoverEvidence(w, a, w.journal.records[id])
        case Error(stop) => (w, Raised(stop))
        case Ok(evidence) => Conclude(w, w.journal.records[id].intent, b, evidence)
  }

  // ---- the inventories (postgres_execution.py:441-496) ----

  function Recoverable(w: World): set<string> {
    set id | id in w.journal.records && CurrentStateOf(w, id) in {Prepared, Attempted, Ambiguous}
  }

  function OutcomeGaps(w: World): set<string> {
    set id | id in w.journal.records && CurrentStateOf(w, id) == Verified && id !in w.outcomes
  }

  // ---- runs ----

  datatype Move =
    | Executes(job: Job, newId: string, meanwhile: seq<L.Step>, trouble: Trouble)
    | Reconciles(id: string, trouble: Trouble)
    | Recovers(id: string)
    | RollsBack(target: string, operation: string)
    | Governs(step: L.Op)
    | Passes(now: L.Time)

  function Rollback(w: World, a: Adapter, target: string, operation: string): World {
    match FS.TargetKey(a.name, target)
    case None => w
    case Some(key) => w.(dirs := FS.Placed(w.dirs, key, FS.RolledBack(FS.DirAt(w.dirs, key), operation).0))
  }

  function Next(w: World, a: Adapter, m: Move): World {
    match m
    case Executes(job, newId, meanwhile, t) => ExecuteAcross(w, a, job, newId, meanwhile, t).0
    case Reconciles(id, t) => ReconcileOperation(w, a, id, t).0
    case Recovers(id) => RecoverOutcome(w, a, id).0
    case RollsBack(target, operation) => Rollback(w, a, target, operation)
    case Governs(op) => w.(tables := L.Next(w.tables, L.Step(w.now, op)))
    case Passes(now) => w.(now := now)
  }

  const START := World(EMPTY, map[], map[], L.EMPTY, 0)

  function RunMoves(w: World, next: (World, Move) -> World, moves: seq<Move>): World {
    if moves == [] then w else next(RunMoves(w, next, Front(moves)), Last(moves))
  }

  function Reach(a: Adapter, moves: seq<Move>): World { RunMoves(START, (w, m) => Next(w, a, m), moves) }
}
