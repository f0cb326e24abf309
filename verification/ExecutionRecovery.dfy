/** Delivery, and recovery after any crash: when the runbook empties both inventories. */
module ExecutionRecovery {
  import opened Prelude
  import opened Strings
  import opened Json
  import opened Operations
  import opened Bindings
  import opened Execution
  import opened ExecutionInvariants
  import opened ExecutionSteps
  import opened ExecutionTheorems
  import opened ExecutionDisturbances
  import L = LifecycleTables
  import FS = FileStore
  import SD = SharedDigests

  // ---- delivery ----

  lemma BeginsSmoothly(w: World, a: Adapter, job: Job, newId: string, b: InjectionBinding)
    requires b.Executable() && PreparedIn(w.journal, a, b, job, newId).1.Ok?
    ensures
      var (j, prepared) := PreparedIn(w.journal, a, b, job, newId);
      Begin(w, a, job, newId, b, Smooth) == Launch(w.(journal := j), a, b, prepared.value.intent, Smooth)
  {
  }

  lemma ClearedDelivers(w: World, a: Adapter, job: Job, newId: string, b: InjectionBinding)
    requires Inv(w, a) && Cleared(w.tables, a, b) && FirstRun(w, a, b, job, newId)
    ensures Dumpable(Seen(PreparedIn(w.journal, a, b, job, newId).1.value.intent))
    ensures
      var i := PreparedIn(w.journal, a, b, job, newId).1.value.intent;
      var r := Begin(w, a, job, newId, b, Smooth);
      r.0.tables == w.tables && Delivered(w, r.0, a, i, b, r.1)
  {
    PreparedAs(w, a, job, newId, b);
    BeginsSmoothly(w, a, job, newId, b);
    var (j, prepared) := PreparedIn(w.journal, a, b, job, newId);
    var v, i := w.(journal := j), prepared.value.intent;
    LaunchDelivers(v, a, i.id, b);
    LaunchLocal(v, a, b, i, Smooth);
    var r := Launch(v, a, b, i, Smooth);
    DeliveredOver(w, v, r.0, a, i, b, r.1);
  }

  lemma ExecuteBegins(w: World, a: Adapter, job: Job, newId: string, b: InjectionBinding)
    requires Choose(w, a, job) == Ok(b)
    ensures b.Executable() && Execute(w, a, job, newId, Smooth) == Begin(w, a, job, newId, b, Smooth)
  {
  }

  /**
   An undisturbed execution under a current binding, of an operation that was never attempted, ends VERIFIED by
   its own event, with its outcome recorded and its three files written, whatever other operations share.
   */
  lemma FirstRunDelivered(w: World, a: Adapter, job: Job, newId: string, b: InjectionBinding)
    requires Inv(w, a) && Constructed(job.bindings) && Choose(w, a, job) == Ok(b) && FirstRun(w, a, b, job, newId)
    ensures Dumpable(Seen(PreparedIn(w.journal, a, b, job, newId).1.value.intent))
    ensures
      var i := PreparedIn(w.journal, a, b, job, newId).1.value.intent;
      var r := Execute(w, a, job, newId, Smooth);
      r.0.tables == w.tables && Delivered(w, r.0, a, i, b, r.1)
  {
    ChosenNow(w, a, job, b);
    ClearedDelivers(w, a, job, newId, b);
    ExecuteBegins(w, a, job, newId, b);
  }

  lemma AcrossBegins(w: World, a: Adapter, job: Job, newId: string, meanwhile: seq<L.Step>, b: InjectionBinding)
    requires Choose(w, a, job) == Ok(b)
    ensures
      b.Executable()
      && ExecuteAcross(w, a, job, newId, meanwhile, Smooth)
         == Begin(w.(tables := L.After(w.tables, meanwhile)), a, job, newId, b, Smooth)
  {
  }

  /**
   The currentness check is not repeated: whatever governance does between the check and the first journal
   call, revoking the binding included, the effect is delivered with its outcome all the same.
   */
  lemma LateEffectDelivered(w: World, a: Adapter, job: Job, newId: string, meanwhile: seq<L.Step>, b: InjectionBinding)
    requires Inv(w, a) && Constructed(job.bindings) && Choose(w, a, job) == Ok(b) && FirstRun(w, a, b, job, newId)
    ensures Dumpable(Seen(PreparedIn(w.journal, a, b, job, newId).1.value.intent))
    ensures
      var i := PreparedIn(w.journal, a, b, job, newId).1.value.intent;
      var r := ExecuteAcross(w, a, job, newId, meanwhile, Smooth);
      r.0.tables == L.After(w.tables, meanwhile) && Delivered(w, r.0, a, i, b, r.1)
  {
    var later := w.(tables := L.After(w.tables, meanwhile));
    AfterMonotone(w.tables, meanwhile);
    TablesMove(w, a, later.tables);
    ChosenFrom(w, a, job, b);
    ChosenCleared(w, a, job, b, later.tables);
    ClearedDelivers(later, a, job, newId, b);
    AcrossBegins(w, a, job, newId, meanwhile, b);
    var r := Begin(later, a, job, newId, b, Smooth);
    DeliveredOver(w, later, r.0, a, PreparedIn(w.journal, a, b, job, newId).1.value.intent, b, r.1);
  }

  // ---- a new effect ----

  ghost predicate AllDumpable(fields: Fields) {
    forall k {:trigger fields[k]} | k in fields :: Dumpable(fields[k])
  }

  lemma DumpableAdds(fields: Fields, k: string, v: Value)
    requires AllDumpable(fields) && Dumpable(v)
    ensures AllDumpable(fields[k := v])
  {
  }

  lemma PayloadDumpable(b: InjectionBinding, context: Context, effect: Value)
    requires b.Executable() && JsonLike(effect)
    ensures Dumpable(OperationPayload(b, context, effect))
  {
    PlainDumpable(effect);
    var f0: Fields := map["binding_id" := Str(b.id)];
    DumpableAdds(f0, "promotion_id", Str(b.promotionId.value));
    var f1 := f0["promotion_id" := Str(b.promotionId.value)];
    DumpableAdds(f1, "correction_id", Str(b.correctionId));
    var f2 := f1["correction_id" := Str(b.correctionId)];
    DumpableAdds(f2, "correction_revision", Int(b.correctionRevision));
    var f3 := f2["correction_revision" := Int(b.correctionRevision)];
    DumpableAdds(f3, "selector", SelectorValue(b.selector));
    var f4 := f3["selector" := SelectorValue(b.selector)];
    DumpableAdds(f4, "selector_digest", Str(SelectorDigest(b.selector)));
    var f5 := f4["selector_digest" := Str(SelectorDigest(b.selector))];
    DumpableAdds(f5, "activation_scope", SelectorValue(b.activationScope));
    var f6 := f5["activation_scope" := SelectorValue(b.activationScope)];
    DumpableAdds(f6, "adapter", Str(b.adapter.value));
    var f7 := f6["adapter" := Str(b.adapter.value)];
    DumpableAdds(f7, "adapter_version", Str(b.adapterVersion.value));
    var f8 := f7["adapter_version" := Str(b.adapterVersion.value)];
    DumpableAdds(f8, "authority_ref", Null);
    var f9 := f8["authority_ref" := Null];
    DumpableAdds(f9, "context", SelectorValue(context));
    var f10 := f9["context" := SelectorValue(context)];
    DumpableAdds(f10, "effect_payload", Plain(effect));
    assert AllDumpable(OperationPayload(b, context, effect).fields);
  }

  /** A new id and key, a target of the adapter's, and an effect that is a JSON mapping. */
  ghost predicate NewEffect(w: World, a: Adapter, job: Job, newId: string, b: InjectionBinding)
    requires b.Executable()
  {
    && FS.Safe(newId) && newId !in w.journal.records && job.key !in w.journal.byKey && !Blank(job.key)
    && FS.TargetKey(a.name, job.target).Some? && Plain(job.effect).Dict? && JsonLike(job.effect)
  }

  lemma KindAndTargetNotBlank(a: Adapter, target: string)
    requires FS.TargetKey(a.name, target).Some?
    ensures !Blank(Kind(a)) && !Blank(target)
  {
    NotBlank(Kind(a));
    var prefix := a.name + ":";
    assert target[..|prefix|] == prefix && target[|a.name|] == prefix[|a.name|] == ':';
  }

  lemma NewEffectPrepares(w: World, a: Adapter, job: Job, newId: string, b: InjectionBinding)
    requires Inv(w, a) && b.Executable() && NewEffect(w, a, job, newId, b)
    ensures Dumpable(OperationPayload(b, job.context, job.effect))
    ensures
      var p := OperationPayload(b, job.context, job.effect);
      var i := Intent(newId, job.key, job.target, Kind(a), Freeze(p), EffectDigest(job.target, Kind(a), p));
      PreparedIn(w.journal, a, b, job, newId) == (Insert(w.journal, i), Ok(Prep(i, false)))
  {
    var p := OperationPayload(b, job.context, job.effect);
    PayloadDumpable(b, job.context, job.effect);
    PlainPayload(b, job.context, job.effect);
    KindAndTargetNotBlank(a, job.target);
    PreparesNew(Postgres, w.journal, newId, job.target, Kind(a), p, job.key);
  }

  lemma EffectIsRequested(i: Intent, b: InjectionBinding, context: Context, effect: Value)
    requires b.Executable() && Plain(i.payload) == OperationPayload(b, context, effect)
    ensures RequestOf(i) == FS.Request(i.target, i.id, i.digest, Plain(effect))
  {
    PayloadValues(b, context, effect);
  }

  lemma NewIntentWritable(a: Adapter, i: Intent, b: InjectionBinding, context: Context, effect: Value)
    requires b.Executable() && FS.Safe(i.id) && FS.TargetKey(a.name, i.target).Some? && Plain(effect).Dict?
    requires i.digest != "" && i.payload == Freeze(OperationPayload(b, context, effect))
    ensures Writable(a, i)
  {
    PlainFreeze(OperationPayload(b, context, effect));
    PlainPayload(b, context, effect);
    PlainIdempotent(effect);
    EffectIsRequested(i, b, context, effect);
  }

  lemma NewEffectWritable(w: World, a: Adapter, job: Job, newId: string, b: InjectionBinding)
    requires Inv(w, a) && b.Executable() && NewEffect(w, a, job, newId, b)
    ensures FirstRun(w, a, b, job, newId) && PreparedIn(w.journal, a, b, job, newId).1.value.intent.id == newId
  {
    var p := OperationPayload(b, job.context, job.effect);
    NewEffectPrepares(w, a, job, newId, b);
    Sha256Exact(Text(Envelope(job.target, Kind(a), p)), "");
    var i := PreparedIn(w.journal, a, b, job, newId).1.value.intent;
    NewIntentWritable(a, i, b, job.context, job.effect);
    FirstRunOf(w, a, b, job, newId, i);
  }

  lemma FirstRunOf(w: World, a: Adapter, b: InjectionBinding, job: Job, newId: string, i: Intent)
    requires b.Executable() && Writable(a, i)
    requires PreparedIn(w.journal, a, b, job, newId) == (Insert(w.journal, i), Ok(Prep(i, false)))
    ensures FirstRun(w, a, b, job, newId)
  {
  }

  /** An undisturbed execution of a new effect under a current binding is a first run, and so delivered. */
  lemma NewEffectDelivered(w: World, a: Adapter, job: Job, newId: string, b: InjectionBinding)
    requires Inv(w, a) && Constructed(job.bindings) && Choose(w, a, job) == Ok(b) && NewEffect(w, a, job, newId, b)
    ensures FirstRun(w, a, b, job, newId)
    ensures Dumpable(Seen(PreparedIn(w.journal, a, b, job, newId).1.value.intent))
    ensures
      var i := PreparedIn(w.journal, a, b, job, newId).1.value.intent;
      var r := Execute(w, a, job, newId, Smooth);
      i.id == newId && Delivered(w, r.0, a, i, b, r.1)
  {
    NewEffectWritable(w, a, job, newId, b);
    FirstRunDelivered(w, a, job, newId, b);
  }

  /** What its outcome row then says, field by field. */
  lemma NewEffectOutcome(w: World, a: Adapter, job: Job, newId: string, b: InjectionBinding)
    requires Inv(w, a) && Constructed(job.bindings) && Choose(w, a, job) == Ok(b) && NewEffect(w, a, job, newId, b)
    ensures Dumpable(OperationPayload(b, job.context, job.effect))
    ensures
      var v := Execute(w, a, job, newId, Smooth).0;
      && newId in v.outcomes
      && var o := v.outcomes[newId];
         && o.binding == b.id && Some(o.promotion) == b.promotionId
         && o.correction == b.correctionId && o.revision == b.correctionRevision
         && o.scope == SelectorDigest(b.selector)
         && o.effect == EffectDigest(job.target, Kind(a), OperationPayload(b, job.context, job.effect))
         && o.evidence == "reference-file:" + FS.TargetKey(a.name, job.target).value + ":" + o.effect
         && o.correctionTriggered && !o.failureOccurred && !o.prevented && !o.regression
  {
    NewEffectPrepares(w, a, job, newId, b);
    NewEffectDelivered(w, a, job, newId, b);
    var i := PreparedIn(w.journal, a, b, job, newId).1.value.intent;
    var r := Execute(w, a, job, newId, Smooth);
    DeliveredMeans(w, r.0, a, i, b, r.1);
  }

  // ---- where every operation stands ----

  function One(b: bool): nat { if b then 1 else 0 }

  lemma Places(w: World, id: string)
    requires id in w.journal.records && (id in w.outcomes ==> CurrentStateOf(w, id) == Verified)
    ensures
      One(id in Recoverable(w)) + One(CurrentStateOf(w, id) == Failed)
      + One(id in w.outcomes) + One(id in OutcomeGaps(w)) == 1
  {
  }

  /**
   Every operation is in exactly one place: recoverable, FAILED, VERIFIED with its outcome, or VERIFIED with a
   gap.
   */
  lemma Partition(w: World, a: Adapter, id: string)
    requires Inv(w, a) && id in w.journal.records
    ensures
      One(id in Recoverable(w)) + One(CurrentStateOf(w, id) == Failed)
      + One(id in w.outcomes) + One(id in OutcomeGaps(w)) == 1
    ensures id in w.outcomes ==> CurrentStateOf(w, id) == Verified
  {
    if id in w.outcomes { OutcomesAreVerified(w, a, id); }
    Places(w, id);
  }

  /** The target still shows what was recorded when the operation was verified. */
  predicate StillShows(w: World, a: Adapter, r: Operations.Record) {
    && FS.TargetKey(a.name, r.intent.target).Some? && r.events != []
    && var v := ReadbackOf(w, a, r.intent).verdict;
       && v.FoundVerified? && Dumpable(Plain(v.observed))
       && Last(r.events).readback == Some(DigestOf(Plain(v.observed)))
  }

  lemma EvidenceOf(w: World, a: Adapter, r: Operations.Record)
    requires FS.TargetKey(a.name, r.intent.target).Some? && r.events != []
    requires VerifiedEvents(r.events) == [Last(r.events)]
    requires Last(r.events).evidence == Some(SeenAt(a, r.intent))
    requires
      var v := ReadbackOf(w, a, r.intent).verdict;
      v.FoundVerified? ==> Dumpable(Plain(v.observed))
    ensures
      RecoverEvidence(w, a, r) ==
        if StillShows(w, a, r) then Ok(SeenAt(a, r.intent))
        else if ReadbackOf(w, a, r.intent).verdict.FoundVerified? then Error(TargetChanged)
        else Error(TargetNoLongerVerified)
  {
  }

  lemma VerifiedMeans(w: World, a: Adapter, id: string)
    requires Inv(w, a) && id in w.journal.records && CurrentStateOf(w, id) == Verified
    ensures
      var r := w.journal.records[id];
      && r.intent.id == id && FS.TargetKey(a.name, r.intent.target).Some? && r.events != []
      && VerifiedEvents(r.events) == [Last(r.events)] && Last(r.events).evidence == Some(SeenAt(a, r.intent))
  {
    var r := w.journal.records[id];
    OwnId(w.journal, id);
    assert WellRecorded(a, w.journal, r);
    VerifiedOnce(Postgres, r.events);
  }

  /**
   recover_outcome on a VERIFIED operation records the outcome the execution would have recorded, never refused
   and never colliding, exactly when the target still shows what was recorded when it was verified; otherwise it
   changes nothing.
   */
  lemma RecoverDecides(w: World, a: Adapter, id: string)
    requires Inv(w, a) && id in w.journal.records && CurrentStateOf(w, id) == Verified
    ensures Rebuilt(w, a, id).Ok? && MadeFor(w.journal.records[id].intent, Rebuilt(w, a, id).value)
    ensures FS.TargetKey(a.name, w.journal.records[id].intent.target).Some?
    ensures
      var r := w.journal.records[id];
      var o := ExpectedOutcome(a, r.intent, Rebuilt(w, a, id).value);
      RecoverOutcome(w, a, id) ==
        if StillShows(w, a, r) then (w.(outcomes := w.outcomes[id := o]), Finished(id, Verified, Some(o)))
        else (w, Raised(if SeenIn(w, a, r.intent) == Some(Verified) then TargetChanged else TargetNoLongerVerified))
  {
    var r := w.journal.records[id];
    RebuiltMeans(w, a, id);
    VerifiedMeans(w, a, id);
    ReadShows(w, a, r.intent);
    EvidenceOf(w, a, r);
    if StillShows(w, a, r) { ConcludeRecords(w, a, id, Rebuilt(w, a, id).value); }
  }

  /**
   With a digest of its own, the target still shows what was recorded exactly while the current pointer names
   the operation.
   */
  lemma UnsharedStillShows(w: World, a: Adapter, id: string)
    requires Inv(w, a) && id in w.journal.records && CurrentStateOf(w, id) == Verified && Unshared(w.journal, id)
    ensures StillShows(w, a, w.journal.records[id]) <==> PointerNames(w, a, w.journal.records[id].intent)
  {
    var i := w.journal.records[id].intent;
    VerifiedMeans(w, a, id);
    UnsharedShows(w, a, id);
    UnsharedVerified(w, a, id);
    ReadShows(w, a, i);
  }

  /** The outcome of the rebuilt binding is the outcome of the original one. */
  lemma RecoveredIsExecuted(a: Adapter, i: Intent, b: InjectionBinding)
    requires MadeFor(i, b)
    ensures BindingFromOperation(i.payload).Some? && BindingFromOperation(i.payload).value.Executable()
    ensures ExpectedOutcome(a, i, BindingFromOperation(i.payload).value) == ExpectedOutcome(a, i, b)
  {
  }

  // ---- the runbook ----

  type Resumes = map<string, Job>

  /** What the runbook does with one operation. */
  datatype Treatment = Leave | Resume(job: Job) | Reread | Recall

  function TreatmentOf(w: World, resumes: Resumes, id: string): Treatment {
    match CurrentStateOf(w, id)
    case Prepared => if id in resumes then Resume(resumes[id]) else Leave
    case Attempted => Reread
    case Ambiguous => Reread
    case Verified => if id in w.outcomes then Leave else Recall
    case Failed => Leave
  }

  function Treat(w: World, a: Adapter, spare: string, resumes: Resumes, id: string): World {
    match TreatmentOf(w, resumes, id)
    case Leave => w
    case Resume(job) => Execute(w, a, job, spare, Smooth).0
    case Reread => ReconcileOperation(w, a, id, Smooth).0
    case Recall => RecoverOutcome(w, a, id).0
  }

  /** One treatment of each listed operation, in order. */
  function Sweep(w: World, treat: (World, string) -> World, ids: seq<string>): World {
    if ids == [] then w else treat(Sweep(w, treat, Front(ids)), Last(ids))
  }

  /** FAILED, or VERIFIED with its outcome. */
  predicate Settled(w: World, id: string) {
    CurrentStateOf(w, id) == Failed || (CurrentStateOf(w, id) == Verified && id in w.outcomes)
  }

  /** A request resolves to a current binding and finds the stored operation. */
  ghost predicate Finds(w: World, a: Adapter, spare: string, job: Job, i: Intent) {
    && Choose(w, a, job).Ok?
    && PreparedIn(w.journal, a, Choose(w, a, job).value, job, spare) == (w.journal, Ok(Prep(i, true)))
  }

  /** The original request of a PREPARED operation still does. */
  ghost predicate Resumable(w: World, a: Adapter, spare: string, resumes: Resumes, id: string)
    requires id in w.journal.records
  {
    var i := w.journal.records[id].intent;
    id in resumes && Constructed(resumes[id].bindings) && Writable(a, i) && Finds(w, a, spare, resumes[id], i)
  }

  /** No operation still to be resumed writes to this operation's target. */
  ghost predicate Unthreatened(w: World, id: string)
    requires id in w.journal.records
  {
    forall x {:trigger w.journal.records[x]} | x in w.journal.records && CurrentStateOf(w, x) == Prepared ::
      w.journal.records[x].intent.target != w.journal.records[id].intent.target
  }

  /** The jobs to resume are addressed by idempotency key to the operations they stand for. */
  ghost predicate Addressed(w: World, resumes: Resumes) {
    forall id {:trigger w.journal.records[id]} | id in w.journal.records && id in resumes ::
      Constructed(resumes[id].bindings) && resumes[id].key == w.journal.records[id].intent.key
  }

  /** Treating the operation now settles it. */
  ghost predicate Treatable(w: World, a: Adapter, id: string, resumable: bool)
    requires id in w.journal.records
  {
    var r := w.journal.records[id];
    || Settled(w, id)
    || (CurrentStateOf(w, id) == Prepared && resumable)
    || (Open(w, id) && FS.TargetKey(a.name, r.intent.target).Some? && SeenIn(w, a, r.intent).Some?)
    || (CurrentStateOf(w, id) == Verified && StillShows(w, a, r))
  }

  /**
   What the runbook needs of an operation: a PREPARED one's request still resolves; the target of an open one is
   not in doubt; a gap's target still shows what was recorded, and no resumed operation will write to it.
   */
  ghost predicate ReadyIf(w: World, a: Adapter, id: string, resumable: bool)
    requires id in w.journal.records
  {
    Treatable(w, a, id, resumable) && (CurrentStateOf(w, id) == Verified ==> Settled(w, id) || Unthreatened(w, id))
  }

  ghost predicate Ready(w: World, a: Adapter, spare: string, resumes: Resumes, id: string)
    requires id in w.journal.records
  {
    ReadyIf(w, a, id, Resumable(w, a, spare, resumes, id))
  }

  ghost predicate AllReady(w: World, a: Adapter, spare: string, resumes: Resumes) {
    forall id {:trigger w.journal.records[id]} | id in w.journal.records :: Ready(w, a, spare, resumes, id)
  }

  /** Treating one operation: its own fate, and that everything else is left alone. */
  ghost predicate Treated(w: World, v: World, a: Adapter, id: string)
    requires id in w.journal.records
  {
    var i := w.journal.records[id].intent;
    && Inv(v, a) && Settled(v, id) && Local(w, v, a, i)
    && (CurrentStateOf(w, id) != Prepared ==> v.dirs == w.dirs)
    && (CurrentStateOf(w, id) == Prepared ==> FS.TargetKey(a.name, i.target).Some? && !SD.Garbled(TargetDir(v, a, i)))
  }

  lemma TreatsOpen(w: World, a: Adapter, id: string)
    requires Inv(w, a) && id in w.journal.records && Open(w, id)
    requires FS.TargetKey(a.name, w.journal.records[id].intent.target).Some?
    requires SeenIn(w, a, w.journal.records[id].intent).Some?
    ensures Treated(w, ReconcileOperation(w, a, id, Smooth).0, a, id)
  {
    OwnId(w.journal, id);
    ReconcileDecides(w, a, id);
    ReconcileKeepsInv(w, a, id, Smooth);
  }

  lemma TreatsGap(w: World, a: Adapter, id: string)
    requires Inv(w, a) && id in w.journal.records
    requires CurrentStateOf(w, id) == Verified && StillShows(w, a, w.journal.records[id])
    ensures Treated(w, RecoverOutcome(w, a, id).0, a, id)
  {
    OwnId(w.journal, id);
    RecoverDecides(w, a, id);
    RecoverKeepsInv(w, a, id);
  }

  lemma PreparedIsEmpty(w: World, id: string)
    requires id in w.journal.records && CurrentStateOf(w, id) == Prepared
    ensures w.journal.records[id].events == []
  {
  }

  lemma ResumedRuns(w: World, a: Adapter, spare: string, resumes: Resumes, id: string)
    requires Kept(w.journal) && id in w.journal.records && Resumable(w, a, spare, resumes, id)
    requires CurrentStateOf(w, id) == Prepared
    ensures
      var job, b := resumes[id], Choose(w, a, resumes[id]).value;
      b.Executable() && FirstRun(w, a, b, job, spare) && PreparedIn(w.journal, a, b, job, spare).1.value.intent.id == id
      && PreparedIn(w.journal, a, b, job, spare).1.value.intent == w.journal.records[id].intent
  {
    OwnId(w.journal, id);
    PreparedIsEmpty(w, id);
  }

  lemma TreatsPrepared(w: World, a: Adapter, spare: string, resumes: Resumes, id: string)
    requires Inv(w, a) && id in w.journal.records
    requires CurrentStateOf(w, id) == Prepared && Resumable(w, a, spare, resumes, id)
    ensures Treated(w, Execute(w, a, resumes[id], spare, Smooth).0, a, id)
    ensures PointerNames(Execute(w, a, resumes[id], spare, Smooth).0, a, w.journal.records[id].intent)
    ensures SeenIn(Execute(w, a, resumes[id], spare, Smooth).0, a, w.journal.records[id].intent) == Some(Verified)
  {
    var job, i := resumes[id], w.journal.records[id].intent;
    var b := Choose(w, a, job).value;
    ResumedRuns(w, a, spare, resumes, id);
    FirstRunDelivered(w, a, job, spare, b);
    var r := Execute(w, a, job, spare, Smooth);
    DeliveredMeans(w, r.0, a, i, b, r.1);
    ExecuteKeepsInv(w, a, job, spare, Smooth);
    ExecuteLaunches(w, a, job, spare, Smooth, b);
    assert w.(journal := w.journal) == w;
    LaunchLocal(w, a, b, i, Smooth);
  }

  lemma TreatsSettled(w: World, a: Adapter, id: string)
    requires Inv(w, a) && id in w.journal.records && Settled(w, id)
    ensures Treated(w, w, a, id)
  {
  }

  lemma TreatmentFits(w: World, a: Adapter, resumes: Resumes, id: string, resumable: bool)
    requires id in w.journal.records && Treatable(w, a, id, resumable) && (resumable ==> id in resumes)
    ensures
      var r := w.journal.records[id];
      match TreatmentOf(w, resumes, id)
      case Leave => Settled(w, id)
      case Resume(job) => CurrentStateOf(w, id) == Prepared && resumable && job == resumes[id]
      case Reread => Open(w, id) && FS.TargetKey(a.name, r.intent.target).Some? && SeenIn(w, a, r.intent).Some?
      case Recall => CurrentStateOf(w, id) == Verified && StillShows(w, a, r)
  {
  }

  lemma TreatSettles(w: World, a: Adapter, spare: string, resumes: Resumes, id: string)
    requires Inv(w, a) && id in w.journal.records && Ready(w, a, spare, resumes, id)
    ensures Treated(w, Treat(w, a, spare, resumes, id), a, id)
  {
    TreatmentFits(w, a, resumes, id, Resumable(w, a, spare, resumes, id));
    match TreatmentOf(w, resumes, id)
    case Leave => TreatsSettled(w, a, id);
    case Resume(job) => TreatsPrepared(w, a, spare, resumes, id);
    case Reread => TreatsOpen(w, a, id);
    case Recall => TreatsGap(w, a, id);
  }

  // ---- treating one operation leaves the others ready ----

  lemma SameChoice(w: World, v: World, a: Adapter, job: Job)
    requires v.tables == w.tables && v.now == w.now
    ensures Choose(v, a, job) == Choose(w, a, job)
  {
  }

  lemma SameReply(w: World, v: World, a: Adapter, i: Intent, b: InjectionBinding, job: Job, spare: string, x: string)
    requires Local(w, v, a, i) && b.Executable() && x in w.journal.records
    requires PreparedIn(w.journal, a, b, job, spare) == (w.journal, Ok(Prep(w.journal.records[x].intent, true)))
    ensures PreparedIn(v.journal, a, b, job, spare) == (v.journal, Ok(Prep(w.journal.records[x].intent, true)))
  {
    var stored := Find(w.journal, job.key);
    assert stored.Some?;
    assert Find(v.journal, job.key).Some? && Find(v.journal, job.key).value.intent == stored.value.intent;
  }

  lemma StillFinds(w: World, v: World, a: Adapter, spare: string, job: Job, i: Intent, x: string)
    requires Local(w, v, a, i) && x in w.journal.records && Finds(w, a, spare, job, w.journal.records[x].intent)
    ensures Finds(v, a, spare, job, w.journal.records[x].intent)
  {
    SameChoice(w, v, a, job);
    SameReply(w, v, a, i, Choose(w, a, job).value, job, spare, x);
  }

  lemma StillResumable(w: World, v: World, a: Adapter, spare: string, resumes: Resumes, i: Intent, x: string)
    requires Local(w, v, a, i) && x in w.journal.records && Resumable(w, a, spare, resumes, x)
    ensures Resumable(v, a, spare, resumes, x)
  {
    StillFinds(w, v, a, spare, resumes[x], i, x);
    assert v.journal.records[x].intent == w.journal.records[x].intent;
  }

  lemma SameDirectory(w: World, v: World, a: Adapter, i: Intent, k: Intent)
    requires Local(w, v, a, i) && FS.TargetKey(a.name, k.target).Some?
    requires v.dirs == w.dirs || k.target != i.target
    ensures TargetDir(v, a, k) == TargetDir(w, a, k)
  {
    if v.dirs != w.dirs && FS.TargetKey(a.name, i.target) == FS.TargetKey(a.name, k.target) {
      KeyInjective(a.name, k.target, i.target);
    }
  }

  lemma SettledStays(w: World, v: World, a: Adapter, i: Intent, x: string)
    requires Local(w, v, a, i) && x != i.id && x in w.journal.records
    ensures v.journal.records[x] == w.journal.records[x]
    ensures CurrentStateOf(v, x) == CurrentStateOf(w, x) && (Settled(w, x) <==> Settled(v, x))
  {
  }

  /** An open operation's target does not come into doubt: a resumed execution leaves its own version file. */
  lemma OpenStaysCertain(w: World, v: World, a: Adapter, id: string, x: string)
    requires id in w.journal.records && w.journal.records[id].intent.id == id && Treated(w, v, a, id)
    requires x in w.journal.records && x != id
    requires FS.TargetKey(a.name, w.journal.records[x].intent.target).Some?
    requires SeenIn(w, a, w.journal.records[x].intent).Some?
    ensures SeenIn(v, a, w.journal.records[x].intent).Some?
  {
    var i, k := w.journal.records[id].intent, w.journal.records[x].intent;
    if v.dirs == w.dirs || k.target != i.target { SameDirectory(w, v, a, i, k); }
  }

  lemma GapStaysReady(w: World, v: World, a: Adapter, id: string, x: string)
    requires id in w.journal.records && w.journal.records[id].intent.id == id && Treated(w, v, a, id)
    requires x in w.journal.records && x != id && StillShows(w, a, w.journal.records[x]) && Unthreatened(w, x)
    ensures x in v.journal.records && v.journal.records[x] == w.journal.records[x]
    ensures StillShows(v, a, v.journal.records[x]) && Unthreatened(v, x)
  {
    SettledStays(w, v, a, w.journal.records[id].intent, x);
    StillUnthreatened(w, v, a, id, x);
    SameDirectory(w, v, a, w.journal.records[id].intent, w.journal.records[x].intent);
  }

  lemma ReadyCarries(w: World, v: World, a: Adapter, i: Intent, x: string, was: bool, still: bool)
    requires Local(w, v, a, i) && x != i.id && x in w.journal.records && x in v.journal.records
    requires ReadyIf(w, a, x, was) && (was ==> still)
    requires
      var k := w.journal.records[x].intent;
      FS.TargetKey(a.name, k.target).Some? ==> SeenIn(w, a, k).Some? ==> SeenIn(v, a, k).Some?
    requires StillShows(w, a, w.journal.records[x]) && Unthreatened(w, x) ==>
               StillShows(v, a, v.journal.records[x]) && Unthreatened(v, x)
    ensures ReadyIf(v, a, x, still)
  {
    SettledStays(w, v, a, i, x);
  }

  lemma OthersStayReadyIf(w: World, v: World, a: Adapter, id: string, x: string, was: bool, still: bool)
    requires id in w.journal.records && w.journal.records[id].intent.id == id && Treated(w, v, a, id)
    requires x in w.journal.records && x != id && ReadyIf(w, a, x, was) && (was ==> still)
    ensures x in v.journal.records && ReadyIf(v, a, x, still)
  {
    var k := w.journal.records[x].intent;
    if FS.TargetKey(a.name, k.target).Some? && SeenIn(w, a, k).Some? { OpenStaysCertain(w, v, a, id, x); }
    if StillShows(w, a, w.journal.records[x]) && Unthreatened(w, x) { GapStaysReady(w, v, a, id, x); }
    assert x in v.journal.records;
    ReadyCarries(w, v, a, w.journal.records[id].intent, x, was, still);
  }

  lemma OthersStayReady(w: World, v: World, a: Adapter, spare: string, resumes: Resumes, id: string, x: string)
    requires id in w.journal.records && w.journal.records[id].intent.id == id && Treated(w, v, a, id)
    requires x in w.journal.records && x != id && Ready(w, a, spare, resumes, x)
    ensures x in v.journal.records && Ready(v, a, spare, resumes, x)
  {
    var was := Resumable(w, a, spare, resumes, x);
    if was { StillResumable(w, v, a, spare, resumes, w.journal.records[id].intent, x); }
    assert x in v.journal.records;
    OthersStayReadyIf(w, v, a, id, x, was, Resumable(v, a, spare, resumes, x));
  }

  lemma StillUnthreatened(w: World, v: World, a: Adapter, id: string, x: string)
    requires id in w.journal.records && w.journal.records[id].intent.id == id && Treated(w, v, a, id)
    requires x in w.journal.records && x != id && Unthreatened(w, x)
    ensures x in v.journal.records && Unthreatened(v, x)
    ensures v.dirs == w.dirs || w.journal.records[x].intent.target != w.journal.records[id].intent.target
  {
    forall y | y in v.journal.records && CurrentStateOf(v, y) == Prepared
      ensures v.journal.records[y].intent.target != v.journal.records[x].intent.target
    {
      assert y != id;
      assert v.journal.records[y] == w.journal.records[y];
    }
  }

  /** A state the runbook can start from, and returns to after every operation. */
  ghost predicate Calm(w: World, a: Adapter, spare: string, resumes: Resumes) {
    Inv(w, a) && AllReady(w, a, spare, resumes)
  }

  lemma AllStayReady(w: World, v: World, a: Adapter, spare: string, resumes: Resumes, id: string)
    requires id in w.journal.records && w.journal.records[id].intent.id == id && Treated(w, v, a, id)
    requires AllReady(w, a, spare, resumes)
    ensures AllReady(v, a, spare, resumes)
  {
    forall x | x in v.journal.records ensures Ready(v, a, spare, resumes, x) {
      if x != id {
        assert Ready(w, a, spare, resumes, x);
        OthersStayReady(w, v, a, spare, resumes, id, x);
      }
    }
  }

  /** Treating an operation settles it, unsettles nothing, and keeps the runbook's conditions. */
  lemma TreatKeepsCalm(w: World, a: Adapter, spare: string, resumes: Resumes, id: string)
    requires Calm(w, a, spare, resumes) && id in w.journal.records
    ensures
      var v := Treat(w, a, spare, resumes, id);
      && Calm(v, a, spare, resumes) && Settled(v, id) && v.journal.records.Keys == w.journal.records.Keys
  {
    assert Ready(w, a, spare, resumes, id);
    OwnId(w.journal, id);
    TreatSettles(w, a, spare, resumes, id);
    AllStayReady(w, Treat(w, a, spare, resumes, id), a, spare, resumes, id);
  }

  lemma TreatUnsettlesNothing(w: World, a: Adapter, spare: string, resumes: Resumes, id: string, x: string)
    requires Calm(w, a, spare, resumes) && id in w.journal.records && x in w.journal.records && Settled(w, x)
    ensures Settled(Treat(w, a, spare, resumes, id), x)
  {
    assert Ready(w, a, spare, resumes, id);
    OwnId(w.journal, id);
    TreatSettles(w, a, spare, resumes, id);
    if x != id { SettledStays(w, Treat(w, a, spare, resumes, id), a, w.journal.records[id].intent, x); }
  }

  /** A treatment that settles what it treats, unsettles nothing and keeps the runbook's conditions. */
  ghost predicate Heals(treat: (World, string) -> World, calm: World -> bool) {
    && (forall w, id {:trigger treat(w, id)} | calm(w) && id in w.journal.records ::
          calm(treat(w, id)) && Settled(treat(w, id), id)
            && treat(w, id).journal.records.Keys == w.journal.records.Keys)
    && (forall w, id, x {:trigger Settled(treat(w, id), x)}
         | calm(w) && id in w.journal.records && x in w.journal.records && Settled(w, x) ::
          Settled(treat(w, id), x))
  }

  lemma {:induction false} SweepKeepsCalm(
    w: World, treat: (World, string) -> World, calm: World -> bool, ids: seq<string>)
    requires Heals(treat, calm) && calm(w) && forall id | id in ids :: id in w.journal.records
    ensures calm(Sweep(w, treat, ids)) && Sweep(w, treat, ids).journal.records.Keys == w.journal.records.Keys
  {
    if ids != [] {
      SweepKeepsCalm(w, treat, calm, Front(ids));
      assert Last(ids) in ids;
    }
  }

  lemma {:induction false} SweepSettles(
    w: World, treat: (World, string) -> World, calm: World -> bool, ids: seq<string>, id: string)
    requires Heals(treat, calm) && calm(w) && (forall x | x in ids :: x in w.journal.records) && id in ids
    ensures Settled(Sweep(w, treat, ids), id)
  {
    SweepKeepsCalm(w, treat, calm, Front(ids));
    assert Last(ids) in ids;
    if id != Last(ids) {
      assert ids == Front(ids) + [Last(ids)];
      SweepSettles(w, treat, calm, Front(ids), id);
    }
  }

  ghost predicate Lists(ids: seq<string>, w: World) { forall id :: id in ids <==> id in w.journal.records }

  predicate BothEmpty(w: World) { Recoverable(w) == {} && OutcomeGaps(w) == {} }

  lemma SweepEmpties(w: World, treat: (World, string) -> World, calm: World -> bool, ids: seq<string>)
    requires Heals(treat, calm) && calm(w) && Lists(ids, w)
    ensures BothEmpty(Sweep(w, treat, ids))
  {
    SweepKeepsCalm(w, treat, calm, ids);
    var v := Sweep(w, treat, ids);
    forall id | id in v.journal.records ensures Settled(v, id) { SweepSettles(w, treat, calm, ids, id); }
  }

  lemma RunbookKeepsCalm(
    a: Adapter, spare: string, resumes: Resumes, treat: (World, string) -> World, calm: World -> bool)
    requires forall w, id {:trigger treat(w, id)} :: treat(w, id) == Treat(w, a, spare, resumes, id)
    requires forall w {:trigger calm(w)} :: calm(w) == Calm(w, a, spare, resumes)
    ensures forall w, id {:trigger treat(w, id)} | calm(w) && id in w.journal.records ::
      calm(treat(w, id)) && Settled(treat(w, id), id) && treat(w, id).journal.records.Keys == w.journal.records.Keys
  {
    forall w, id | calm(w) && id in w.journal.records
      ensures calm(treat(w, id)) && Settled(treat(w, id), id)
      ensures treat(w, id).journal.records.Keys == w.journal.records.Keys
    {
      TreatKeepsCalm(w, a, spare, resumes, id);
    }
  }

  lemma RunbookUnsettlesNothing(
    a: Adapter, spare: string, resumes: Resumes, treat: (World, string) -> World, calm: World -> bool)
    requires forall w, id {:trigger treat(w, id)} :: treat(w, id) == Treat(w, a, spare, resumes, id)
    requires forall w {:trigger calm(w)} :: calm(w) == Calm(w, a, spare, resumes)
    ensures forall w, id, x {:trigger Settled(treat(w, id), x)}
      | calm(w) && id in w.journal.records && x in w.journal.records && Settled(w, x) :: Settled(treat(w, id), x)
  {
    forall w, id, x | calm(w) && id in w.journal.records && x in w.journal.records && Settled(w, x)
      ensures Settled(treat(w, id), x)
    {
      TreatUnsettlesNothing(w, a, spare, resumes, id, x);
    }
  }

  function Runbook(w: World, a: Adapter, spare: string, resumes: Resumes, ids: seq<string>): World {
    Sweep(w, (v, id) => Treat(v, a, spare, resumes, id), ids)
  }

  /** Recovery converges: from a calm state, treating every operation, in any order, empties both inventories. */
  lemma RecoveryConverges(w: World, a: Adapter, spare: string, resumes: Resumes, ids: seq<string>)
    requires Calm(w, a, spare, resumes) && Lists(ids, w)
    ensures BothEmpty(Runbook(w, a, spare, resumes, ids))
  {
    var treat := (v, id) => Treat(v, a, spare, resumes, id);
    ghost var calm := (v: World) => Calm(v, a, spare, resumes);
    RunbookKeepsCalm(a, spare, resumes, treat, calm);
    RunbookUnsettlesNothing(a, spare, resumes, treat, calm);
    SweepEmpties(w, treat, calm, ids);
  }

  // ---- and only from a calm state ----

  /** A job addressed to a stored operation finds it or is refused; it never inserts another. */
  lemma AddressedPrepares(w: World, a: Adapter, b: InjectionBinding, job: Job, spare: string, id: string)
    requires Kept(w.journal) && id in w.journal.records && job.key == w.journal.records[id].intent.key && b.Executable()
    ensures
      var (j, r) := PreparedIn(w.journal, a, b, job, spare);
      j == w.journal && (r.Ok? ==> r == Ok(Prep(w.journal.records[id].intent, true)))
  {
    assert GoodRecord(w.journal, id);
  }

  lemma ResumeSplits(w: World, a: Adapter, job: Job, spare: string, id: string)
    requires Kept(w.journal) && id in w.journal.records && job.key == w.journal.records[id].intent.key
    ensures
      var i, v := w.journal.records[id].intent, Execute(w, a, job, spare, Smooth).0;
      if Finds(w, a, spare, job, i) then v == Launch(w, a, Choose(w, a, job).value, i, Smooth).0 else v == w
  {
    var choice := Choose(w, a, job);
    if choice.Ok? {
      AddressedPrepares(w, a, choice.value, job, spare, id);
      ExecuteBegins(w, a, job, spare, choice.value);
      assert w.(journal := w.journal) == w;
    }
  }

  /** A request the handler refuses leaves the operation in doubt. */
  lemma UnwritableDoubted(w: World, a: Adapter, b: InjectionBinding, id: string)
    requires id in w.journal.records && w.journal.records[id].intent.id == id && w.journal.records[id].events == []
    requires b.Executable() && !Writable(a, w.journal.records[id].intent)
    ensures CurrentStateOf(Launch(w, a, b, w.journal.records[id].intent, Smooth).0, id) == Ambiguous
  {
    var i, note := w.journal.records[id].intent, Some("binding:" + b.id);
    AttemptSucceeds(w, id, note);
    LaunchStops(w, a, b, i, Smooth);
    RefusedDoubts(Append1(w, id, Attempt(note)).0, a, b, i);
  }

  lemma RefusedDoubts(w: World, a: Adapter, b: InjectionBinding, i: Intent)
    requires i.id in w.journal.records && CurrentStateOf(w, i.id) == Attempted && b.Executable() && !Writable(a, i)
    ensures CurrentStateOf(Dispatch(w, a, b, i, Smooth).0, i.id) == Ambiguous
  {
    var (v, fault) := Handle(w, a, i, 3);
    var evidence := "execute-exception:" + a.name + "@" + a.version;
    NotBlank(evidence);
    assert fault.Some? && fault.value != FS.Died && v.journal == w.journal;
    DoubtMarks(v, i.id, evidence, HandlerRaised(fault.value));
  }

  lemma DoubtMarks(w: World, id: string, evidence: string, stop: Stop)
    requires id in w.journal.records && CurrentStateOf(w, id) == Attempted && !Blank(evidence)
    ensures CurrentStateOf(Doubt(w, id, evidence, stop).0, id) == Ambiguous
  {
    assert w.journal.records[id].events != [];
  }

  lemma UntreatableFits(w: World, a: Adapter, resumes: Resumes, id: string, resumable: bool)
    requires id in w.journal.records && !Treatable(w, a, id, resumable)
    ensures !Settled(w, id)
    ensures
      var r := w.journal.records[id];
      match TreatmentOf(w, resumes, id)
      case Leave => true
      case Resume(job) => CurrentStateOf(w, id) == Prepared && !resumable && id in resumes && job == resumes[id]
      case Reread => Open(w, id) && !(FS.TargetKey(a.name, r.intent.target).Some? && SeenIn(w, a, r.intent).Some?)
      case Recall => CurrentStateOf(w, id) == Verified && !StillShows(w, a, r)
  {
  }

  lemma OpenUnsettled(w: World, id: string)
    ensures Open(w, id) || CurrentStateOf(w, id) == Prepared ==> !Settled(w, id)
  {
  }

  lemma DoubtfulStays(w: World, a: Adapter, id: string)
    requires Inv(w, a) && id in w.journal.records && Open(w, id)
    requires
      var i := w.journal.records[id].intent;
      !(FS.TargetKey(a.name, i.target).Some? && SeenIn(w, a, i).Some?)
    ensures !Settled(ReconcileOperation(w, a, id, Smooth).0, id)
  {
    ReconcileDecides(w, a, id);
    OpenUnsettled(ReconcileOperation(w, a, id, Smooth).0, id);
  }

  lemma LostGapStays(w: World, a: Adapter, id: string)
    requires Inv(w, a) && id in w.journal.records && CurrentStateOf(w, id) == Verified
    requires !StillShows(w, a, w.journal.records[id])
    ensures RecoverOutcome(w, a, id).0 == w
  {
    RecoverDecides(w, a, id);
  }

  /** An operation that is not treatable is still unsettled after its treatment. */
  lemma UntreatableStays(w: World, a: Adapter, spare: string, resumes: Resumes, id: string)
    requires Inv(w, a) && Addressed(w, resumes) && id in w.journal.records
    requires !Treatable(w, a, id, Resumable(w, a, spare, resumes, id))
    ensures !Settled(Treat(w, a, spare, resumes, id), id)
  {
    UntreatableFits(w, a, resumes, id, Resumable(w, a, spare, resumes, id));
    match TreatmentOf(w, resumes, id)
    case Leave =>
    case Resume(job) => UnresumableStays(w, a, spare, resumes, id);
    case Reread => DoubtfulStays(w, a, id);
    case Recall => LostGapStays(w, a, id);
  }

  lemma AddressedJob(w: World, resumes: Resumes, id: string)
    requires Addressed(w, resumes) && id in w.journal.records && id in resumes
    ensures Constructed(resumes[id].bindings) && resumes[id].key == w.journal.records[id].intent.key
  {
  }

  lemma UnresumableStays(w: World, a: Adapter, spare: string, resumes: Resumes, id: string)
    requires Inv(w, a) && Addressed(w, resumes) && id in w.journal.records && id in resumes
    requires CurrentStateOf(w, id) == Prepared && !Resumable(w, a, spare, resumes, id)
    ensures !Settled(Execute(w, a, resumes[id], spare, Smooth).0, id)
  {
    var job, i := resumes[id], w.journal.records[id].intent;
    var v := Execute(w, a, job, spare, Smooth).0;
    OwnId(w.journal, id);
    AddressedJob(w, resumes, id);
    PreparedIsEmpty(w, id);
    ResumeSplits(w, a, job, spare, id);
    if Finds(w, a, spare, job, i) {
      assert !Writable(a, i);
      UnwritableDoubted(w, a, Choose(w, a, job).value, id);
    }
    OpenUnsettled(v, id);
  }

  /** Whatever it does to the operation, a treatment leaves the others alone. */
  ghost predicate Touches(w: World, v: World, a: Adapter, id: string)
    requires id in w.journal.records
  {
    Inv(v, a) && Local(w, v, a, w.journal.records[id].intent)
  }

  lemma TreatTouches(w: World, a: Adapter, spare: string, resumes: Resumes, id: string)
    requires Inv(w, a) && Addressed(w, resumes) && id in w.journal.records
    ensures Touches(w, Treat(w, a, spare, resumes, id), a, id)
  {
    TreatmentOnly(w, resumes, id);
    match TreatmentOf(w, resumes, id)
    case Leave => TouchesNothing(w, a, id);
    case Resume(job) => AddressedJob(w, resumes, id); ResumeTouches(w, a, job, spare, id);
    case Reread => RereadTouches(w, a, id);
    case Recall => RecallTouches(w, a, id);
  }

  lemma TreatmentOnly(w: World, resumes: Resumes, id: string)
    ensures
      match TreatmentOf(w, resumes, id)
      case Leave => true
      case Resume(job) => id in resumes && job == resumes[id]
      case Reread => Open(w, id)
      case Recall => CurrentStateOf(w, id) == Verified
  {
  }

  lemma LocalReflexive(w: World, a: Adapter, i: Intent)
    ensures Local(w, w, a, i)
  {
  }

  lemma TouchesNothing(w: World, a: Adapter, id: string)
    requires Inv(w, a) && id in w.journal.records
    ensures Touches(w, w, a, id)
  {
    LocalReflexive(w, a, w.journal.records[id].intent);
  }

  lemma RereadTouches(w: World, a: Adapter, id: string)
    requires Inv(w, a) && id in w.journal.records && Open(w, id)
    ensures Touches(w, ReconcileOperation(w, a, id, Smooth).0, a, id)
  {
    ReconcileKeepsInv(w, a, id, Smooth);
    ReconcileDecides(w, a, id);
  }

  lemma RecallTouches(w: World, a: Adapter, id: string)
    requires Inv(w, a) && id in w.journal.records && CurrentStateOf(w, id) == Verified
    ensures Touches(w, RecoverOutcome(w, a, id).0, a, id)
  {
    RecoverKeepsInv(w, a, id);
    OwnId(w.journal, id);
    RecoverDecides(w, a, id);
    OutcomeLocal(w, RecoverOutcome(w, a, id).0, a, w.journal.records[id].intent);
  }

  lemma OutcomeLocal(w: World, v: World, a: Adapter, i: Intent)
    requires v == w.(outcomes := v.outcomes) && forall x | x != i.id :: x in v.outcomes <==> x in w.outcomes
    ensures Local(w, v, a, i)
  {
  }

  lemma ResumeLocal(w: World, a: Adapter, job: Job, spare: string, id: string)
    requires Kept(w.journal) && id in w.journal.records && job.key == w.journal.records[id].intent.key
    ensures Local(w, Execute(w, a, job, spare, Smooth).0, a, w.journal.records[id].intent)
  {
    var i := w.journal.records[id].intent;
    ResumeSplits(w, a, job, spare, id);
    if Finds(w, a, spare, job, i) {
      LaunchLocal(w, a, Choose(w, a, job).value, i, Smooth);
    } else {
      LocalReflexive(w, a, i);
    }
  }

  lemma ResumeTouches(w: World, a: Adapter, job: Job, spare: string, id: string)
    requires Inv(w, a) && id in w.journal.records && Constructed(job.bindings)
    requires job.key == w.journal.records[id].intent.key
    ensures Touches(w, Execute(w, a, job, spare, Smooth).0, a, id)
  {
    ExecuteKeepsInv(w, a, job, spare, Smooth);
    ResumeLocal(w, a, job, spare, id);
  }

  /** What the runbook keeps whether it helps or not, around one operation that it has left unsettled. */
  ghost predicate Stuck(w: World, a: Adapter, resumes: Resumes, x: string) {
    Inv(w, a) && Addressed(w, resumes) && x in w.journal.records && !Settled(w, x)
  }

  lemma TouchedStaysStuck(w: World, v: World, a: Adapter, resumes: Resumes, id: string, x: string)
    requires Stuck(w, a, resumes, x) && id in w.journal.records && id != x && Touches(w, v, a, id)
    ensures Stuck(v, a, resumes, x) && v.journal.records.Keys == w.journal.records.Keys
  {
    OwnId(w.journal, id);
    SettledStays(w, v, a, w.journal.records[id].intent, x);
  }

  lemma {:induction false} SweepStaysStuck(
    w: World, treat: (World, string) -> World, stuck: World -> bool, ids: seq<string>)
    requires stuck(w) && forall id | id in ids :: id in w.journal.records
    requires forall v, id {:trigger treat(v, id)} | stuck(v) && id in v.journal.records && id in ids ::
      stuck(treat(v, id)) && treat(v, id).journal.records.Keys == v.journal.records.Keys
    ensures stuck(Sweep(w, treat, ids)) && Sweep(w, treat, ids).journal.records.Keys == w.journal.records.Keys
  {
    if ids != [] {
      assert forall id | id in Front(ids) :: id in ids;
      SweepStaysStuck(w, treat, stuck, Front(ids));
      assert Last(ids) in ids;
    }
  }

  lemma {:induction false} SweepFrom(w: World, treat: (World, string) -> World, id: string, rest: seq<string>)
    ensures Sweep(w, treat, [id] + rest) == Sweep(treat(w, id), treat, rest)
  {
    if rest == [] {
      assert [id] + rest == [id] && Front([id]) == [] && Last([id]) == id;
    } else {
      SweepFrom(w, treat, id, Front(rest));
      assert Front([id] + rest) == [id] + Front(rest) && Last([id] + rest) == Last(rest);
    }
  }

  lemma RunbookFrom(w: World, a: Adapter, spare: string, resumes: Resumes, id: string, rest: seq<string>)
    ensures Runbook(w, a, spare, resumes, [id] + rest) ==
      Runbook(Treat(w, a, spare, resumes, id), a, spare, resumes, rest)
  {
    SweepFrom(w, (v, x) => Treat(v, a, spare, resumes, x), id, rest);
  }

  /** An operation that is stuck before the others are treated is stuck after. */
  lemma RunbookStaysStuck(w: World, a: Adapter, spare: string, resumes: Resumes, rest: seq<string>, x: string)
    requires Stuck(w, a, resumes, x) && x !in rest && forall id | id in rest :: id in w.journal.records
    ensures Stuck(Runbook(w, a, spare, resumes, rest), a, resumes, x)
  {
    var treat := (v, id) => Treat(v, a, spare, resumes, id);
    ghost var stuck := (v: World) => Stuck(v, a, resumes, x);
    forall v, id | stuck(v) && id in v.journal.records && id in rest
      ensures stuck(treat(v, id)) && treat(v, id).journal.records.Keys == v.journal.records.Keys
    {
      TreatTouches(v, a, spare, resumes, id);
      TouchedStaysStuck(v, Treat(v, a, spare, resumes, id), a, resumes, id, x);
    }
    SweepStaysStuck(w, treat, stuck, rest);
  }

  lemma StuckIsListed(w: World, a: Adapter, resumes: Resumes, x: string)
    requires Stuck(w, a, resumes, x)
    ensures !BothEmpty(w)
  {
    assert x in Recoverable(w) || x in OutcomeGaps(w);
  }

  /** Treated first, an untreatable operation stays in an inventory. */
  lemma FirstFails(w: World, a: Adapter, spare: string, resumes: Resumes, x: string) returns (ids: seq<string>)
    requires Inv(w, a) && Addressed(w, resumes) && x in w.journal.records
    requires !Treatable(w, a, x, Resumable(w, a, spare, resumes, x))
    ensures Lists(ids, w) && !BothEmpty(Runbook(w, a, spare, resumes, ids))
  {
    var rest := Sorted(w.journal.records.Keys - {x});
    ids := [x] + rest;
    var v := Treat(w, a, spare, resumes, x);
    UntreatableStays(w, a, spare, resumes, x);
    TreatTouches(w, a, spare, resumes, x);
    assert Stuck(v, a, resumes, x);
    RunbookStaysStuck(v, a, spare, resumes, rest, x);
    RunbookFrom(w, a, spare, resumes, x, rest);
    StuckIsListed(Runbook(v, a, spare, resumes, rest), a, resumes, x);
  }

  lemma SeenDiffers(i: Intent, k: Intent)
    requires Dumpable(Seen(i)) && Dumpable(Seen(k)) && i.id != k.id
    ensures DigestOf(Seen(i)) != DigestOf(Seen(k))
  {
    TextInjective(Seen(i), Seen(k));
    Sha256Exact(Text(Seen(i)), Text(Seen(k)));
    SeenNames(i);
    SeenNames(k);
  }

  lemma SeenNames(i: Intent)
    ensures Field(Plain(Seen(i)), "operation_id") == Some(Str(i.id))
  {
    PlainIdempotent(FS.Observed(FS.PointerOf(RequestOf(i)), Plain(RequestOf(i).payload)));
  }

  /** Once another, unattempted operation is executed on its target, a gap's target shows something else. */
  lemma OverwrittenGap(w: World, v: World, a: Adapter, x: string, y: string)
    requires Inv(w, a) && x in w.journal.records && CurrentStateOf(w, x) == Verified
    requires StillShows(w, a, w.journal.records[x])
    requires y in w.journal.records && w.journal.records[y].events == []
    requires w.journal.records[y].intent.target == w.journal.records[x].intent.target
    requires Inv(v, a) && x in v.journal.records && v.journal.records[x] == w.journal.records[x]
    requires y in v.journal.records && v.journal.records[y].intent == w.journal.records[y].intent
    requires PointerNames(v, a, w.journal.records[y].intent)
    ensures !StillShows(v, a, v.journal.records[x])
  {
    var i := w.journal.records[x].intent;
    OwnId(w.journal, y);
    ReadShows(w, a, i);
    ReadShows(v, a, i);
    var z := TargetDir(w, a, i).current.value.operation;
    OwnId(w.journal, z);
    if StillShows(v, a, v.journal.records[x]) {
      SeenDiffers(w.journal.records[z].intent, w.journal.records[y].intent);
    }
  }

  lemma TreatIs(w: World, a: Adapter, spare: string, resumes: Resumes, id: string)
    ensures CurrentStateOf(w, id) == Prepared && id in resumes ==>
      Treat(w, a, spare, resumes, id) == Execute(w, a, resumes[id], spare, Smooth).0
    ensures CurrentStateOf(w, id) == Verified && id !in w.outcomes ==>
      Treat(w, a, spare, resumes, id) == RecoverOutcome(w, a, id).0
  {
  }

  /** A resumed operation on its target turns a gap into one that cannot be recovered. */
  lemma ResumedOver(w: World, v: World, a: Adapter, spare: string, resumes: Resumes, x: string, y: string)
    requires Inv(w, a) && Addressed(w, resumes) && x in w.journal.records && CurrentStateOf(w, x) == Verified
    requires !Settled(w, x) && StillShows(w, a, w.journal.records[x])
    requires y in w.journal.records && CurrentStateOf(w, y) == Prepared && Resumable(w, a, spare, resumes, y)
    requires w.journal.records[y].intent.target == w.journal.records[x].intent.target
    requires v == Execute(w, a, resumes[y], spare, Smooth).0
    ensures Stuck(v, a, resumes, x) && v.journal.records.Keys == w.journal.records.Keys
    ensures CurrentStateOf(v, x) == Verified && x !in v.outcomes && !StillShows(v, a, v.journal.records[x])
  {
    OwnId(w.journal, y);
    PreparedIsEmpty(w, y);
    AddressedJob(w, resumes, y);
    ResumeTouches(w, a, resumes[y], spare, y);
    TreatsPrepared(w, a, spare, resumes, y);
    TouchedStaysStuck(w, v, a, resumes, y, x);
    SettledStays(w, v, a, w.journal.records[y].intent, x);
    OverwrittenGap(w, v, a, x, y);
  }

  lemma ThreatTreated(w: World, a: Adapter, spare: string, resumes: Resumes, x: string, y: string)
    requires Inv(w, a) && Addressed(w, resumes) && x in w.journal.records && CurrentStateOf(w, x) == Verified
    requires !Settled(w, x) && StillShows(w, a, w.journal.records[x])
    requires y in w.journal.records && CurrentStateOf(w, y) == Prepared && Resumable(w, a, spare, resumes, y)
    requires w.journal.records[y].intent.target == w.journal.records[x].intent.target
    ensures
      var v := Treat(w, a, spare, resumes, y);
      Stuck(v, a, resumes, x) && v.journal.records.Keys == w.journal.records.Keys && Treat(v, a, spare, resumes, x) == v
  {
    var v := Execute(w, a, resumes[y], spare, Smooth).0;
    ResumedOver(w, v, a, spare, resumes, x, y);
    TreatIs(w, a, spare, resumes, y);
    LostGapStays(v, a, x);
    TreatIs(v, a, spare, resumes, x);
  }

  lemma ListsAll(w: World, x: string, y: string, rest: seq<string>)
    requires x in w.journal.records && y in w.journal.records && rest == Sorted(w.journal.records.Keys - {x, y})
    ensures Lists([y] + ([x] + rest), w)
  {
    forall id ensures id in [y] + ([x] + rest) <==> id in w.journal.records {
      assert id in [y] + ([x] + rest) <==> id == y || id == x || id in rest;
    }
  }

  /** A gap that a resumed operation overwrites first stays a gap. */
  lemma ThreatFails(
    w: World, a: Adapter, spare: string, resumes: Resumes, x: string, y: string)
    returns (ids: seq<string>)
    requires Inv(w, a) && Addressed(w, resumes) && x in w.journal.records && CurrentStateOf(w, x) == Verified
    requires !Settled(w, x) && StillShows(w, a, w.journal.records[x])
    requires y in w.journal.records && CurrentStateOf(w, y) == Prepared && Resumable(w, a, spare, resumes, y)
    requires w.journal.records[y].intent.target == w.journal.records[x].intent.target
    ensures Lists(ids, w) && !BothEmpty(Runbook(w, a, spare, resumes, ids))
  {
    var rest := Sorted(w.journal.records.Keys - {x, y});
    ids := [y] + ([x] + rest);
    var v := Treat(w, a, spare, resumes, y);
    ListsAll(w, x, y, rest);
    ThreatTreated(w, a, spare, resumes, x, y);
    RunbookStaysStuck(v, a, spare, resumes, rest, x);
    RunbookFrom(w, a, spare, resumes, y, [x] + rest);
    RunbookFrom(v, a, spare, resumes, x, rest);
    StuckIsListed(Runbook(v, a, spare, resumes, rest), a, resumes, x);
  }

  /** Treatable now, but not whatever is treated before. */
  lemma ThreatenedMeans(w: World, a: Adapter, id: string, resumable: bool) returns (y: string)
    requires id in w.journal.records && Treatable(w, a, id, resumable) && !ReadyIf(w, a, id, resumable)
    ensures CurrentStateOf(w, id) == Verified && !Settled(w, id) && StillShows(w, a, w.journal.records[id])
    ensures y in w.journal.records && CurrentStateOf(w, y) == Prepared
    ensures w.journal.records[y].intent.target == w.journal.records[id].intent.target
  {
    y :| y in w.journal.records && CurrentStateOf(w, y) == Prepared
      && w.journal.records[y].intent.target == w.journal.records[id].intent.target;
  }

  lemma PreparedUntreatable(w: World, a: Adapter, id: string, resumable: bool)
    requires id in w.journal.records && CurrentStateOf(w, id) == Prepared
    ensures Treatable(w, a, id, resumable) <==> resumable
  {
  }

  lemma NotAllReady(w: World, a: Adapter, spare: string, resumes: Resumes) returns (x: string)
    requires !AllReady(w, a, spare, resumes)
    ensures x in w.journal.records && !ReadyIf(w, a, x, Resumable(w, a, spare, resumes, x))
  {
    x :| x in w.journal.records && !Ready(w, a, spare, resumes, x);
  }

  lemma NotReadyFails(w: World, a: Adapter, spare: string, resumes: Resumes) returns (ids: seq<string>)
    requires Inv(w, a) && Addressed(w, resumes) && !AllReady(w, a, spare, resumes)
    ensures Lists(ids, w) && !BothEmpty(Runbook(w, a, spare, resumes, ids))
  {
    var x := NotAllReady(w, a, spare, resumes);
    if !Treatable(w, a, x, Resumable(w, a, spare, resumes, x)) {
      ids := FirstFails(w, a, spare, resumes, x);
    } else {
      var y := ThreatenedMeans(w, a, x, Resumable(w, a, spare, resumes, x));
      PreparedUntreatable(w, a, y, Resumable(w, a, spare, resumes, y));
      if Resumable(w, a, spare, resumes, y) {
        ids := ThreatFails(w, a, spare, resumes, x, y);
      } else {
        ids := FirstFails(w, a, spare, resumes, y);
      }
    }
  }

  /**
   In every reachable world: treating every operation empties both inventories, in whatever order, exactly when
   each PREPARED operation's request still resolves to it, no open operation's target shows its digest over
   another's version file, and each gap's target still shows what was recorded and is not about to be written.
   */
  lemma RecoveryConvergesExactly(w: World, a: Adapter, spare: string, resumes: Resumes)
    requires Inv(w, a) && Addressed(w, resumes)
    ensures (forall ids | Lists(ids, w) :: BothEmpty(Runbook(w, a, spare, resumes, ids)))
            <==> AllReady(w, a, spare, resumes)
  {
    if AllReady(w, a, spare, resumes) {
      forall ids | Lists(ids, w) ensures BothEmpty(Runbook(w, a, spare, resumes, ids)) {
        RecoveryConverges(w, a, spare, resumes, ids);
      }
    } else {
      var ids := NotReadyFails(w, a, spare, resumes);
    }
  }
}
