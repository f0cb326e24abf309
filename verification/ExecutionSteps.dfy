/** Every step of the governed effect protocol keeps the invariant, crashed and disturbed steps included. */
module ExecutionSteps {
  import opened Prelude
  import opened Json
  import opened Operations
  import opened Bindings
  import opened Execution
  import opened ExecutionInvariants
  import L = LifecycleTables
  import LT = LifecycleTheorems
  import FS = FileStore
  import SD = SharedDigests

  // ---- registries ----

  lemma KeyInjective(name: string, t1: string, t2: string)
    requires FS.TargetKey(name, t1).Some? && FS.TargetKey(name, t1) == FS.TargetKey(name, t2)
    ensures t1 == t2
  {
    var n := |name| + 1;
    assert t1 == t1[..n] + t1[n..] && t2 == t2[..n] + t2[n..];
  }

  lemma EffectDumpable(i: Intent)
    requires GoodIntent(i)
    ensures Dumpable(RequestOf(i).payload) && Dumpable(Plain(RequestOf(i).payload)) && Dumpable(Seen(i))
  {
    TextOfPlain(RequestOf(i).payload);
    TextOfPlain(Plain(RequestOf(i).payload));
    TextOfPlain(FS.Observed(FS.PointerOf(RequestOf(i)), Plain(RequestOf(i).payload)));
  }

  lemma RegistryWellFormed(j: Journal, a: Adapter, target: string)
    requires Kept(j) && FS.TargetKey(a.name, target).Some?
    ensures FS.WellFormed(a.name, RegistryOf(j, a, target), target)
  {
    var reg := RegistryOf(j, a, target);
    forall op | op in reg ensures reg[op].operation == op && Dumpable(Plain(reg[op].payload)) {
      assert GoodRecord(j, op);
      EffectDumpable(j.records[op].intent);
    }
  }

  lemma FiledGrows(d: FS.Dir, reg: FS.Registry, more: FS.Registry)
    requires SD.Filed(d, reg) && forall op | op in reg :: op in more && more[op] == reg[op]
    ensures SD.Filed(d, more)
  {
    forall op | op in d.receipts ensures FS.SoundReceipt(d, more, op) && SD.GoodPrevious(d, more, op) {
      assert FS.SoundReceipt(d, reg, op) && SD.GoodPrevious(d, reg, op);
    }
    forall g | g in d.versions ensures FS.SoundVersion(d, more, g) { assert FS.SoundVersion(d, reg, g); }
  }

  // ---- the handler's file writes ----

  lemma ActFiledOf(j: Journal, a: Adapter, target: string, d: FS.Dir, act: FS.Act)
    requires Kept(j) && FS.TargetKey(a.name, target).Some? && FiledOf(j, a, target, d)
    requires act.operation in RegistryOf(j, a, target) && j.records[act.operation].events != []
    ensures FiledOf(j, a, target, FS.Act1(a.name, d, RegistryOf(j, a, target), act).0)
  {
    var reg := RegistryOf(j, a, target);
    RegistryWellFormed(j, a, target);
    SD.ActFiled(a.name, d, reg, target, act);
    assert reg[act.operation].operation == act.operation;
    assert FS.Act1(a.name, d, reg, act).0.receipts.Keys <= d.receipts.Keys + {act.operation};
  }

  /** Changing one target's directory leaves the others as they were. */
  lemma OneDirectoryFiled(j: Journal, a: Adapter, dirs: FS.Dirs, target: string, d: FS.Dir)
    requires AllFiled(j, a, dirs) && FS.TargetKey(a.name, target).Some? && FiledOf(j, a, target, d)
    ensures AllFiled(j, a, FS.Placed(dirs, FS.TargetKey(a.name, target).value, d))
  {
    var key := FS.TargetKey(a.name, target).value;
    forall t | FS.TargetKey(a.name, t).Some?
      ensures FiledOf(j, a, t, FS.DirAt(FS.Placed(dirs, key, d), FS.TargetKey(a.name, t).value))
    {
      if FS.TargetKey(a.name, t).value == key {
        KeyInjective(a.name, target, t);
      } else {
        assert FiledOf(j, a, t, FS.DirAt(dirs, FS.TargetKey(a.name, t).value));
      }
    }
  }

  lemma HandleFiled(w: World, a: Adapter, id: string, writes: nat)
    requires Kept(w.journal) && AllFiled(w.journal, a, w.dirs)
    requires id in w.journal.records && w.journal.records[id].events != []
    ensures AllFiled(w.journal, a, Handle(w, a, w.journal.records[id].intent, writes).0.dirs)
  {
    var i := w.journal.records[id].intent;
    OwnId(w.journal, id);
    if FS.TargetKey(a.name, i.target).Some? {
      var d := FS.DirAt(w.dirs, FS.TargetKey(a.name, i.target).value);
      assert FiledOf(w.journal, a, i.target, d);
      if FS.Malformed(a.name, RequestOf(i)).None? {
        ActFiledOf(w.journal, a, i.target, d, FS.Execute(id, writes));
      }
      OneDirectoryFiled(w.journal, a, w.dirs, i.target, FS.Executed(a.name, d, RequestOf(i), writes).0);
    }
  }

  lemma RollbackFiled(w: World, a: Adapter, target: string, op: string)
    requires Kept(w.journal) && AllFiled(w.journal, a, w.dirs) && FS.TargetKey(a.name, target).Some?
    ensures
      var key := FS.TargetKey(a.name, target).value;
      AllFiled(w.journal, a, FS.Placed(w.dirs, key, FS.RolledBack(FS.DirAt(w.dirs, key), op).0))
  {
    var d := FS.DirAt(w.dirs, FS.TargetKey(a.name, target).value);
    assert FiledOf(w.journal, a, target, d);
    if op in d.receipts {
      assert FS.SoundReceipt(d, RegistryOf(w.journal, a, target), op);
      ActFiledOf(w.journal, a, target, d, FS.Rollback(op));
    }
    OneDirectoryFiled(w.journal, a, w.dirs, target, FS.RolledBack(d, op).0);
  }

  lemma HandleKeepsInv(w: World, a: Adapter, id: string, writes: nat)
    requires Inv(w, a) && id in w.journal.records && w.journal.records[id].events != []
    ensures Inv(Handle(w, a, w.journal.records[id].intent, writes).0, a)
  {
    HandleFiled(w, a, id, writes);
  }

  lemma DirsKeepInv(w: World, a: Adapter, dirs: FS.Dirs)
    requires Inv(w, a) && AllFiled(w.journal, a, dirs)
    ensures Inv(w.(dirs := dirs), a)
  {
  }

  lemma RollbackKeepsInv(w: World, a: Adapter, target: string, op: string)
    requires Inv(w, a)
    ensures Inv(Rollback(w, a, target, op), a)
  {
    if FS.TargetKey(a.name, target).Some? {
      var key := FS.TargetKey(a.name, target).value;
      RollbackFiled(w, a, target, op);
      DirsKeepInv(w, a, FS.Placed(w.dirs, key, FS.RolledBack(FS.DirAt(w.dirs, key), op).0));
    }
  }

  // ---- prepare ----

  /** The operation was made for this binding, as the rebuilt binding shows it. */
  ghost predicate MadeFor(i: Intent, b: InjectionBinding) {
    b.Executable() && BindingFromOperation(i.payload) == Some(b.(priority := 0, active := true))
  }

  lemma PreparedPayload(j: Journal, a: Adapter, b: InjectionBinding, job: Job, newId: string)
    requires Kept(j) && b.Executable() && PreparedIn(j, a, b, job, newId).1.Ok?
    ensures
      var (k, r) := PreparedIn(j, a, b, job, newId);
      var i := r.value.intent;
      && i.id in k.records && k.records[i.id].intent == i
      && i.payload == Freeze(OperationPayload(b, job.context, job.effect))
      && i.target == job.target && i.kind == Kind(a)
  {
    var payload := OperationPayload(b, job.context, job.effect);
    var (k, r) := PreparedIn(j, a, b, job, newId);
    FindsExactly(j, job.key);
    FreezePlain(payload);
    if r.value.duplicate {
      var stored := r.value.intent;
      PlainIdempotent(payload);
      FreezePlain(stored.payload);
      assert GoodKey(j, job.key) && GoodRecord(j, j.byKey[job.key]);
    }
  }

  lemma CurrentLineage(a: Adapter, t: L.Tables, now: L.Time, b: InjectionBinding, i: Intent)
    requires b.Executable() && IsCurrent(t, now, b) && Carries(i.payload, b) && Constructible(b)
    requires b.adapter == Some(a.name) && b.adapterVersion == Some(a.version) && i.kind == Kind(a)
    ensures Lineage(t, i, OutcomeFor(i, b.(priority := 0, active := true), ""))
  {
  }

  lemma ChoiceMeans(w: World, a: Adapter, job: Job, b: InjectionBinding)
    requires Choose(w, a, job) == Ok(b)
    ensures b.Executable() && IsCurrent(w.tables, w.now, b)
    ensures b.adapter == Some(a.name) && b.adapterVersion == Some(a.version)
  {
  }

  lemma CarriedGoverned(a: Adapter, t: L.Tables, now: L.Time, b: InjectionBinding, i: Intent)
    requires b.Executable() && Constructible(b) && IsCurrent(t, now, b) && Carries(i.payload, b)
    requires b.adapter == Some(a.name) && b.adapterVersion == Some(a.version) && i.kind == Kind(a)
    requires Shaped(i.payload, b.(priority := 0, active := true))
    ensures Governed(a, t, i) && MadeFor(i, b)
  {
    CarriedBinding(i.payload, b);
    CurrentLineage(a, t, now, b, i);
  }

  lemma PayloadShaped(b: InjectionBinding, context: Context, effect: Value)
    requires b.Executable()
    ensures Shaped(Freeze(OperationPayload(b, context, effect)), b.(priority := 0, active := true))
  {
    var v := OperationPayload(b, context, effect);
    PlainFreeze(v);
    PlainPayload(b, context, effect);
    PayloadValues(b, context, effect);
    FrozenSelector(v, "context", context);
    PlainIdempotent(effect);
  }

  lemma LineageKept(t: L.Tables, t': L.Tables, i: Intent, o: Outcome)
    requires LT.Monotone(t, t') && Lineage(t, i, o)
    ensures Lineage(t', i, o)
  {
    assert LT.Narrower(t.bindings[o.binding], t'.bindings[o.binding]);
  }

  lemma GovernedLater(a: Adapter, t: L.Tables, t': L.Tables, i: Intent)
    requires Governed(a, t, i) && LT.Monotone(t, t')
    ensures Governed(a, t', i)
  {
    LineageKept(t, t', i, OutcomeFor(i, BindingFromOperation(i.payload).value, ""));
  }

  /** The check passed for this binding: now, or before governance moved on. */
  ghost predicate Cleared(t: L.Tables, a: Adapter, b: InjectionBinding) {
    && Constructible(b) && b.Executable() && b.adapter == Some(a.name) && b.adapterVersion == Some(a.version)
    && exists t0, now :: IsCurrent(t0, now, b) && LT.Monotone(t0, t)
  }

  lemma MonotoneReflexive(t: L.Tables)
    ensures LT.Monotone(t, t)
  {
  }

  lemma {:induction false} AfterMonotone(t: L.Tables, run: seq<L.Step>)
    ensures LT.Monotone(t, L.After(t, run))
  {
    if run == [] {
      MonotoneReflexive(t);
    } else {
      AfterMonotone(t, Front(run));
      LT.NextMonotone(L.After(t, Front(run)), Last(run));
      LT.MonotoneTransitive(t, L.After(t, Front(run)), L.After(t, run));
    }
  }

  lemma ChosenCleared(w: World, a: Adapter, job: Job, b: InjectionBinding, t: L.Tables)
    requires Choose(w, a, job) == Ok(b) && Constructible(b) && LT.Monotone(w.tables, t)
    ensures Cleared(t, a, b)
  {
    ChoiceMeans(w, a, job, b);
  }

  lemma ClearedGoverned(w: World, a: Adapter, job: Job, newId: string, b: InjectionBinding)
    requires Kept(w.journal) && Cleared(w.tables, a, b) && PreparedIn(w.journal, a, b, job, newId).1.Ok?
    ensures
      var i := PreparedIn(w.journal, a, b, job, newId).1.value.intent;
      Governed(a, w.tables, i) && MadeFor(i, b)
  {
    PreparedPayload(w.journal, a, b, job, newId);
    PayloadCarries(b, job.context, job.effect);
    PayloadShaped(b, job.context, job.effect);
    var i := PreparedIn(w.journal, a, b, job, newId).1.value.intent;
    var t0, now :| IsCurrent(t0, now, b) && LT.Monotone(t0, w.tables);
    CarriedGoverned(a, t0, now, b, i);
    GovernedLater(a, t0, w.tables, i);
  }

  lemma InsertGrowsRegistry(j: Journal, a: Adapter, i: Intent, target: string, op: string)
    requires i.id !in j.records && op in RegistryOf(j, a, target)
    ensures op in RegistryOf(Insert(j, i), a, target)
    ensures RegistryOf(Insert(j, i), a, target)[op] == RegistryOf(j, a, target)[op]
  {
  }

  lemma InsertFiled(j: Journal, a: Adapter, dirs: FS.Dirs, i: Intent)
    requires AllFiled(j, a, dirs) && i.id !in j.records
    ensures AllFiled(Insert(j, i), a, dirs)
  {
    forall target | FS.TargetKey(a.name, target).Some?
      ensures FiledOf(Insert(j, i), a, target, FS.DirAt(dirs, FS.TargetKey(a.name, target).value))
    {
      var d := FS.DirAt(dirs, FS.TargetKey(a.name, target).value);
      assert FiledOf(j, a, target, d);
      forall op | op in RegistryOf(j, a, target)
        ensures op in RegistryOf(Insert(j, i), a, target)
             && RegistryOf(Insert(j, i), a, target)[op] == RegistryOf(j, a, target)[op]
      {
        InsertGrowsRegistry(j, a, i, target, op);
      }
      FiledGrows(d, RegistryOf(j, a, target), RegistryOf(Insert(j, i), a, target));
    }
  }

  lemma PrepareInserts(j: Journal, a: Adapter, b: InjectionBinding, job: Job, newId: string)
    requires b.Executable()
    ensures
      var (k, r) := PreparedIn(j, a, b, job, newId);
      k == if r.Ok? && !r.value.duplicate then Insert(j, r.value.intent) else j
    ensures
      var r := PreparedIn(j, a, b, job, newId).1;
      r.Ok? && !r.value.duplicate ==> r.value.intent.id !in j.records && r.value.intent.id == newId
  {
  }

  lemma InsertGoverned(a: Adapter, t: L.Tables, j: Journal, i: Intent)
    requires AllGoverned(a, t, j) && Governed(a, t, i)
    ensures AllGoverned(a, t, Insert(j, i))
  {
    forall id | id in Insert(j, i).records ensures Governed(a, t, Insert(j, i).records[id].intent) {
      if id != i.id { assert Governed(a, t, j.records[id].intent); }
    }
  }

  lemma InsertWell(a: Adapter, j: Journal, i: Intent)
    requires AllWell(a, j) && i.id !in j.records
    ensures AllWell(a, Insert(j, i))
  {
    var k := Insert(j, i);
    assert States([]) == [];
    forall id | id in k.records ensures WellRecorded(a, k, k.records[id]) {
      if id != i.id { InsertKeepsWell(a, j, i, id); }
    }
  }

  lemma InsertKeepsWell(a: Adapter, j: Journal, i: Intent, id: string)
    requires AllWell(a, j) && i.id !in j.records && id in j.records
    ensures WellRecorded(a, Insert(j, i), j.records[id])
  {
    var r := j.records[id];
    assert WellRecorded(a, j, r);
    if CurrentState(r.events) == Verified {
      var x :| ShownBy(j, r.intent, x, Last(r.events).readback.value);
      assert ShownBy(Insert(j, i), r.intent, x, Last(r.events).readback.value);
    }
  }

  lemma InsertOutcomes(a: Adapter, j: Journal, outcomes: map<string, Outcome>, i: Intent)
    requires AllOutcomesExact(a, j, outcomes) && i.id !in j.records
    ensures AllOutcomesExact(a, Insert(j, i), outcomes)
  {
  }

  lemma InsertKeepsInv(w: World, a: Adapter, i: Intent)
    requires Inv(w, a) && i.id !in w.journal.records
    requires Kept(Insert(w.journal, i)) && Governed(a, w.tables, i)
    ensures Inv(w.(journal := Insert(w.journal, i)), a)
  {
    InsertFiled(w.journal, a, w.dirs, i);
    InsertWell(a, w.journal, i);
    InsertOutcomes(a, w.journal, w.outcomes, i);
    InsertGoverned(a, w.tables, w.journal, i);
  }

  lemma ClearedPrepares(w: World, a: Adapter, job: Job, newId: string, b: InjectionBinding)
    requires Inv(w, a) && Cleared(w.tables, a, b)
    ensures Inv(w.(journal := PreparedIn(w.journal, a, b, job, newId).0), a)
  {
    var r := PreparedIn(w.journal, a, b, job, newId).1;
    PrepareInserts(w.journal, a, b, job, newId);
    if r.Ok? && !r.value.duplicate {
      PrepareKeeps(Postgres, w.journal, newId, job.target, Kind(a), OperationPayload(b, job.context, job.effect),
        job.key);
      ClearedGoverned(w, a, job, newId, b);
      InsertKeepsInv(w, a, r.value.intent);
    }
  }

  // ---- the readback ----

  function TargetDir(w: World, a: Adapter, i: Intent): FS.Dir
    requires FS.TargetKey(a.name, i.target).Some?
  {
    FS.DirAt(w.dirs, FS.TargetKey(a.name, i.target).value)
  }

  /** The handler can write this operation: its target is the adapter's and the request is well formed. */
  ghost predicate Writable(a: Adapter, i: Intent) {
    FS.TargetKey(a.name, i.target).Some? && FS.Malformed(a.name, RequestOf(i)).None?
  }

  function ReadbackOf(w: World, a: Adapter, i: Intent): FS.Readback
    requires FS.TargetKey(a.name, i.target).Some?
  {
    var key := FS.TargetKey(a.name, i.target).value;
    FS.Read(FS.DirAt(w.dirs, key), key, i.target, i.digest)
  }

  /** The target's current pointer names the operation: its swap happened and nothing replaced it. */
  predicate PointerNames(w: World, a: Adapter, i: Intent) {
    FS.TargetKey(a.name, i.target).Some?
    && var d := FS.DirAt(w.dirs, FS.TargetKey(a.name, i.target).value);
       d.current.Some? && d.current.value.operation == i.id
  }

  lemma ReadEvidence(d: FS.Dir, key: string, target: string, digest: Digest)
    ensures
      var r := FS.Read(d, key, target, digest);
      && !Blank(r.evidence)
      && (r.verdict.FoundVerified? ==> r.evidence == "reference-file:" + key + ":" + digest)
  {
    NotBlank(FS.Read(d, key, target, digest).evidence);
  }

  /** What a target shows under its own digest is some attempted operation's effect. */
  lemma ShownEffect(j: Journal, a: Adapter, i: Intent, d: FS.Dir)
    requires Kept(j) && FS.TargetKey(a.name, i.target).Some? && FiledOf(j, a, i.target, d)
    requires SD.Showing(d, i.digest) && !SD.Garbled(d)
    ensures d.current.value.versionFile in d.versions && Dumpable(Plain(SD.VersionShown(d)))
    ensures ShownBy(j, i, d.current.value.operation, DigestOf(Plain(SD.VersionShown(d))))
    ensures Plain(SD.VersionShown(d)) == Seen(j.records[d.current.value.operation].intent)
  {
    var reg, key := RegistryOf(j, a, i.target), FS.TargetKey(a.name, i.target).value;
    RegistryWellFormed(j, a, i.target);
    SD.ReadsExactly(a.name, d, reg, i.target, key, i.digest);
    var op := d.current.value.operation;
    assert GoodRecord(j, op);
    EffectDumpable(j.records[op].intent);
    assert d.current.value == FS.PointerOf(reg[op]);
  }

  /**
   A readback is FAILED when the target does not show the digest, AMBIGUOUS when it shows it over another
   operation's version file, and VERIFIED otherwise, with an attempted operation's own effect.
   */
  lemma ReadShows(w: World, a: Adapter, i: Intent)
    requires Inv(w, a) && FS.TargetKey(a.name, i.target).Some?
    ensures
      var d, r := TargetDir(w, a, i), ReadbackOf(w, a, i);
      && !Blank(r.evidence)
      && (r.verdict.FoundVerified? <==> SD.Showing(d, i.digest) && !SD.Garbled(d))
      && (r.verdict.FoundAmbiguous? <==> SD.Showing(d, i.digest) && SD.Garbled(d))
      && (r.verdict.FoundVerified? ==>
            && r.evidence == SeenAt(a, i) && Dumpable(Plain(r.verdict.observed))
            && ShownBy(w.journal, i, d.current.value.operation, DigestOf(Plain(r.verdict.observed)))
            && Plain(r.verdict.observed) == Seen(w.journal.records[d.current.value.operation].intent))
  {
    var d, key := TargetDir(w, a, i), FS.TargetKey(a.name, i.target).value;
    assert FiledOf(w.journal, a, i.target, d);
    RegistryWellFormed(w.journal, a, i.target);
    SD.ReadsExactly(a.name, d, RegistryOf(w.journal, a, i.target), i.target, key, i.digest);
    if SD.Showing(d, i.digest) && !SD.Garbled(d) { ShownEffect(w.journal, a, i, d); }
    ReadEvidence(d, key, i.target, i.digest);
  }

  // ---- outcomes ----

  /** The subject an outcome names is the one the stored payload carries, on the binding's own row. */
  lemma SubjectCarried(a: Adapter, t: L.Tables, i: Intent, b: InjectionBinding, evidence: string)
    requires Governed(a, t, i) && MadeFor(i, b)
    ensures
      var o := OutcomeFor(i, b, evidence);
      && TextField(i.payload, "correction_id") == Some(o.correction)
      && Field(i.payload, "correction_revision") == Some(Int(o.revision))
      && TextField(i.payload, "promotion_id") == Some(o.promotion)
      && TextField(i.payload, "binding_id") == Some(o.binding)
      && TextField(i.payload, "selector_digest") == Some(o.scope)
      && Lineage(t, i, o)
  {
    var b0 := BindingFromOperation(i.payload).value;
    assert Carries(i.payload, b0);
    assert Lineage(t, i, OutcomeFor(i, b0, ""));
  }

  lemma OutcomeAccepted(w: World, id: string, o: Outcome)
    requires id in w.journal.records && CurrentStateOf(w, id) == Verified
    requires
      var i := w.journal.records[id].intent;
      && i.digest == o.effect
      && TextField(i.payload, "correction_id") == Some(o.correction)
      && Field(i.payload, "correction_revision") == Some(Int(o.revision))
      && TextField(i.payload, "promotion_id") == Some(o.promotion)
      && TextField(i.payload, "binding_id") == Some(o.binding)
      && TextField(i.payload, "selector_digest") == Some(o.scope)
      && Lineage(w.tables, i, o)
    requires Last(w.journal.records[id].events).evidence == Some(o.evidence)
    requires id in w.outcomes ==> w.outcomes[id] == o
    ensures RecordOutcome(w, id, o) == (w.(outcomes := w.outcomes[id := o]), Ok(o))
  {
    if id in w.outcomes { assert w.outcomes == w.outcomes[id := o]; }
  }

  lemma OwnId(j: Journal, id: string)
    requires Kept(j) && id in j.records
    ensures j.records[id].intent.id == id
  {
    assert GoodRecord(j, id);
  }

  lemma VerifiedEvidence(w: World, a: Adapter, id: string, b: InjectionBinding)
    requires Inv(w, a) && id in w.journal.records && CurrentStateOf(w, id) == Verified
    requires MadeFor(w.journal.records[id].intent, b)
    ensures
      var r := w.journal.records[id];
      && r.events != [] && Last(r.events).evidence == Some(SeenAt(a, r.intent))
      && (id in w.outcomes ==> w.outcomes[id] == OutcomeFor(r.intent, b, SeenAt(a, r.intent)))
  {
    assert WellRecorded(a, w.journal, w.journal.records[id]);
    if id in w.outcomes { assert ExactOutcome(a, w.journal.records[id], w.outcomes[id]); }
  }

  lemma ExactAccepted(w: World, a: Adapter, id: string, b: InjectionBinding)
    requires Inv(w, a) && id in w.journal.records && CurrentStateOf(w, id) == Verified
    requires MadeFor(w.journal.records[id].intent, b)
    ensures
      var i := w.journal.records[id].intent;
      var o := OutcomeFor(i, b, SeenAt(a, i));
      RecordOutcome(w, id, o) == (w.(outcomes := w.outcomes[id := o]), Ok(o))
  {
    var i := w.journal.records[id].intent;
    assert Governed(a, w.tables, i);
    VerifiedEvidence(w, a, id, b);
    SubjectCarried(a, w.tables, i, b, SeenAt(a, i));
    OutcomeAccepted(w, id, OutcomeFor(i, b, SeenAt(a, i)));
  }

  /** The file adapter never causes a refused or colliding outcome. */
  lemma ConcludeRecords(w: World, a: Adapter, id: string, b: InjectionBinding)
    requires Inv(w, a) && id in w.journal.records && CurrentStateOf(w, id) == Verified
    requires MadeFor(w.journal.records[id].intent, b)
    ensures
      var i := w.journal.records[id].intent;
      var o := OutcomeFor(i, b, SeenAt(a, i));
      Conclude(w, i, b, SeenAt(a, i)) == (w.(outcomes := w.outcomes[id := o]), Finished(id, Verified, Some(o)))
  {
    OwnId(w.journal, id);
    ExactAccepted(w, a, id, b);
  }

  lemma RefusedChangesNothing(w: World, id: string, o: Outcome)
    requires id in w.journal.records
    ensures RecordOutcome(w, id, o).1.Error? ==> RecordOutcome(w, id, o).0 == w
    ensures RecordOutcome(w, id, o).1.Ok? ==>
              CurrentStateOf(w, id) == Verified && Last(w.journal.records[id].events).evidence == Some(o.evidence)
  {
  }

  lemma OutcomeKeepsInv(w: World, a: Adapter, id: string, o: Outcome)
    requires Inv(w, a) && id in w.journal.records && ExactOutcome(a, w.journal.records[id], o)
    ensures Inv(w.(outcomes := w.outcomes[id := o]), a)
  {
  }

  lemma ConcludeKeepsInv(w: World, a: Adapter, id: string, b: InjectionBinding, evidence: string)
    requires Inv(w, a) && id in w.journal.records && MadeFor(w.journal.records[id].intent, b)
    ensures Inv(Conclude(w, w.journal.records[id].intent, b, evidence).0, a)
  {
    var r := w.journal.records[id];
    assert GoodRecord(w.journal, id);
    RefusedChangesNothing(w, id, OutcomeFor(r.intent, b, evidence));
    if RecordOutcome(w, id, OutcomeFor(r.intent, b, evidence)).1.Ok? {
      assert WellRecorded(a, w.journal, r);
      ConcludeRecords(w, a, id, b);
      OutcomeKeepsInv(w, a, id, OutcomeFor(r.intent, b, SeenAt(a, r.intent)));
    }
  }

  // ---- journal verdicts ----

  lemma DoubtKeepsInv(w: World, a: Adapter, id: string, evidence: string, stop: Stop)
    requires Inv(w, a) && id in w.journal.records
    ensures Inv(Doubt(w, id, evidence, stop).0, a)
    ensures Extends(w.journal, Doubt(w, id, evidence, stop).0.journal)
  {
    AppendKeepsInv(w, a, id, MarkAmbiguous(evidence));
  }

  function Verdict(i: Intent, r: FS.Readback): Call {
    if r.verdict.FoundVerified? && Dumpable(Plain(r.verdict.observed))
    then Reconcile(true, r.evidence, Some(DigestOf(Plain(r.verdict.observed))))
    else Reconcile(false, r.evidence, None)
  }

  /** What the coordinator does with a readback that is not ambiguous. */
  lemma ApplySplits(w: World, b: InjectionBinding, i: Intent, r: FS.Readback, t: Trouble)
    requires b.Executable() && !r.verdict.FoundAmbiguous?
    requires r.verdict.FoundVerified? ==> Dumpable(Plain(r.verdict.observed))
    ensures
      var (v, e) := Append1(w, i.id, Verdict(i, r));
      ApplyReadback(w, b, i, r, t) ==
        if e.Error? then (v, Raised(JournalRefused(e.error)))
        else if r.verdict.FoundFailed? then (v, Finished(i.id, Failed, None))
        else if Stops(t, 6) then (v, Dead)
        else Conclude(v, i, b, r.evidence)
  {
  }

  lemma HonestVerdict(a: Adapter, j: Journal, i: Intent, r: FS.Readback, x: string)
    requires FS.TargetKey(a.name, i.target).Some? && r.verdict.FoundVerified? && Dumpable(Plain(r.verdict.observed))
    requires r.evidence == SeenAt(a, i)
    requires ShownBy(j, i, x, DigestOf(Plain(r.verdict.observed)))
    ensures Honest(a, j, i, Verdict(i, r))
  {
  }

  lemma VerdictHonest(w: World, a: Adapter, id: string)
    requires Inv(w, a) && id in w.journal.records && FS.TargetKey(a.name, w.journal.records[id].intent.target).Some?
    ensures
      var i := w.journal.records[id].intent;
      i.id == id && Honest(a, w.journal, i, Verdict(i, ReadbackOf(w, a, i)))
  {
    var i := w.journal.records[id].intent;
    ReadShows(w, a, i);
    OwnId(w.journal, id);
    if ReadbackOf(w, a, i).verdict.FoundVerified? {
      HonestVerdict(a, w.journal, i, ReadbackOf(w, a, i), TargetDir(w, a, i).current.value.operation);
    }
  }

  lemma ApplyKeepsInv(w: World, a: Adapter, id: string, b: InjectionBinding, t: Trouble)
    requires Inv(w, a) && id in w.journal.records
    requires FS.TargetKey(a.name, w.journal.records[id].intent.target).Some?
    requires MadeFor(w.journal.records[id].intent, b)
    ensures
      var i := w.journal.records[id].intent;
      var v := ApplyReadback(w, b, i, ReadbackOf(w, a, i), t).0;
      Inv(v, a) && Extends(w.journal, v.journal)
  {
    var i := w.journal.records[id].intent;
    var r := ReadbackOf(w, a, i);
    OwnId(w.journal, id);
    ReadShows(w, a, i);
    if r.verdict.FoundAmbiguous? {
      DoubtfulKeepsInv(w, a, id, b, r, t);
    } else {
      VerdictHonest(w, a, id);
      ApplySplits(w, b, i, r, t);
      AppendKeepsInv(w, a, id, Verdict(i, r));
      var v := Append1(w, id, Verdict(i, r)).0;
      assert v.journal.records[id].intent == i;
      ConcludeKeepsInv(v, a, id, b, r.evidence);
      ConcludeKeepsJournal(v, i, b, r.evidence);
    }
  }

  lemma DoubtfulSplits(w: World, b: InjectionBinding, i: Intent, r: FS.Readback, t: Trouble)
    requires b.Executable() && r.verdict.FoundAmbiguous?
    ensures
      var v := ApplyReadback(w, b, i, r, t).0;
      v == w || v == Append1(w, i.id, MarkAmbiguous(r.evidence)).0
  {
  }

  lemma DoubtfulKeepsInv(w: World, a: Adapter, id: string, b: InjectionBinding, r: FS.Readback, t: Trouble)
    requires Inv(w, a) && id in w.journal.records && w.journal.records[id].intent.id == id
    requires b.Executable() && r.verdict.FoundAmbiguous?
    ensures
      var v := ApplyReadback(w, b, w.journal.records[id].intent, r, t).0;
      Inv(v, a) && Extends(w.journal, v.journal)
  {
    DoubtfulSplits(w, b, w.journal.records[id].intent, r, t);
    AppendKeepsInv(w, a, id, MarkAmbiguous(r.evidence));
  }

  lemma ConcludeKeepsJournal(w: World, i: Intent, b: InjectionBinding, evidence: string)
    requires b.Executable()
    ensures Conclude(w, i, b, evidence).0.journal == w.journal
    ensures Conclude(w, i, b, evidence).0.dirs == w.dirs
  {
  }

  lemma UnreadableKeepsInv(w: World, a: Adapter, id: string)
    requires Inv(w, a) && id in w.journal.records
    ensures
      var v := Unreadable(w, a, w.journal.records[id].intent).0;
      Inv(v, a) && Extends(w.journal, v.journal)
  {
    OwnId(w.journal, id);
    UnreadableSplits(w, a, w.journal.records[id].intent);
    DoubtKeepsInv(w, a, id, "readback-exception:" + a.name + "@" + a.version, ReadbackRaised);
  }

  lemma UnreadableSplits(w: World, a: Adapter, i: Intent)
    ensures
      var v := Unreadable(w, a, i).0;
      v == w || v == Doubt(w, i.id, "readback-exception:" + a.name + "@" + a.version, ReadbackRaised).0
  {
  }

  lemma ObserveKeepsInv(w: World, a: Adapter, id: string, b: InjectionBinding, t: Trouble)
    requires Inv(w, a) && id in w.journal.records
    requires MadeFor(w.journal.records[id].intent, b)
    ensures
      var v := Observe(w, a, b, w.journal.records[id].intent, t).0;
      Inv(v, a) && Extends(w.journal, v.journal)
  {
    if FS.TargetKey(a.name, w.journal.records[id].intent.target).Some? {
      ApplyKeepsInv(w, a, id, b, t);
    } else {
      UnreadableKeepsInv(w, a, id);
    }
  }

  // ---- whole calls ----

  lemma HandleKeepsJournal(w: World, a: Adapter, i: Intent, writes: nat)
    ensures Handle(w, a, i, writes).0.journal == w.journal
  {
  }

  lemma SettleKeepsInv(w: World, sequel: Sequel, a: Adapter, id: string, b: InjectionBinding, t: Trouble)
    requires Inv(w, a) && id in w.journal.records
    requires MadeFor(w.journal.records[id].intent, b)
    ensures
      var v := Settle(w, sequel, a, b, w.journal.records[id].intent, t).0;
      Inv(v, a) && Extends(w.journal, v.journal)
  {
    OwnId(w.journal, id);
    if sequel.Observing? {
      ObserveKeepsInv(w, a, id, b, t);
    } else {
      QuietlySettles(w, sequel, a, id, b, t);
    }
  }

  lemma QuietlySettles(w: World, sequel: Sequel, a: Adapter, id: string, b: InjectionBinding, t: Trouble)
    requires Inv(w, a) && id in w.journal.records && w.journal.records[id].intent.id == id
    requires b.Executable() && !sequel.Observing?
    ensures
      var v := Settle(w, sequel, a, b, w.journal.records[id].intent, t).0;
      Inv(v, a) && Extends(w.journal, v.journal)
  {
    if sequel.Doubting? { DoubtKeepsInv(w, a, id, sequel.evidence, sequel.stop); }
  }

  lemma DispatchKeepsInv(w: World, a: Adapter, id: string, b: InjectionBinding, t: Trouble)
    requires Inv(w, a) && id in w.journal.records
    requires MadeFor(w.journal.records[id].intent, b)
    requires w.journal.records[id].events != []
    ensures
      var v := Dispatch(w, a, b, w.journal.records[id].intent, t).0;
      Inv(v, a) && Extends(w.journal, v.journal)
  {
    var i := w.journal.records[id].intent;
    HandleKeepsInv(w, a, id, FileWrites(t));
    HandleKeepsJournal(w, a, i, FileWrites(t));
    var (v, fault) := Handle(w, a, i, FileWrites(t));
    SettleKeepsInv(v, SequelOf(a, t, fault), a, id, b, t);
  }

  // ---- execute ----

  lemma AttemptStored(w: World, id: string, note: Option<string>)
    requires id in w.journal.records && Append1(w, id, Attempt(note)).1.Ok?
    ensures
      var v := Append1(w, id, Attempt(note)).0;
      && id in v.journal.records && v.journal.records[id].events == [Recorded(Attempt(note))]
      && v.journal.records[id].intent == w.journal.records[id].intent
  {
    assert w.journal.records[id].events == [];
  }

  lemma LaunchSplits(w: World, a: Adapter, b: InjectionBinding, i: Intent, t: Trouble)
    requires b.Executable()
    ensures
      var (v, e) := Append1(w, i.id, Attempt(Some("binding:" + b.id)));
      || Launch(w, a, b, i, t).0 == v
      || (e.Ok? && Launch(w, a, b, i, t) == Dispatch(v, a, b, i, t))
  {
  }

  lemma LaunchKeepsInv(w: World, a: Adapter, id: string, b: InjectionBinding, t: Trouble)
    requires Inv(w, a) && id in w.journal.records
    requires MadeFor(w.journal.records[id].intent, b)
    ensures
      var v := Launch(w, a, b, w.journal.records[id].intent, t).0;
      Inv(v, a)
  {
    var i, note := w.journal.records[id].intent, Some("binding:" + b.id);
    OwnId(w.journal, id);
    AppendKeepsInv(w, a, id, Attempt(note));
    var (v, e) := Append1(w, id, Attempt(note));
    LaunchSplits(w, a, b, i, t);
    if e.Ok? {
      AttemptStored(w, id, note);
      DispatchKeepsInv(v, a, id, b, t);
    }
  }

  lemma BeginSplits(w: World, a: Adapter, job: Job, newId: string, b: InjectionBinding, t: Trouble)
    requires b.Executable()
    ensures
      var (j, prepared) := PreparedIn(w.journal, a, b, job, newId);
      var v := w.(journal := j);
      || Begin(w, a, job, newId, b, t).0 == v
      || (prepared.Ok? && Begin(w, a, job, newId, b, t) == Launch(v, a, b, prepared.value.intent, t))
  {
  }

  lemma BeginKeepsInv(w: World, a: Adapter, job: Job, newId: string, b: InjectionBinding, t: Trouble)
    requires Inv(w, a) && Cleared(w.tables, a, b)
    ensures Inv(Begin(w, a, job, newId, b, t).0, a)
  {
    ClearedPrepares(w, a, job, newId, b);
    BeginSplits(w, a, job, newId, b, t);
    var (j, prepared) := PreparedIn(w.journal, a, b, job, newId);
    if prepared.Ok? {
      ClearedGoverned(w, a, job, newId, b);
      PreparedPayload(w.journal, a, b, job, newId);
      LaunchKeepsInv(w.(journal := j), a, prepared.value.intent.id, b, t);
    }
  }

  /** The bindings a caller can pass: the constructor made them. */
  predicate Constructed(bs: seq<InjectionBinding>) {
    forall b | b in bs :: Constructible(b)
  }

  lemma ChosenFrom(w: World, a: Adapter, job: Job, b: InjectionBinding)
    requires Choose(w, a, job) == Ok(b)
    ensures b in job.bindings
  {
    ResolvesTheWinner(job.bindings, job.context, b);
    assert multiset(job.bindings)[b] > 0;
  }

  lemma ExecuteKeepsInv(w: World, a: Adapter, job: Job, newId: string, t: Trouble)
    requires Inv(w, a) && Constructed(job.bindings)
    ensures Inv(Execute(w, a, job, newId, t).0, a)
  {
    var choice := Choose(w, a, job);
    if choice.Ok? && !Stops(t, 0) {
      ChosenFrom(w, a, job, choice.value);
      MonotoneReflexive(w.tables);
      ChosenCleared(w, a, job, choice.value, w.tables);
      BeginKeepsInv(w, a, job, newId, choice.value, t);
    }
  }

  lemma TablesMove(w: World, a: Adapter, t: L.Tables)
    requires Inv(w, a) && LT.Monotone(w.tables, t)
    ensures Inv(w.(tables := t), a)
  {
    MonotoneKeepsGoverned(a, w.tables, t, w.journal);
  }

  lemma AcrossKeepsInv(w: World, a: Adapter, job: Job, newId: string, meanwhile: seq<L.Step>, t: Trouble)
    requires Inv(w, a) && Constructed(job.bindings)
    ensures Inv(ExecuteAcross(w, a, job, newId, meanwhile, t).0, a)
  {
    var choice, later := Choose(w, a, job), L.After(w.tables, meanwhile);
    if choice.Ok? {
      AfterMonotone(w.tables, meanwhile);
      TablesMove(w, a, later);
      ChosenFrom(w, a, job, choice.value);
      ChosenCleared(w, a, job, choice.value, later);
      if !Stops(t, 0) { BeginKeepsInv(w.(tables := later), a, job, newId, choice.value, t); }
    }
  }

  // ---- reconcile and recover ----

  lemma RebuiltShape(p: Value)
    requires BindingFromOperation(p).Some?
    ensures BindingFromOperation(p) == Some(BindingFromOperation(p).value.(priority := 0, active := true))
  {
  }

  lemma GovernedBinding(a: Adapter, t: L.Tables, i: Intent)
    requires Governed(a, t, i)
    ensures
      var b := BindingFromOperation(i.payload);
      b.Some? && MadeFor(i, b.value) && b.value.adapter == Some(a.name) && b.value.adapterVersion == Some(a.version)
  {
    RebuiltShape(i.payload);
  }

  lemma RebuiltFrom(w: World, a: Adapter, id: string, b: InjectionBinding)
    requires id in w.journal.records && BindingFromOperation(w.journal.records[id].intent.payload) == Some(b)
    requires b.Executable() && b.adapter == Some(a.name) && b.adapterVersion == Some(a.version)
    ensures Rebuilt(w, a, id) == Ok(b)
  {
  }

  lemma RebuiltMeans(w: World, a: Adapter, id: string)
    requires AllGoverned(a, w.tables, w.journal) && id in w.journal.records
    ensures Rebuilt(w, a, id).Ok? && MadeFor(w.journal.records[id].intent, Rebuilt(w, a, id).value)
  {
    var i := w.journal.records[id].intent;
    assert Governed(a, w.tables, i);
    GovernedBinding(a, w.tables, i);
    RebuiltFrom(w, a, id, BindingFromOperation(i.payload).value);
  }

  lemma ReconcileSettles(w: World, a: Adapter, id: string, t: Trouble)
    requires Rebuilt(w, a, id).Ok?
    ensures id in w.journal.records && Rebuilt(w, a, id).value.Executable()
    ensures
      var b, i := Rebuilt(w, a, id).value, w.journal.records[id].intent;
      ReconcileOperation(w, a, id, t) == Settle(w, ReconcileSequel(w, a, id, t), a, b, i, t)
  {
  }

  lemma ReconcileRefused(w: World, a: Adapter, id: string, t: Trouble)
    requires Rebuilt(w, a, id).Error?
    ensures ReconcileOperation(w, a, id, t) == (w, Raised(Rebuilt(w, a, id).error))
  {
  }

  lemma ReconcileKeepsInv(w: World, a: Adapter, id: string, t: Trouble)
    requires Inv(w, a)
    ensures Inv(ReconcileOperation(w, a, id, t).0, a)
  {
    if id in w.journal.records {
      RebuiltMeans(w, a, id);
      SettleKeepsInv(w, ReconcileSequel(w, a, id, t), a, id, Rebuilt(w, a, id).value, t);
    }
  }

  lemma RecoverKeepsInv(w: World, a: Adapter, id: string)
    requires Inv(w, a)
    ensures Inv(RecoverOutcome(w, a, id).0, a)
  {
    if id in w.journal.records {
      RebuiltMeans(w, a, id);
      var evidence := RecoverEvidence(w, a, w.journal.records[id]);
      if evidence.Ok? {
        ConcludeKeepsInv(w, a, id, Rebuilt(w, a, id).value, evidence.value);
      }
    }
  }

  // ---- the world around it ----

  lemma MonotoneKeepsGoverned(a: Adapter, t: L.Tables, t': L.Tables, j: Journal)
    requires AllGoverned(a, t, j) && LT.Monotone(t, t')
    ensures AllGoverned(a, t', j)
  {
    forall id | id in j.records ensures Governed(a, t', j.records[id].intent) {
      assert Governed(a, t, j.records[id].intent);
      GovernedLater(a, t, t', j.records[id].intent);
    }
  }

  /** Governance moves on, revocations included, without unsettling what was executed. */
  lemma GovernsKeepsInv(w: World, a: Adapter, op: L.Op)
    requires Inv(w, a)
    ensures Inv(Next(w, a, Governs(op)), a)
  {
    LT.NextMonotone(w.tables, L.Step(w.now, op));
    MonotoneKeepsGoverned(a, w.tables, L.Next(w.tables, L.Step(w.now, op)), w.journal);
  }

  lemma RollbackKeepsJournal(w: World, a: Adapter, target: string, operation: string)
    ensures Rollback(w, a, target, operation).journal == w.journal
  {
  }

  /** A caller can only pass bindings that the constructor made. */
  ghost predicate Callable(m: Move) { m.Executes? ==> Constructed(m.job.bindings) }

  lemma StepKeepsInv(w: World, a: Adapter, m: Move)
    requires Inv(w, a) && Callable(m)
    ensures Inv(Next(w, a, m), a)
  {
    match m
    case Executes(job, newId, meanwhile, t) => AcrossKeepsInv(w, a, job, newId, meanwhile, t);
    case Reconciles(id, t) => ReconcileKeepsInv(w, a, id, t);
    case Recovers(id) => RecoverKeepsInv(w, a, id);
    case RollsBack(target, operation) => RollbackKeepsInv(w, a, target, operation);
    case Governs(op) => GovernsKeepsInv(w, a, op);
    case Passes(_) =>
  }

  lemma StartInv(a: Adapter)
    ensures Inv(START, a)
  {
    forall target | FS.TargetKey(a.name, target).Some?
      ensures FiledOf(EMPTY, a, target, FS.DirAt(map[], FS.TargetKey(a.name, target).value))
    {
      SD.NewDirFiled(RegistryOf(EMPTY, a, target));
    }
  }

  lemma {:induction false} RunKeeps(
    w: World, next: (World, Move) -> World, inv: World -> bool, fair: (World, Move) -> bool, moves: seq<Move>)
    requires inv(w)
    requires forall v, m {:trigger next(v, m)} | inv(v) && fair(v, m) :: inv(next(v, m))
    requires forall n {:trigger moves[n]} | 0 <= n < |moves| :: fair(RunMoves(w, next, moves[..n]), moves[n])
    ensures inv(RunMoves(w, next, moves))
  {
    if moves != [] {
      var before := Front(moves);
      forall n {:trigger before[n]} | 0 <= n < |before| ensures fair(RunMoves(w, next, before[..n]), before[n]) {
        assert before[..n] == moves[..n] && before[n] == moves[n];
      }
      RunKeeps(w, next, inv, fair, before);
      assert moves[..|before|] == before && moves[|before|] == Last(moves);
      assert fair(RunMoves(w, next, before), Last(moves));
    }
  }

  /** Runs are made of single moves. */
  lemma ReachGrows(a: Adapter, moves: seq<Move>, m: Move)
    ensures Reach(a, []) == START && Reach(a, moves + [m]) == Next(Reach(a, moves), a, m)
  {
    assert Front(moves + [m]) == moves;
  }

  ghost predicate CallableRun(moves: seq<Move>) {
    forall n {:trigger moves[n]} | 0 <= n < |moves| :: Callable(moves[n])
  }

  /** Every reachable world keeps the invariant: nothing is asked of digests. */
  lemma ReachKeepsInv(a: Adapter, moves: seq<Move>)
    requires CallableRun(moves)
    ensures Inv(Reach(a, moves), a)
  {
    var next := (w, m) => Next(w, a, m);
    ghost var inv := (w: World) => Inv(w, a);
    ghost var fair := (w: World, m: Move) => Callable(m);
    StartInv(a);
    forall v, m | inv(v) && fair(v, m) ensures inv(next(v, m)) { StepKeepsInv(v, a, m); }
    RunKeeps(START, next, inv, fair, moves);
  }
}
