/** Crash atomicity in every reachable world, whatever effects operations share: exactly when it holds. */
module ExecutionCrashes {
  import opened Prelude
  import opened Json
  import opened Operations
  import opened Bindings
  import opened Execution
  import opened ExecutionInvariants
  import opened ExecutionSteps
  import opened ExecutionTheorems
  import opened ExecutionDisturbances
  import FS = FileStore
  import SD = SharedDigests

  // ---- when two operations share a digest ----

  /** One effect digest belongs to one operation per target exactly when no two operations do the same thing to it. */
  lemma DistinctExactly(j: Journal)
    requires Kept(j)
    ensures DistinctEffects(j) <==>
            forall x, y {:trigger j.records[x], j.records[y]} | x in j.records && y in j.records
              && SameEffect(j.records[x].intent, j.records[y].intent.target, j.records[y].intent.kind,
                   j.records[y].intent.payload) ::
              x == y
  {
    forall x, y {:trigger j.records[x], j.records[y]} | x in j.records && y in j.records
      ensures
        var i, k := j.records[x].intent, j.records[y].intent;
        SameEffect(i, k.target, k.kind, k.payload) <==> i.target == k.target && i.digest == k.digest
    {
      DigestsDecide(j, x, y);
    }
  }

  lemma DigestsDecide(j: Journal, x: string, y: string)
    requires Kept(j) && x in j.records && y in j.records
    ensures
      var i, k := j.records[x].intent, j.records[y].intent;
      SameEffect(i, k.target, k.kind, k.payload) <==> i.target == k.target && i.digest == k.digest
  {
    var i, k := j.records[x].intent, j.records[y].intent;
    assert GoodRecord(j, x) && GoodRecord(j, y);
    EffectDigestExact(i.target, i.kind, Plain(i.payload), k.target, k.kind, Plain(k.payload));
    PlainIdempotent(i.payload);
    PlainIdempotent(k.payload);
  }

  lemma NewKeyInserts(j: Journal, id: string, i: Intent, key: string)
    requires Kept(j) && id != "" && id !in j.records && key !in j.byKey && !Blank(key) && GoodIntent(i)
    requires !Blank(i.target) && !Blank(i.kind)
    ensures Dumpable(Plain(i.payload)) && Plain(Plain(i.payload)) == Plain(i.payload)
    ensures
      StorePrepare(j, id, i.target, i.kind, Plain(i.payload), key) ==
        var copy := Intent(id, key, i.target, i.kind, Freeze(Plain(i.payload)), i.digest);
        (Insert(j, copy), Ok(Prep(copy, false)))
  {
    PlainIdempotent(i.payload);
    Sha256Exact(Text(Envelope(i.target, i.kind, Plain(i.payload))), "");
  }

  /**
   The journal allows it: the same effect under a second idempotency key is a second operation with the same
   digest.
   */
  lemma SecondKeySharesDigest(j: Journal, newId: string, x: string, key: string)
    requires Kept(j) && x in j.records && key !in j.byKey && !Blank(key)
    requires newId != "" && newId !in j.records
    requires !Blank(j.records[x].intent.target) && !Blank(j.records[x].intent.kind)
    ensures
      var i := j.records[x].intent;
      var (k, r) := StorePrepare(j, newId, i.target, i.kind, Plain(i.payload), key);
      r.Ok? && newId in k.records && x in k.records && !DistinctEffects(k)
  {
    var i := j.records[x].intent;
    assert GoodRecord(j, x);
    NewKeyInserts(j, newId, i, key);
    var k := StorePrepare(j, newId, i.target, i.kind, Plain(i.payload), key).0;
    assert k.records[newId].intent.digest == k.records[x].intent.digest;
  }

  // ---- what a disturbed first run leaves behind ----

  /** Where a disturbance that leaves it open leaves a first run. */
  lemma LaunchedAs(w: World, a: Adapter, job: Job, newId: string, b: InjectionBinding, t: Trouble)
    requires Inv(w, a) && Constructed(job.bindings) && Choose(w, a, job) == Ok(b) && FirstRun(w, a, b, job, newId)
    requires LeavesOpen(t)
    ensures
      var i, v := PreparedIn(w.journal, a, b, job, newId).1.value.intent, Execute(w, a, job, newId, t).0;
      && i.id in v.journal.records && v.journal.records[i.id].intent == i && Open(v, i.id)
      && TargetDir(v, a, i) == FS.Written(TargetDir(w, a, i), RequestOf(i), FileWrites(t))
  {
    var i := PreparedIn(w.journal, a, b, job, newId).1.value.intent;
    DisturbedRun(w, a, job, newId, b, t);
    OpenExactly(w, a, job, newId, b, t);
    var r := Execute(w, a, job, newId, t);
    EndsWritten(w, r.0, a, i, b, t, r.1);
  }

  // ---- crash atomicity, exactly ----

  /** What the target says of a new operation's digest after n of its writes. */
  function SeenAfter(d: FS.Dir, digest: Digest, n: nat): Option<OpState> {
    if n >= 3 then Some(Verified)
    else if !SD.Showing(d, digest) then Some(Failed)
    else if n >= 1 || SD.Garbled(d) then None
    else Some(Verified)
  }

  lemma SeenWritten(d: FS.Dir, r: FS.Request, n: nat)
    requires d.current.Some? ==>
      d.current.value.operation != r.operation && d.current.value.versionFile == d.current.value.digest
    ensures SeenAs(FS.Written(d, r, n), r.digest) == SeenAfter(d, r.digest, n)
  {
  }

  lemma WrittenSeen(w: World, a: Adapter, i: Intent, n: nat)
    requires Inv(w, a) && FS.TargetKey(a.name, i.target).Some? && i.id !in TargetDir(w, a, i).receipts
    ensures SeenAs(FS.Written(TargetDir(w, a, i), RequestOf(i), n), i.digest) ==
      SeenAfter(TargetDir(w, a, i), i.digest, n)
  {
    var d, reg := TargetDir(w, a, i), RegistryOf(w.journal, a, i.target);
    assert FiledOf(w.journal, a, i.target, d);
    if d.current.Some? { assert SD.GoodPointer(d, reg, d.current.value); }
    SeenWritten(d, RequestOf(i), n);
  }

  lemma NotShownTells(d: FS.Dir, digest: Digest, t: Trouble)
    requires !SD.Showing(d, digest)
    ensures StateOf(SeenAfter(d, digest, FileWrites(t))) == if FileWrites(t) == 3 then Verified else Failed
  {
    assert FileWrites(t) <= 3;
  }

  lemma UnwrittenSays(d: FS.Dir, digest: Digest)
    ensures StateOf(SeenAfter(d, digest, 0)) == Failed <==> !SD.Showing(d, digest)
    ensures StateOf(SeenAfter(d, digest, 0)) == Verified <==> SD.Showing(d, digest) && !SD.Garbled(d)
  {
  }

  function StateOf(s: Option<OpState>): OpState { if s.Some? then s.value else Ambiguous }

  lemma DecidedState(w: World, v: World, a: Adapter, i: Intent, b: InjectionBinding, reply: Reply)
    requires b.Executable() && FS.TargetKey(a.name, i.target).Some? && Decided(w, v, a, i, b, reply)
    ensures CurrentStateOf(v, i.id) == StateOf(SeenIn(w, a, i))
    ensures i.id !in w.outcomes ==> (i.id in v.outcomes <==> SeenIn(w, a, i) == Some(Verified))
    ensures i.id !in w.outcomes && i.id in v.outcomes ==> v.outcomes[i.id] == ExpectedOutcome(a, i, b)
  {
  }

  /**
   In every reachable world: after every disturbance of a first run that leaves an attempt undecided, one reconcile
   takes the operation to the state that the number of its file writes and the target before them give.
   */
  lemma CrashDecided(w: World, a: Adapter, job: Job, newId: string, b: InjectionBinding, t: Trouble)
    requires Inv(w, a) && Constructed(job.bindings) && Choose(w, a, job) == Ok(b) && FirstRun(w, a, b, job, newId)
    requires LeavesOpen(t)
    ensures
      var i := PreparedIn(w.journal, a, b, job, newId).1.value.intent;
      CurrentStateOf(ReconcileOperation(Execute(w, a, job, newId, t).0, a, i.id, Smooth).0, i.id)
        == StateOf(SeenAfter(TargetDir(w, a, i), i.digest, FileWrites(t)))
  {
    var i, v := PreparedIn(w.journal, a, b, job, newId).1.value.intent, Execute(w, a, job, newId, t).0;
    ChosenNow(w, a, job, b);
    PreparedAs(w, a, job, newId, b);
    LaunchedAs(w, a, job, newId, b, t);
    WrittenSeen(w, a, i, FileWrites(t));
    ExecuteKeepsInv(w, a, job, newId, t);
    OpenDecided(v, a, i);
  }

  lemma OpenDecided(v: World, a: Adapter, i: Intent)
    requires Inv(v, a) && i.id in v.journal.records && v.journal.records[i.id].intent == i && Open(v, i.id)
    requires FS.TargetKey(a.name, i.target).Some?
    ensures CurrentStateOf(ReconcileOperation(v, a, i.id, Smooth).0, i.id) == StateOf(SeenIn(v, a, i))
  {
    ReconcileDecides(v, a, i.id);
    var r := ReconcileOperation(v, a, i.id, Smooth);
    DecidedState(v, r.0, a, i, Rebuilt(v, a, i.id).value, r.1);
  }

  /** Dying right after the attempt was stored leaves the operation ATTEMPTED, the files untouched and no outcome. */
  lemma DiesAttempted(w: World, a: Adapter, job: Job, newId: string, b: InjectionBinding)
    requires Kept(w.journal) && Choose(w, a, job) == Ok(b) && FirstRun(w, a, b, job, newId)
    ensures
      var i := PreparedIn(w.journal, a, b, job, newId).1.value.intent;
      var v := Execute(w, a, job, newId, CrashAfter(2)).0;
      && CurrentStateOf(v, i.id) == Attempted && v.dirs == w.dirs && v.outcomes == w.outcomes
      && FileWrites(CrashAfter(2)) == 0
  {
    var (j, prepared) := PreparedIn(w.journal, a, b, job, newId);
    var i, w1 := prepared.value.intent, w.(journal := j);
    ExecuteLaunches(w, a, job, newId, CrashAfter(2), b);
    PreparedPayload(w.journal, a, b, job, newId);
    AttemptSucceeds(w1, i.id, Some("binding:" + b.id));
    LaunchStops(w1, a, b, i, CrashAfter(2));
  }

  /** However the first run is disturbed, one reconcile of what it leaves open tells whether the effect happened. */
  ghost predicate TellsTheTruth(w: World, a: Adapter, job: Job, newId: string, id: string) {
    forall t | LeavesOpen(t) ::
      CurrentStateOf(ReconcileOperation(Execute(w, a, job, newId, t).0, a, id, Smooth).0, id)
        == if FileWrites(t) == 3 then Verified else Failed
  }

  /** One reconcile never says VERIFIED of an effect that did not happen. */
  ghost predicate NeverPhantom(w: World, a: Adapter, job: Job, newId: string, id: string) {
    forall t | LeavesOpen(t) ::
      CurrentStateOf(ReconcileOperation(Execute(w, a, job, newId, t).0, a, id, Smooth).0, id) == Verified
      ==> FileWrites(t) == 3
  }

  ghost predicate EachDecided(w: World, a: Adapter, job: Job, newId: string, id: string, d: FS.Dir, digest: Digest) {
    forall t | LeavesOpen(t) ::
      CurrentStateOf(ReconcileOperation(Execute(w, a, job, newId, t).0, a, id, Smooth).0, id)
        == StateOf(SeenAfter(d, digest, FileWrites(t)))
  }

  lemma EachIsDecided(w: World, a: Adapter, job: Job, newId: string, b: InjectionBinding, i: Intent)
    requires Inv(w, a) && Constructed(job.bindings) && Choose(w, a, job) == Ok(b) && FirstRun(w, a, b, job, newId)
    requires i == PreparedIn(w.journal, a, b, job, newId).1.value.intent
    ensures EachDecided(w, a, job, newId, i.id, TargetDir(w, a, i), i.digest)
  {
    forall t | LeavesOpen(t)
      ensures CurrentStateOf(ReconcileOperation(Execute(w, a, job, newId, t).0, a, i.id, Smooth).0, i.id)
                == StateOf(SeenAfter(TargetDir(w, a, i), i.digest, FileWrites(t)))
    {
      CrashDecided(w, a, job, newId, b, t);
    }
  }

  lemma Truthful(w: World, a: Adapter, job: Job, newId: string, id: string, d: FS.Dir, digest: Digest)
    requires EachDecided(w, a, job, newId, id, d, digest)
    ensures !SD.Showing(d, digest) ==> TellsTheTruth(w, a, job, newId, id)
    ensures !SD.Showing(d, digest) || SD.Garbled(d) ==> NeverPhantom(w, a, job, newId, id)
  {
  }

  lemma Untruthful(w: World, a: Adapter, job: Job, newId: string, id: string, t: Trouble)
    requires LeavesOpen(t) && FileWrites(t) != 3
    ensures
      var s := CurrentStateOf(ReconcileOperation(Execute(w, a, job, newId, t).0, a, id, Smooth).0, id);
      && (s != Failed ==> !TellsTheTruth(w, a, job, newId, id))
      && (s == Verified ==> !NeverPhantom(w, a, job, newId, id))
  {
  }

  /**
   In every reachable world: one reconcile tells, after every disturbance of a first run, whether its effect
   happened, exactly when the target did not already show the effect's digest; and it never says VERIFIED of an
   effect that did not happen exactly then, or when the version file shown is not the current pointer's own.
   */
  lemma CrashAtomicExactly(w: World, a: Adapter, job: Job, newId: string, b: InjectionBinding)
    requires Inv(w, a) && Constructed(job.bindings) && Choose(w, a, job) == Ok(b) && FirstRun(w, a, b, job, newId)
    ensures
      var i := PreparedIn(w.journal, a, b, job, newId).1.value.intent;
      var d := TargetDir(w, a, i);
      && (TellsTheTruth(w, a, job, newId, i.id) <==> !SD.Showing(d, i.digest))
      && (NeverPhantom(w, a, job, newId, i.id) <==> !SD.Showing(d, i.digest) || SD.Garbled(d))
  {
    var i := PreparedIn(w.journal, a, b, job, newId).1.value.intent;
    EachIsDecided(w, a, job, newId, b, i);
    Truthful(w, a, job, newId, i.id, TargetDir(w, a, i), i.digest);
    Shown(w, a, job, newId, b);
  }

  lemma Shown(w: World, a: Adapter, job: Job, newId: string, b: InjectionBinding)
    requires Inv(w, a) && Constructed(job.bindings) && Choose(w, a, job) == Ok(b) && FirstRun(w, a, b, job, newId)
    ensures
      var i := PreparedIn(w.journal, a, b, job, newId).1.value.intent;
      var d := TargetDir(w, a, i);
      && (SD.Showing(d, i.digest) ==> !TellsTheTruth(w, a, job, newId, i.id))
      && (SD.Showing(d, i.digest) && !SD.Garbled(d) ==> !NeverPhantom(w, a, job, newId, i.id))
  {
    var i := PreparedIn(w.journal, a, b, job, newId).1.value.intent;
    DiesAttempted(w, a, job, newId, b);
    CrashDecided(w, a, job, newId, b, CrashAfter(2));
    UnwrittenSays(TargetDir(w, a, i), i.digest);
    Untruthful(w, a, job, newId, i.id, CrashAfter(2));
  }

  /**
   So with a digest that no other operation on its target has, the current pointer names the operation exactly
   when all three file writes happened, and one reconcile takes it to VERIFIED exactly then, to FAILED otherwise.
   */
  lemma CrashAtomic(w: World, a: Adapter, job: Job, newId: string, t: Trouble, b: InjectionBinding)
    requires Inv(w, a) && Constructed(job.bindings) && Choose(w, a, job) == Ok(b) && FirstRun(w, a, b, job, newId)
    requires
      var (j, prepared) := PreparedIn(w.journal, a, b, job, newId);
      prepared.value.intent.id in j.records && Unshared(j, prepared.value.intent.id)
    requires LeavesOpen(t)
    ensures
      var i := PreparedIn(w.journal, a, b, job, newId).1.value.intent;
      var v := Execute(w, a, job, newId, t).0;
      && (PointerNames(v, a, i) <==> FileWrites(t) == 3)
      && CurrentStateOf(ReconcileOperation(v, a, i.id, Smooth).0, i.id) ==
           if FileWrites(t) == 3 then Verified else Failed
  {
    var (j, prepared) := PreparedIn(w.journal, a, b, job, newId);
    var i := prepared.value.intent;
    ChosenNow(w, a, job, b);
    PreparedAs(w, a, job, newId, b);
    UnsharedNotShown(w.(journal := j), a, i);
    CrashDecided(w, a, job, newId, b, t);
    NotShownTells(TargetDir(w, a, i), i.digest, t);
    CrashNames(w, a, job, newId, t, b);
  }

  lemma CrashNames(w: World, a: Adapter, job: Job, newId: string, t: Trouble, b: InjectionBinding)
    requires Inv(w, a) && Constructed(job.bindings) && Choose(w, a, job) == Ok(b) && FirstRun(w, a, b, job, newId)
    requires LeavesOpen(t)
    ensures
      var i := PreparedIn(w.journal, a, b, job, newId).1.value.intent;
      PointerNames(Execute(w, a, job, newId, t).0, a, i) <==> FileWrites(t) == 3
  {
    var i, v := PreparedIn(w.journal, a, b, job, newId).1.value.intent, Execute(w, a, job, newId, t).0;
    ChosenNow(w, a, job, b);
    PreparedAs(w, a, job, newId, b);
    LaunchedAs(w, a, job, newId, b, t);
    WrittenNames(w, v, a, i, t);
  }

  lemma UnsharedNotShown(w: World, a: Adapter, i: Intent)
    requires Inv(w, a) && i.id in w.journal.records && w.journal.records[i.id].intent == i && Unshared(w.journal, i.id)
    requires FS.TargetKey(a.name, i.target).Some? && !PointerNames(w, a, i)
    ensures !SD.Showing(TargetDir(w, a, i), i.digest)
  {
    UnsharedShows(w, a, i.id);
  }

  // ---- what is recorded for an effect that never ran ----

  /**
   A process that dies with its attempt stored has written nothing. One reconcile records VERIFIED and an outcome
   for this effect that never ran exactly when the target shows its digest in the current pointer's own version
   file; it leaves the operation AMBIGUOUS when that file is another operation's, and FAILED otherwise.
   */
  lemma UndoneEffectRecorded(w: World, a: Adapter, job: Job, newId: string, b: InjectionBinding)
    requires Inv(w, a) && Constructed(job.bindings) && Choose(w, a, job) == Ok(b) && FirstRun(w, a, b, job, newId)
    ensures
      var i := PreparedIn(w.journal, a, b, job, newId).1.value.intent;
      var v, d := Execute(w, a, job, newId, CrashAfter(2)).0, TargetDir(w, a, i);
      var u := ReconcileOperation(v, a, i.id, Smooth).0;
      && v.dirs == w.dirs && u.dirs == w.dirs && i.id !in w.outcomes
      && CurrentStateOf(u, i.id) ==
           (if !SD.Showing(d, i.digest) then Failed else if SD.Garbled(d) then Ambiguous else Verified)
      && (i.id in u.outcomes <==> SD.Showing(d, i.digest) && !SD.Garbled(d))
      && (i.id in u.outcomes ==> u.outcomes[i.id].effect == i.digest)
  {
    var i := PreparedIn(w.journal, a, b, job, newId).1.value.intent;
    var v := Execute(w, a, job, newId, CrashAfter(2)).0;
    ChosenNow(w, a, job, b);
    DiesAttempted(w, a, job, newId, b);
    PreparedAs(w, a, job, newId, b);
    LaunchedAs(w, a, job, newId, b, CrashAfter(2));
    ExecuteKeepsInv(w, a, job, newId, CrashAfter(2));
    ReconcileDecides(v, a, i.id);
    var r := ReconcileOperation(v, a, i.id, Smooth);
    DecidedState(v, r.0, a, i, Rebuilt(v, a, i.id).value, r.1);
  }
}
