/** Crash atomicity and recovery of governed execution over the reference file adapter. */
module ExecutionTheorems {
  import opened Prelude
  import opened Json
  import opened Operations
  import opened Bindings
  import opened Execution
  import opened ExecutionInvariants
  import opened ExecutionSteps
  import FS = FileStore
  import SD = SharedDigests

  // ---- what a step can touch ----

  /** Only this operation's history and outcome, and its target's directory, may differ. */
  ghost predicate Local(w: World, v: World, a: Adapter, i: Intent) {
    && v.tables == w.tables && v.now == w.now
    && v.journal.byKey == w.journal.byKey && v.journal.records.Keys == w.journal.records.Keys
    && (forall x {:trigger w.journal.records[x]} {:trigger v.journal.records[x]} | x in w.journal.records ::
          v.journal.records[x].intent == w.journal.records[x].intent
          && (x != i.id ==> v.journal.records[x] == w.journal.records[x]))
    && (forall x {:trigger x in w.outcomes} {:trigger x in v.outcomes} | x != i.id ::
          x in v.outcomes <==> x in w.outcomes)
    && (forall key {:trigger FS.DirAt(v.dirs, key)} {:trigger FS.DirAt(w.dirs, key)}
         | Some(key) != FS.TargetKey(a.name, i.target) ::
          FS.DirAt(v.dirs, key) == FS.DirAt(w.dirs, key))
  }

  lemma LocalTransitive(w: World, v: World, u: World, a: Adapter, i: Intent)
    requires Local(w, v, a, i) && Local(v, u, a, i)
    ensures Local(w, u, a, i)
  {
  }

  lemma AppendLocal(w: World, a: Adapter, i: Intent, call: Call)
    ensures Local(w, Append1(w, i.id, call).0, a, i) && Append1(w, i.id, call).0.dirs == w.dirs
  {
  }

  lemma ConcludeLocal(w: World, a: Adapter, i: Intent, b: InjectionBinding, evidence: string)
    requires b.Executable()
    ensures Local(w, Conclude(w, i, b, evidence).0, a, i) && Conclude(w, i, b, evidence).0.dirs == w.dirs
  {
  }

  lemma HandleLocal(w: World, a: Adapter, i: Intent, writes: nat)
    ensures Local(w, Handle(w, a, i, writes).0, a, i)
  {
  }

  lemma ApplyLocal(w: World, a: Adapter, b: InjectionBinding, i: Intent, r: FS.Readback, t: Trouble)
    requires b.Executable()
    ensures Local(w, ApplyReadback(w, b, i, r, t).0, a, i) && ApplyReadback(w, b, i, r, t).0.dirs == w.dirs
  {
    if r.verdict.FoundAmbiguous? {
      AppendLocal(w, a, i, MarkAmbiguous(r.evidence));
    } else if r.verdict.FoundFailed? || Dumpable(Plain(r.verdict.observed)) {
      ApplySplits(w, b, i, r, t);
      AppendLocal(w, a, i, Verdict(i, r));
      var v := Append1(w, i.id, Verdict(i, r)).0;
      ConcludeLocal(v, a, i, b, r.evidence);
      LocalTransitive(w, v, Conclude(v, i, b, r.evidence).0, a, i);
    }
  }

  lemma ObserveLocal(w: World, a: Adapter, b: InjectionBinding, i: Intent, t: Trouble)
    requires b.Executable()
    ensures Local(w, Observe(w, a, b, i, t).0, a, i) && Observe(w, a, b, i, t).0.dirs == w.dirs
  {
    if FS.TargetKey(a.name, i.target).Some? {
      ApplyLocal(w, a, b, i, ReadbackOf(w, a, i), t);
    } else {
      AppendLocal(w, a, i, MarkAmbiguous("readback-exception:" + a.name + "@" + a.version));
    }
  }

  lemma SettleLocal(w: World, sequel: Sequel, a: Adapter, b: InjectionBinding, i: Intent, t: Trouble)
    requires b.Executable()
    ensures Local(w, Settle(w, sequel, a, b, i, t).0, a, i) && Settle(w, sequel, a, b, i, t).0.dirs == w.dirs
  {
    match sequel
    case Die =>
    case Doubting(evidence, stop) => AppendLocal(w, a, i, MarkAmbiguous(evidence));
    case Rethrowing(_) =>
    case Observing => ObserveLocal(w, a, b, i, t);
  }

  lemma DispatchLocal(w: World, a: Adapter, b: InjectionBinding, i: Intent, t: Trouble)
    requires b.Executable()
    ensures Local(w, Dispatch(w, a, b, i, t).0, a, i)
    ensures Dispatch(w, a, b, i, t).0.dirs == Handle(w, a, i, FileWrites(t)).0.dirs
  {
    var (v, fault) := Handle(w, a, i, FileWrites(t));
    HandleLocal(w, a, i, FileWrites(t));
    SettleLocal(v, SequelOf(a, t, fault), a, b, i, t);
    LocalTransitive(w, v, Dispatch(w, a, b, i, t).0, a, i);
  }

  lemma LaunchLocal(w: World, a: Adapter, b: InjectionBinding, i: Intent, t: Trouble)
    requires b.Executable()
    ensures Local(w, Launch(w, a, b, i, t).0, a, i)
  {
    var call := Attempt(Some("binding:" + b.id));
    AppendLocal(w, a, i, call);
    var (v, e) := Append1(w, i.id, call);
    LaunchSplits(w, a, b, i, t);
    if e.Ok? {
      DispatchLocal(v, a, b, i, t);
      LocalTransitive(w, v, Dispatch(v, a, b, i, t).0, a, i);
    }
  }

  // ---- one readback decides ----

  predicate Open(w: World, id: string) {
    CurrentStateOf(w, id) == Attempted || CurrentStateOf(w, id) == Ambiguous
  }

  /** The outcome an undisturbed run records. */
  function ExpectedOutcome(a: Adapter, i: Intent, b: InjectionBinding): Outcome
    requires b.Executable()
  {
    OutcomeFor(i, b, SeenAt(a, i))
  }

  /** What a target says of a digest: that its effect is not there, that it is, or nothing certain. */
  function SeenAs(d: FS.Dir, digest: Digest): Option<OpState> {
    if !SD.Showing(d, digest) then Some(Failed) else if SD.Garbled(d) then None else Some(Verified)
  }

  function SeenIn(w: World, a: Adapter, i: Intent): Option<OpState>
    requires FS.TargetKey(a.name, i.target).Some?
  {
    SeenAs(TargetDir(w, a, i), i.digest)
  }

  lemma VerdictAccepted(w: World, id: string, call: Call)
    requires id in w.journal.records && Open(w, id)
    requires call.Reconcile? && !Blank(call.evidence)
      && (call.verified ==> call.readback.Some? && !Blank(call.readback.value))
    ensures
      var (v, e) := Append1(w, id, call);
      && e.Ok? && CurrentStateOf(v, id) == (if call.verified then Verified else Failed)
      && v.outcomes == w.outcomes && v.dirs == w.dirs && id in v.journal.records
      && v.journal.records[id].intent == w.journal.records[id].intent
  {
    assert w.journal.records[id].events != [];
  }

  lemma DigestNotBlank(v: Value)
    requires Dumpable(v)
    ensures !Blank(DigestOf(v))
  {
    Sha256Exact(Text(v), "");
  }

  /** VERIFIED with its outcome, FAILED, or AMBIGUOUS, as the target says. */
  ghost predicate Decided(w: World, v: World, a: Adapter, i: Intent, b: InjectionBinding, reply: Reply)
    requires b.Executable() && FS.TargetKey(a.name, i.target).Some?
  {
    var o := ExpectedOutcome(a, i, b);
    if SeenIn(w, a, i) == Some(Verified) then
      && CurrentStateOf(v, i.id) == Verified && v.outcomes == w.outcomes[i.id := o]
      && reply == Finished(i.id, Verified, Some(o))
    else
      var s := if SeenIn(w, a, i).None? then Ambiguous else Failed;
      CurrentStateOf(v, i.id) == s && v.outcomes == w.outcomes && reply == Finished(i.id, s, None)
  }

  lemma VerdictRecorded(w: World, a: Adapter, id: string)
    requires Inv(w, a) && id in w.journal.records && Open(w, id)
    requires FS.TargetKey(a.name, w.journal.records[id].intent.target).Some?
    requires SeenIn(w, a, w.journal.records[id].intent).Some?
    ensures
      var i := w.journal.records[id].intent;
      var (v, e) := Append1(w, id, Verdict(i, ReadbackOf(w, a, i)));
      && e.Ok? && Inv(v, a) && id in v.journal.records && v.journal.records[id].intent == i
      && CurrentStateOf(v, id) == SeenIn(w, a, i).value && v.outcomes == w.outcomes
  {
    var i := w.journal.records[id].intent;
    var r := ReadbackOf(w, a, i);
    ReadShows(w, a, i);
    VerdictHonest(w, a, id);
    if r.verdict.FoundVerified? { DigestNotBlank(Plain(r.verdict.observed)); }
    VerdictAccepted(w, id, Verdict(i, r));
    AppendKeepsInv(w, a, id, Verdict(i, r));
  }

  lemma ApplyFails(w: World, a: Adapter, id: string, b: InjectionBinding, t: Trouble)
    requires Inv(w, a) && id in w.journal.records && Open(w, id) && b.Executable()
    requires FS.TargetKey(a.name, w.journal.records[id].intent.target).Some?
    requires SeenIn(w, a, w.journal.records[id].intent) == Some(Failed)
    ensures
      var i := w.journal.records[id].intent;
      var r := ReadbackOf(w, a, i);
      ApplyReadback(w, b, i, r, t) == (Append1(w, id, Verdict(i, r)).0, Finished(id, Failed, None))
  {
    var i := w.journal.records[id].intent;
    OwnId(w.journal, id);
    ReadShows(w, a, i);
    VerdictRecorded(w, a, id);
    ApplySplits(w, b, i, ReadbackOf(w, a, i), t);
  }

  lemma ApplyConcludes(w: World, a: Adapter, id: string, b: InjectionBinding, t: Trouble)
    requires Inv(w, a) && id in w.journal.records && Open(w, id) && b.Executable() && !Stops(t, 6)
    requires FS.TargetKey(a.name, w.journal.records[id].intent.target).Some?
    requires SeenIn(w, a, w.journal.records[id].intent) == Some(Verified)
    ensures
      var i := w.journal.records[id].intent;
      var r := ReadbackOf(w, a, i);
      ApplyReadback(w, b, i, r, t) == Conclude(Append1(w, id, Verdict(i, r)).0, i, b, SeenAt(a, i))
  {
    var i := w.journal.records[id].intent;
    OwnId(w.journal, id);
    ReadShows(w, a, i);
    VerdictRecorded(w, a, id);
    ApplySplits(w, b, i, ReadbackOf(w, a, i), t);
  }

  lemma ApplyDoubts(w: World, b: InjectionBinding, i: Intent, r: FS.Readback, t: Trouble)
    requires b.Executable() && i.id in w.journal.records && Open(w, i.id) && !Blank(r.evidence)
    requires r.verdict.FoundAmbiguous?
    ensures
      var (v, reply) := ApplyReadback(w, b, i, r, t);
      CurrentStateOf(v, i.id) == Ambiguous && v.outcomes == w.outcomes && reply == Finished(i.id, Ambiguous, None)
  {
  }

  lemma DecidedFrom(w: World, u: World, a: Adapter, i: Intent, b: InjectionBinding, v: World, reply: Reply)
    requires b.Executable() && FS.TargetKey(a.name, i.target).Some? && u.outcomes == w.outcomes
    requires SeenIn(w, a, i).Some? && CurrentStateOf(u, i.id) == SeenIn(w, a, i).value
    requires
      var o := ExpectedOutcome(a, i, b);
      (v, reply) == if SeenIn(w, a, i) == Some(Verified)
        then (u.(outcomes := u.outcomes[i.id := o]), Finished(i.id, Verified, Some(o)))
        else (u, Finished(i.id, Failed, None))
    ensures Decided(w, v, a, i, b, reply)
  {
  }

  lemma ApplySettles(w: World, a: Adapter, id: string, b: InjectionBinding, t: Trouble)
    requires Inv(w, a) && id in w.journal.records && Open(w, id) && !Stops(t, 6)
    requires FS.TargetKey(a.name, w.journal.records[id].intent.target).Some?
    requires MadeFor(w.journal.records[id].intent, b) && SeenIn(w, a, w.journal.records[id].intent).Some?
    ensures
      var i := w.journal.records[id].intent;
      var r := ApplyReadback(w, b, i, ReadbackOf(w, a, i), t);
      Decided(w, r.0, a, i, b, r.1)
  {
    var i := w.journal.records[id].intent;
    var u := Append1(w, id, Verdict(i, ReadbackOf(w, a, i))).0;
    OwnId(w.journal, id);
    VerdictRecorded(w, a, id);
    if SeenIn(w, a, i) == Some(Verified) {
      ApplyConcludes(w, a, id, b, t);
      ConcludeRecords(u, a, id, b);
    } else {
      ApplyFails(w, a, id, b, t);
    }
    var r := ApplyReadback(w, b, i, ReadbackOf(w, a, i), t);
    DecidedFrom(w, u, a, i, b, r.0, r.1);
  }

  lemma ApplyDecides(w: World, a: Adapter, id: string, b: InjectionBinding, t: Trouble)
    requires Inv(w, a) && id in w.journal.records && Open(w, id) && !Stops(t, 6)
    requires FS.TargetKey(a.name, w.journal.records[id].intent.target).Some?
    requires MadeFor(w.journal.records[id].intent, b)
    ensures
      var i := w.journal.records[id].intent;
      var r := ApplyReadback(w, b, i, ReadbackOf(w, a, i), t);
      Decided(w, r.0, a, i, b, r.1)
  {
    var i := w.journal.records[id].intent;
    if SeenIn(w, a, i).Some? {
      ApplySettles(w, a, id, b, t);
    } else {
      OwnId(w.journal, id);
      ReadShows(w, a, i);
      ApplyDoubts(w, b, i, ReadbackOf(w, a, i), t);
    }
  }

  lemma ForeignTargetStaysOpen(w: World, a: Adapter, id: string, b: InjectionBinding, t: Trouble)
    requires id in w.journal.records && Open(w, id) && b.Executable() && w.journal.records[id].intent.id == id
    requires FS.TargetKey(a.name, w.journal.records[id].intent.target).None?
    ensures
      var (v, reply) := Observe(w, a, b, w.journal.records[id].intent, t);
      CurrentStateOf(v, id) == Ambiguous && reply == Raised(ReadbackRaised) && v.outcomes == w.outcomes
  {
    var evidence := "readback-exception:" + a.name + "@" + a.version;
    NotBlank(evidence);
    assert w.journal.records[id].events != [];
  }

  lemma ObserveDecides(w: World, a: Adapter, id: string, b: InjectionBinding, t: Trouble)
    requires Inv(w, a) && id in w.journal.records && Open(w, id) && !Stops(t, 6)
    requires MadeFor(w.journal.records[id].intent, b) && FS.TargetKey(a.name, w.journal.records[id].intent.target).Some?
    ensures
      var i := w.journal.records[id].intent;
      var r := Observe(w, a, b, i, t);
      Decided(w, r.0, a, i, b, r.1)
  {
    ApplyDecides(w, a, id, b, t);
  }

  lemma ObserveCloses(w: World, a: Adapter, id: string, b: InjectionBinding, t: Trouble)
    requires Inv(w, a) && id in w.journal.records && Open(w, id) && !Stops(t, 6)
    requires MadeFor(w.journal.records[id].intent, b)
    ensures
      var i := w.journal.records[id].intent;
      Open(Observe(w, a, b, i, t).0, id) <==> FS.TargetKey(a.name, i.target).None? || SeenIn(w, a, i).None?
  {
    var i := w.journal.records[id].intent;
    OwnId(w.journal, id);
    if FS.TargetKey(a.name, i.target).Some? {
      ObserveDecides(w, a, id, b, t);
      var r := Observe(w, a, b, i, t);
      DecidedCloses(w, r.0, a, i, b, r.1);
    } else {
      ForeignTargetStaysOpen(w, a, id, b, t);
    }
  }

  lemma DecidedCloses(w: World, v: World, a: Adapter, i: Intent, b: InjectionBinding, reply: Reply)
    requires b.Executable() && FS.TargetKey(a.name, i.target).Some? && Decided(w, v, a, i, b, reply)
    ensures Open(v, i.id) <==> SeenIn(w, a, i).None?
  {
  }

  lemma ReconcileObserves(w: World, a: Adapter, id: string)
    requires Rebuilt(w, a, id).Ok?
    ensures id in w.journal.records
    ensures ReconcileOperation(w, a, id, Smooth) ==
      Observe(w, a, Rebuilt(w, a, id).value, w.journal.records[id].intent, Smooth)
  {
  }

  /**
   One reconcile of an operation that was attempted, crashed or in doubt takes it to VERIFIED with its outcome,
   to FAILED, or leaves it in doubt, as the target says. It stays open exactly when its target is not one of the
   adapter's, or shows its digest over another operation's version file; and it never writes a file.
   */
  lemma ReconcileDecides(w: World, a: Adapter, id: string)
    requires Inv(w, a) && id in w.journal.records && Open(w, id)
    ensures Rebuilt(w, a, id).Ok? && MadeFor(w.journal.records[id].intent, Rebuilt(w, a, id).value)
    ensures
      var i := w.journal.records[id].intent;
      var (v, reply) := ReconcileOperation(w, a, id, Smooth);
      && v.dirs == w.dirs && Local(w, v, a, i)
      && (Open(v, id) <==> FS.TargetKey(a.name, i.target).None? || SeenIn(w, a, i).None?)
      && (FS.TargetKey(a.name, i.target).Some? ==> Decided(w, v, a, i, Rebuilt(w, a, id).value, reply))
  {
    RebuiltMeans(w, a, id);
    ReconcileObserves(w, a, id);
    var i, b := w.journal.records[id].intent, Rebuilt(w, a, id).value;
    ObserveLocal(w, a, b, i, Smooth);
    ObserveCloses(w, a, id, b, Smooth);
    if FS.TargetKey(a.name, i.target).Some? { ObserveDecides(w, a, id, b, Smooth); }
  }

  // ---- an operation that shares its digest with no other ----

  /** Then the target says VERIFIED exactly when the current pointer names the operation, and never nothing certain. */
  lemma UnsharedShows(w: World, a: Adapter, id: string)
    requires Inv(w, a) && id in w.journal.records && Unshared(w.journal, id)
    requires FS.TargetKey(a.name, w.journal.records[id].intent.target).Some?
    ensures SeenIn(w, a, w.journal.records[id].intent) ==
            Some(if PointerNames(w, a, w.journal.records[id].intent) then Verified else Failed)
  {
    var i := w.journal.records[id].intent;
    var d, reg := TargetDir(w, a, i), RegistryOf(w.journal, a, i.target);
    OwnId(w.journal, id);
    assert FiledOf(w.journal, a, i.target, d);
    RegistryWellFormed(w.journal, a, i.target);
    if d.current.Some? {
      assert SD.GoodPointer(d, reg, d.current.value) && FS.SoundVersion(d, reg, d.current.value.digest);
    }
  }

  function OwnEvent(a: Adapter, i: Intent): Event
    requires Dumpable(Seen(i))
  {
    Event(Verified, Some(SeenAt(a, i)), Some(DigestOf(Seen(i))))
  }

  /** And its VERIFIED event is its own. */
  lemma UnsharedVerified(w: World, a: Adapter, id: string)
    requires Inv(w, a) && id in w.journal.records && Unshared(w.journal, id) && CurrentStateOf(w, id) == Verified
    ensures
      var r := w.journal.records[id];
      Dumpable(Seen(r.intent)) && r.events != [] && Last(r.events) == OwnEvent(a, r.intent)
  {
    var r := w.journal.records[id];
    assert WellRecorded(a, w.journal, r);
    var x :| ShownBy(w.journal, r.intent, x, Last(r.events).readback.value);
    assert x == id;
  }

  // ---- the current-pointer swap ----

  lemma OutcomesAreVerified(w: World, a: Adapter, id: string)
    requires Inv(w, a) && id in w.outcomes
    ensures id in w.journal.records && CurrentStateOf(w, id) == Verified
  {
    assert ExactOutcome(a, w.journal.records[id], w.outcomes[id]);
  }

  /** Nothing of an operation that was never attempted is on disk or among the outcomes. */
  lemma NotYetFiled(w: World, a: Adapter, id: string)
    requires Inv(w, a) && id in w.journal.records && w.journal.records[id].events == []
    requires FS.TargetKey(a.name, w.journal.records[id].intent.target).Some?
    ensures
      var i := w.journal.records[id].intent;
      && i.id == id && GoodIntent(i) && id !in TargetDir(w, a, i).receipts && !PointerNames(w, a, i)
      && id !in w.outcomes
  {
    var i := w.journal.records[id].intent;
    assert GoodRecord(w.journal, id);
    assert FiledOf(w.journal, a, i.target, TargetDir(w, a, i));
    if id in w.outcomes { OutcomesAreVerified(w, a, id); }
  }

  lemma AttemptSucceeds(w: World, id: string, note: Option<string>)
    requires id in w.journal.records && w.journal.records[id].events == []
    ensures
      var (v, e) := Append1(w, id, Attempt(note));
      e.Ok? && v.dirs == w.dirs && v.outcomes == w.outcomes && CurrentStateOf(v, id) == Attempted
  {
  }

  lemma LaunchStops(w: World, a: Adapter, b: InjectionBinding, i: Intent, t: Trouble)
    requires b.Executable() && Append1(w, i.id, Attempt(Some("binding:" + b.id))).1.Ok?
    ensures
      var v := Append1(w, i.id, Attempt(Some("binding:" + b.id))).0;
      Launch(w, a, b, i, t) == if Stops(t, 2) then (v, Dead) else Dispatch(v, a, b, i, t)
  {
  }

  lemma NoWritesWhenStopped(t: Trouble)
    requires Stops(t, 2)
    ensures FileWrites(t) == 0
  {
  }

  lemma HandleWrites(w: World, a: Adapter, i: Intent, writes: nat)
    requires GoodIntent(i) && Writable(a, i) && i.id !in TargetDir(w, a, i).receipts
    ensures TargetDir(Handle(w, a, i, writes).0, a, i) == FS.Written(TargetDir(w, a, i), RequestOf(i), writes)
  {
    EffectDumpable(i);
  }

  lemma LaunchWrites(w: World, a: Adapter, id: string, b: InjectionBinding, t: Trouble)
    requires Inv(w, a) && id in w.journal.records && w.journal.records[id].events == [] && b.Executable()
    requires Writable(a, w.journal.records[id].intent)
    ensures
      var i := w.journal.records[id].intent;
      TargetDir(Launch(w, a, b, i, t).0, a, i) == FS.Written(TargetDir(w, a, i), RequestOf(i), FileWrites(t))
  {
    var i, note := w.journal.records[id].intent, Some("binding:" + b.id);
    NotYetFiled(w, a, id);
    AttemptSucceeds(w, id, note);
    LaunchStops(w, a, b, i, t);
    var v := Append1(w, id, Attempt(note)).0;
    if Stops(t, 2) {
      NoWritesWhenStopped(t);
    } else {
      DispatchLocal(v, a, b, i, t);
      HandleWrites(v, a, i, FileWrites(t));
    }
  }

  lemma WrittenNames(w: World, v: World, a: Adapter, i: Intent, t: Trouble)
    requires FS.TargetKey(a.name, i.target).Some? && !PointerNames(w, a, i)
    requires TargetDir(v, a, i) == FS.Written(TargetDir(w, a, i), RequestOf(i), FileWrites(t))
    ensures PointerNames(v, a, i) <==> FileWrites(t) == 3
  {
    assert FileWrites(t) <= 3;
  }

  /** A first run leaves the current pointer on its operation exactly when all three files were written. */
  lemma LaunchSwaps(w: World, a: Adapter, id: string, b: InjectionBinding, t: Trouble)
    requires Inv(w, a) && id in w.journal.records && w.journal.records[id].events == [] && b.Executable()
    requires Writable(a, w.journal.records[id].intent)
    ensures
      var i := w.journal.records[id].intent;
      PointerNames(Launch(w, a, b, i, t).0, a, i) <==> FileWrites(t) == 3
  {
    var i := w.journal.records[id].intent;
    NotYetFiled(w, a, id);
    LaunchWrites(w, a, id, b, t);
    var v := Launch(w, a, b, i, t).0;
    WrittenNames(w, v, a, i, t);
  }

  // ---- delivery ----

  lemma DispatchSmooth(w: World, a: Adapter, b: InjectionBinding, i: Intent)
    requires b.Executable() && Handle(w, a, i, 3).1.None?
    ensures Dispatch(w, a, b, i, Smooth) == Observe(Handle(w, a, i, 3).0, a, b, i, Smooth)
  {
  }

  /**
   VERIFIED by its own event after one attempt, with the expected outcome recorded; all three files written.
   */
  ghost predicate Delivered(w: World, v: World, a: Adapter, i: Intent, b: InjectionBinding, reply: Reply)
    requires b.Executable() && FS.TargetKey(a.name, i.target).Some? && Dumpable(Seen(i))
  {
    var o := ExpectedOutcome(a, i, b);
    && i.id in v.journal.records && v.journal.records[i.id].intent == i
    && v.journal.records[i.id].events == [Recorded(Attempt(Some("binding:" + b.id))), OwnEvent(a, i)]
    && v.outcomes == w.outcomes[i.id := o] && reply == Finished(i.id, Verified, Some(o))
    && TargetDir(v, a, i) == FS.Written(TargetDir(w, a, i), RequestOf(i), 3)
  }

  lemma HandleCompletes(w: World, a: Adapter, i: Intent)
    requires GoodIntent(i) && Writable(a, i) && i.id !in TargetDir(w, a, i).receipts
    ensures Handle(w, a, i, 3).1.None? && Handle(w, a, i, 3).0.outcomes == w.outcomes
    ensures SeenIn(Handle(w, a, i, 3).0, a, i) == Some(Verified) && PointerNames(Handle(w, a, i, 3).0, a, i)
  {
    EffectDumpable(i);
    HandleWrites(w, a, i, 3);
  }

  lemma ObserveApplies(w: World, a: Adapter, b: InjectionBinding, i: Intent, t: Trouble)
    requires b.Executable() && FS.TargetKey(a.name, i.target).Some?
    ensures Observe(w, a, b, i, t) == ApplyReadback(w, b, i, ReadbackOf(w, a, i), t)
  {
  }

  lemma AppendedEvent(w: World, id: string, call: Call)
    requires id in w.journal.records && Append1(w, id, call).1.Ok?
    ensures
      var v := Append1(w, id, call).0;
      && v.dirs == w.dirs && v.outcomes == w.outcomes && id in v.journal.records
      && v.journal.records[id].events == w.journal.records[id].events + [Recorded(call)]
      && v.journal.records[id].intent == w.journal.records[id].intent
  {
  }

  lemma OwnVerdict(a: Adapter, i: Intent, r: FS.Readback)
    requires r.verdict.FoundVerified? && r.evidence == SeenAt(a, i)
    requires Dumpable(Plain(r.verdict.observed)) && Plain(r.verdict.observed) == Seen(i)
    ensures Recorded(Verdict(i, r)) == OwnEvent(a, i)
  {
  }

  lemma OwnReading(w: World, a: Adapter, id: string)
    requires Inv(w, a) && id in w.journal.records
    requires FS.TargetKey(a.name, w.journal.records[id].intent.target).Some?
    requires SeenIn(w, a, w.journal.records[id].intent) == Some(Verified)
    requires PointerNames(w, a, w.journal.records[id].intent)
    ensures Dumpable(Seen(w.journal.records[id].intent))
    ensures
      var i := w.journal.records[id].intent;
      Recorded(Verdict(i, ReadbackOf(w, a, i))) == OwnEvent(a, i)
  {
    var i := w.journal.records[id].intent;
    OwnId(w.journal, id);
    ReadShows(w, a, i);
    OwnVerdict(a, i, ReadbackOf(w, a, i));
  }

  lemma ConcludedOver(
    w: World, u: World, a: Adapter, i: Intent, b: InjectionBinding, call: Call, v: World, reply: Reply)
    requires b.Executable() && i.id in w.journal.records && i.id in u.journal.records
    requires u.dirs == w.dirs && u.outcomes == w.outcomes && u.journal.records[i.id].intent == i
    requires u.journal.records[i.id].events == w.journal.records[i.id].events + [Recorded(call)]
    requires Dumpable(Seen(i)) && Recorded(call) == OwnEvent(a, i)
    requires
      var o := ExpectedOutcome(a, i, b);
      (v, reply) == (u.(outcomes := u.outcomes[i.id := o]), Finished(i.id, Verified, Some(o)))
    ensures
      var o := ExpectedOutcome(a, i, b);
      && i.id in v.journal.records && v.journal.records[i.id].intent == i && v.dirs == w.dirs
      && v.journal.records[i.id].events == w.journal.records[i.id].events + [OwnEvent(a, i)]
      && v.outcomes == w.outcomes[i.id := o] && reply == Finished(i.id, Verified, Some(o))
  {
  }

  /** Observing an operation whose own effect is shown appends its own event and records its outcome. */
  lemma ObserveDelivers(w: World, a: Adapter, id: string, b: InjectionBinding)
    requires Inv(w, a) && id in w.journal.records && Open(w, id) && MadeFor(w.journal.records[id].intent, b)
    requires FS.TargetKey(a.name, w.journal.records[id].intent.target).Some?
    requires SeenIn(w, a, w.journal.records[id].intent) == Some(Verified)
    requires PointerNames(w, a, w.journal.records[id].intent)
    ensures Dumpable(Seen(w.journal.records[id].intent))
    ensures
      var i := w.journal.records[id].intent;
      var (v, reply) := Observe(w, a, b, i, Smooth);
      var o := ExpectedOutcome(a, i, b);
      && id in v.journal.records && v.journal.records[id].events == w.journal.records[id].events + [OwnEvent(a, i)]
      && v.journal.records[id].intent == i && v.dirs == w.dirs
      && v.outcomes == w.outcomes[id := o] && reply == Finished(id, Verified, Some(o))
  {
    var i := w.journal.records[id].intent;
    var call := Verdict(i, ReadbackOf(w, a, i));
    var u := Append1(w, id, call).0;
    OwnId(w.journal, id);
    OwnReading(w, a, id);
    VerdictRecorded(w, a, id);
    AppendedEvent(w, id, call);
    ApplyConcludes(w, a, id, b, Smooth);
    ConcludeRecords(u, a, id, b);
    ObserveApplies(w, a, b, i, Smooth);
    var r := Observe(w, a, b, i, Smooth);
    ConcludedOver(w, u, a, i, b, call, r.0, r.1);
  }

  lemma DeliveredFrom(w: World, h: World, a: Adapter, i: Intent, b: InjectionBinding, v: World, reply: Reply)
    requires b.Executable() && FS.TargetKey(a.name, i.target).Some? && Dumpable(Seen(i))
    requires TargetDir(h, a, i) == FS.Written(TargetDir(w, a, i), RequestOf(i), 3) && h.outcomes == w.outcomes
    requires i.id in v.journal.records && v.journal.records[i.id].intent == i && v.dirs == h.dirs
    requires v.journal.records[i.id].events == [Recorded(Attempt(Some("binding:" + b.id)))] + [OwnEvent(a, i)]
    requires
      var o := ExpectedOutcome(a, i, b);
      v.outcomes == h.outcomes[i.id := o] && reply == Finished(i.id, Verified, Some(o))
    ensures Delivered(w, v, a, i, b, reply)
  {
  }

  lemma DispatchDelivers(w: World, a: Adapter, id: string, b: InjectionBinding)
    requires Inv(w, a) && id in w.journal.records && CurrentStateOf(w, id) == Attempted
    requires MadeFor(w.journal.records[id].intent, b) && Writable(a, w.journal.records[id].intent)
    requires w.journal.records[id].events == [Recorded(Attempt(Some("binding:" + b.id)))]
    requires id !in TargetDir(w, a, w.journal.records[id].intent).receipts
    ensures Dumpable(Seen(w.journal.records[id].intent))
    ensures
      var i := w.journal.records[id].intent;
      var r := Dispatch(w, a, b, i, Smooth);
      Delivered(w, r.0, a, i, b, r.1)
  {
    var i := w.journal.records[id].intent;
    assert GoodRecord(w.journal, id);
    EffectDumpable(i);
    HandleWrites(w, a, i, 3);
    HandleCompletes(w, a, i);
    HandleKeepsInv(w, a, id, 3);
    HandleKeepsJournal(w, a, i, 3);
    DispatchSmooth(w, a, b, i);
    var h := Handle(w, a, i, 3).0;
    ObserveDelivers(h, a, id, b);
    var r := Observe(h, a, b, i, Smooth);
    DeliveredFrom(w, h, a, i, b, r.0, r.1);
  }

  /** An undisturbed first run delivers, whatever the target held before and whatever other operations share. */
  lemma LaunchDelivers(w: World, a: Adapter, id: string, b: InjectionBinding)
    requires Inv(w, a) && id in w.journal.records && w.journal.records[id].events == []
    requires MadeFor(w.journal.records[id].intent, b) && Writable(a, w.journal.records[id].intent)
    ensures Dumpable(Seen(w.journal.records[id].intent))
    ensures
      var i := w.journal.records[id].intent;
      var r := Launch(w, a, b, i, Smooth);
      i.id == id && Delivered(w, r.0, a, i, b, r.1)
  {
    var i, note := w.journal.records[id].intent, Some("binding:" + b.id);
    NotYetFiled(w, a, id);
    EffectDumpable(i);
    AttemptSucceeds(w, id, note);
    AttemptStored(w, id, note);
    AppendKeepsInv(w, a, id, Attempt(note));
    var v := Append1(w, id, Attempt(note)).0;
    LaunchStops(w, a, b, i, Smooth);
    DispatchDelivers(v, a, id, b);
    var r := Dispatch(v, a, b, i, Smooth);
    DeliveredOver(w, v, r.0, a, i, b, r.1);
  }

  lemma DeliveredOver(w: World, v: World, u: World, a: Adapter, i: Intent, b: InjectionBinding, reply: Reply)
    requires b.Executable() && FS.TargetKey(a.name, i.target).Some? && Dumpable(Seen(i))
    requires Delivered(v, u, a, i, b, reply) && v.outcomes == w.outcomes && v.dirs == w.dirs
    ensures Delivered(w, u, a, i, b, reply)
  {
  }

  /** What delivery leaves: VERIFIED, with the current pointer on the operation and its own version file under it. */
  lemma DeliveredMeans(w: World, v: World, a: Adapter, i: Intent, b: InjectionBinding, reply: Reply)
    requires b.Executable() && FS.TargetKey(a.name, i.target).Some? && Dumpable(Seen(i))
    requires Delivered(w, v, a, i, b, reply)
    ensures CurrentStateOf(v, i.id) == Verified && i.id in v.outcomes && v.outcomes[i.id] == ExpectedOutcome(a, i, b)
    ensures PointerNames(v, a, i) && SeenIn(v, a, i) == Some(Verified)
  {
  }
}
