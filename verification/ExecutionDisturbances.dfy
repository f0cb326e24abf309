/** How a first run ends under every disturbance, and how a reconcile does: histories, outcomes, files and answers. */
module ExecutionDisturbances {
  import opened Prelude
  import opened Json
  import opened Operations
  import opened Bindings
  import opened Execution
  import opened ExecutionInvariants
  import opened ExecutionSteps
  import opened ExecutionTheorems
  import FS = FileStore

  // ---- the first run of an operation ----

  lemma ExecuteLaunches(w: World, a: Adapter, job: Job, newId: string, t: Trouble, b: InjectionBinding)
    requires Choose(w, a, job) == Ok(b) && b.Executable() && PreparedIn(w.journal, a, b, job, newId).1.Ok?
    ensures
      var (j, prepared) := PreparedIn(w.journal, a, b, job, newId);
      var v := w.(journal := j);
      Execute(w, a, job, newId, t) ==
        if Stops(t, 0) then (w, Dead) else if Stops(t, 1) then (v, Dead) else Launch(v, a, b, prepared.value.intent, t)
  {
  }

  /** The prepared operation has no event yet: it is new, or left PREPARED by an earlier crash. */
  ghost predicate FirstRun(w: World, a: Adapter, b: InjectionBinding, job: Job, newId: string)
    requires b.Executable()
  {
    var (j, prepared) := PreparedIn(w.journal, a, b, job, newId);
    prepared.Ok? && var i := prepared.value.intent; i.id in j.records && j.records[i.id].events == [] && Writable(a, i)
  }

  lemma NotOpenBefore(w: World, a: Adapter, b: InjectionBinding, job: Job, newId: string)
    requires Kept(w.journal) && b.Executable() && FirstRun(w, a, b, job, newId)
    ensures
      var (j, prepared) := PreparedIn(w.journal, a, b, job, newId);
      !Open(w, prepared.value.intent.id) && !Open(w.(journal := j), prepared.value.intent.id)
  {
    PrepareInserts(w.journal, a, b, job, newId);
  }

  /** The world in which the operation is prepared. */
  lemma PreparedAs(w: World, a: Adapter, job: Job, newId: string, b: InjectionBinding)
    requires Inv(w, a) && Cleared(w.tables, a, b) && FirstRun(w, a, b, job, newId)
    ensures
      var (j, prepared) := PreparedIn(w.journal, a, b, job, newId);
      var i := prepared.value.intent;
      && Inv(w.(journal := j), a) && i.id in j.records && j.records[i.id].intent == i && j.records[i.id].events == []
      && GoodIntent(i) && MadeFor(i, b) && i.id !in w.outcomes && i.id !in TargetDir(w, a, i).receipts
      && !PointerNames(w, a, i)
  {
    var (j, prepared) := PreparedIn(w.journal, a, b, job, newId);
    ClearedPrepares(w, a, job, newId, b);
    PreparedPayload(w.journal, a, b, job, newId);
    ClearedGoverned(w, a, job, newId, b);
    NotYetFiled(w.(journal := j), a, prepared.value.intent.id);
  }

  lemma ChosenNow(w: World, a: Adapter, job: Job, b: InjectionBinding)
    requires Constructed(job.bindings) && Choose(w, a, job) == Ok(b)
    ensures Cleared(w.tables, a, b)
  {
    ChosenFrom(w, a, job, b);
    MonotoneReflexive(w.tables);
    ChosenCleared(w, a, job, b, w.tables);
  }

  // ---- histories ----

  function Began(b: InjectionBinding): Event { Event(Attempted, Some("binding:" + b.id), None) }

  function Doubts(what: string, a: Adapter): Event {
    Event(Ambiguous, Some(what + a.name + "@" + a.version), None)
  }

  /** The operation's history; no new outcome; and its target after so many of the handler's three writes. */
  ghost predicate Leaves(w: World, v: World, a: Adapter, i: Intent, events: seq<Event>, writes: nat) {
    && i.id in v.journal.records && v.journal.records[i.id] == Record(i, events) && v.outcomes == w.outcomes
    && FS.TargetKey(a.name, i.target).Some?
    && TargetDir(v, a, i) == FS.Written(TargetDir(w, a, i), RequestOf(i), writes)
  }

  /** The journal's verdict on its own effect, with the outcome still missing. */
  ghost predicate Unrecorded(w: World, v: World, a: Adapter, i: Intent, b: InjectionBinding) {
    Dumpable(Seen(i)) && Leaves(w, v, a, i, [Began(b), OwnEvent(a, i)], 3)
  }

  /** How a launched operation ends. */
  ghost predicate Ends(w: World, v: World, a: Adapter, i: Intent, b: InjectionBinding, t: Trouble, reply: Reply)
    requires b.Executable() && FS.TargetKey(a.name, i.target).Some? && Dumpable(Seen(i))
  {
    match t
    case Smooth => Delivered(w, v, a, i, b, reply)
    case HandlerRaises(n) =>
      && Leaves(w, v, a, i, [Began(b), Doubts("execute-exception:", a)], if n < 3 then n else 3)
      && reply == Raised(HandlerInterrupted)
    case ReadbackRaises =>
      Leaves(w, v, a, i, [Began(b), Doubts("readback-exception:", a)], 3) && reply == Raised(ReadbackRaised)
    case CrashAfter(n) =>
      if n < 2 then Leaves(w, v, a, i, [], 0) && reply == Dead
      else if n < 6 then Leaves(w, v, a, i, [Began(b)], n - 2) && reply == Dead
      else if n == 6 then Unrecorded(w, v, a, i, b) && reply == Dead
      else Delivered(w, v, a, i, b, reply)
  }

  // ---- the handler and what follows it ----

  lemma HandleEnds(w: World, a: Adapter, i: Intent, writes: nat)
    requires GoodIntent(i) && Writable(a, i) && i.id !in TargetDir(w, a, i).receipts
    ensures
      var (v, fault) := Handle(w, a, i, writes);
      && TargetDir(v, a, i) == FS.Written(TargetDir(w, a, i), RequestOf(i), writes)
      && v.journal == w.journal && v.outcomes == w.outcomes
      && fault == (if writes >= 3 then None else Some(FS.Died))
  {
    EffectDumpable(i);
  }

  lemma DispatchDies(w: World, a: Adapter, b: InjectionBinding, i: Intent, writes: nat)
    requires b.Executable() && 1 <= writes <= 3
    requires Handle(w, a, i, writes).1 == if writes == 3 then None else Some(FS.Died)
    ensures Dispatch(w, a, b, i, CrashAfter(writes + 2)) == (Handle(w, a, i, writes).0, Dead)
  {
  }

  lemma DispatchInterrupted(w: World, a: Adapter, b: InjectionBinding, i: Intent, n: nat)
    requires b.Executable()
    ensures
      var h := Handle(w, a, i, if n < 3 then n else 3).0;
      Dispatch(w, a, b, i, HandlerRaises(n)) ==
        Doubt(h, i.id, "execute-exception:" + a.name + "@" + a.version, HandlerInterrupted)
  {
  }

  lemma DispatchUnread(w: World, a: Adapter, b: InjectionBinding, i: Intent)
    requires b.Executable() && Handle(w, a, i, 3).1.None?
    ensures
      Dispatch(w, a, b, i, ReadbackRaises) ==
        Doubt(Handle(w, a, i, 3).0, i.id, "readback-exception:" + a.name + "@" + a.version, ReadbackRaised)
  {
  }

  /** Doubting an attempted operation stores the exception's evidence, then raises it. */
  lemma DoubtStores(w: World, a: Adapter, id: string, what: string, stop: Stop)
    requires id in w.journal.records && CurrentStateOf(w, id) == Attempted && what != "" && what[0] != ' '
    ensures
      var (v, reply) := Doubt(w, id, what + a.name + "@" + a.version, stop);
      && v.dirs == w.dirs && v.outcomes == w.outcomes && id in v.journal.records && reply == Raised(stop)
      && v.journal.records[id] ==
           Record(w.journal.records[id].intent, w.journal.records[id].events + [Doubts(what, a)])
  {
    var evidence := what + a.name + "@" + a.version;
    assert evidence[0] == what[0];
    assert w.journal.records[id].events != [];
  }

  // ---- from the stored attempt ----

  /** The attempt is the operation's whole history, and nothing of it is on disk. */
  ghost predicate Attempting(w: World, a: Adapter, i: Intent, b: InjectionBinding) {
    && GoodIntent(i) && MadeFor(i, b) && Writable(a, i) && i.id !in TargetDir(w, a, i).receipts
    && i.id in w.journal.records && w.journal.records[i.id] == Record(i, [Began(b)])
  }

  /** The handler left the journal alone and made so many of its writes. */
  ghost predicate Handled(w: World, h: World, a: Adapter, i: Intent, writes: nat) {
    && h.journal == w.journal && h.outcomes == w.outcomes && FS.TargetKey(a.name, i.target).Some?
    && TargetDir(h, a, i) == FS.Written(TargetDir(w, a, i), RequestOf(i), writes)
  }

  lemma DoubtEnds(
    w: World, h: World, a: Adapter, i: Intent, b: InjectionBinding, what: string, stop: Stop, writes: nat)
    requires Attempting(w, a, i, b) && Handled(w, h, a, i, writes) && what != "" && what[0] != ' '
    ensures
      var (v, reply) := Doubt(h, i.id, what + a.name + "@" + a.version, stop);
      Leaves(w, v, a, i, [Began(b), Doubts(what, a)], writes) && reply == Raised(stop)
  {
    DoubtStores(h, a, i.id, what, stop);
    assert [Began(b)] + [Doubts(what, a)] == [Began(b), Doubts(what, a)];
  }

  lemma InterruptedEnds(w: World, a: Adapter, i: Intent, b: InjectionBinding, n: nat)
    requires Attempting(w, a, i, b)
    ensures
      var (v, reply) := Dispatch(w, a, b, i, HandlerRaises(n));
      && Leaves(w, v, a, i, [Began(b), Doubts("execute-exception:", a)], if n < 3 then n else 3)
      && reply == Raised(HandlerInterrupted)
  {
    var writes := if n < 3 then n else 3;
    HandleEnds(w, a, i, writes);
    DispatchInterrupted(w, a, b, i, n);
    DoubtEnds(w, Handle(w, a, i, writes).0, a, i, b, "execute-exception:", HandlerInterrupted, writes);
  }

  lemma UnreadEnds(w: World, a: Adapter, i: Intent, b: InjectionBinding)
    requires Attempting(w, a, i, b)
    ensures
      var (v, reply) := Dispatch(w, a, b, i, ReadbackRaises);
      && Leaves(w, v, a, i, [Began(b), Doubts("readback-exception:", a)], 3) && reply == Raised(ReadbackRaised)
  {
    HandleEnds(w, a, i, 3);
    DispatchUnread(w, a, b, i);
    DoubtEnds(w, Handle(w, a, i, 3).0, a, i, b, "readback-exception:", ReadbackRaised, 3);
  }

  lemma DeadEnds(w: World, h: World, a: Adapter, i: Intent, b: InjectionBinding, writes: nat)
    requires Attempting(w, a, i, b) && Handled(w, h, a, i, writes)
    ensures Leaves(w, h, a, i, [Began(b)], writes)
  {
  }

  lemma DyingEnds(w: World, a: Adapter, i: Intent, b: InjectionBinding, writes: nat)
    requires Attempting(w, a, i, b) && 1 <= writes <= 3
    ensures
      var (v, reply) := Dispatch(w, a, b, i, CrashAfter(writes + 2));
      Leaves(w, v, a, i, [Began(b)], writes) && reply == Dead
  {
    var h := Handle(w, a, i, writes).0;
    HandleEnds(w, a, i, writes);
    DeadEnds(w, h, a, i, b, writes);
    DispatchDies(w, a, b, i, writes);
  }

  lemma DispatchLate(w: World, a: Adapter, b: InjectionBinding, i: Intent, n: nat)
    requires b.Executable() && n >= 6 && Handle(w, a, i, 3).1.None?
    ensures Dispatch(w, a, b, i, CrashAfter(n)) == Observe(Handle(w, a, i, 3).0, a, b, i, CrashAfter(n))
  {
  }

  lemma ObserveLate(w: World, a: Adapter, b: InjectionBinding, i: Intent, n: nat)
    requires b.Executable() && n >= 7
    ensures Observe(w, a, b, i, CrashAfter(n)) == Observe(w, a, b, i, Smooth)
  {
  }

  /** Dying between the verdict and the outcome. */
  lemma ObserveUnrecorded(w: World, a: Adapter, id: string, b: InjectionBinding)
    requires Inv(w, a) && id in w.journal.records && Open(w, id) && MadeFor(w.journal.records[id].intent, b)
    requires FS.TargetKey(a.name, w.journal.records[id].intent.target).Some?
    requires SeenIn(w, a, w.journal.records[id].intent) == Some(Verified)
    requires PointerNames(w, a, w.journal.records[id].intent)
    ensures Dumpable(Seen(w.journal.records[id].intent))
    ensures
      var i := w.journal.records[id].intent;
      var (v, reply) := Observe(w, a, b, i, CrashAfter(6));
      && v.dirs == w.dirs && v.outcomes == w.outcomes && id in v.journal.records && reply == Dead
      && v.journal.records[id] == Record(i, w.journal.records[id].events + [OwnEvent(a, i)])
  {
    var i := w.journal.records[id].intent;
    var r := ReadbackOf(w, a, i);
    OwnId(w.journal, id);
    ReadShows(w, a, i);
    OwnReading(w, a, id);
    VerdictRecorded(w, a, id);
    AppendedEvent(w, id, Verdict(i, r));
    ObserveApplies(w, a, b, i, CrashAfter(6));
    ApplySplits(w, b, i, r, CrashAfter(6));
  }

  lemma UnrecordedFrom(w: World, h: World, v: World, a: Adapter, i: Intent, b: InjectionBinding)
    requires Attempting(w, a, i, b) && Handled(w, h, a, i, 3) && Dumpable(Seen(i))
    requires v.dirs == h.dirs && v.outcomes == h.outcomes && i.id in v.journal.records
    requires v.journal.records[i.id] == Record(i, h.journal.records[i.id].events + [OwnEvent(a, i)])
    ensures Unrecorded(w, v, a, i, b)
  {
    assert [Began(b)] + [OwnEvent(a, i)] == [Began(b), OwnEvent(a, i)];
  }

  lemma UnrecordedEnds(w: World, a: Adapter, i: Intent, b: InjectionBinding)
    requires Inv(w, a) && Attempting(w, a, i, b)
    ensures
      var (v, reply) := Dispatch(w, a, b, i, CrashAfter(6));
      Unrecorded(w, v, a, i, b) && reply == Dead
  {
    var h := Handle(w, a, i, 3).0;
    HandleEnds(w, a, i, 3);
    HandleCompletes(w, a, i);
    HandleKeepsInv(w, a, i.id, 3);
    DispatchLate(w, a, b, i, 6);
    ObserveUnrecorded(h, a, i.id, b);
    UnrecordedFrom(w, h, Observe(h, a, b, i, CrashAfter(6)).0, a, i, b);
  }

  lemma LateEnds(w: World, a: Adapter, i: Intent, b: InjectionBinding, n: nat)
    requires Inv(w, a) && Attempting(w, a, i, b) && n >= 7
    ensures Dumpable(Seen(i))
    ensures
      var r := Dispatch(w, a, b, i, CrashAfter(n));
      Delivered(w, r.0, a, i, b, r.1)
  {
    HandleEnds(w, a, i, 3);
    DispatchLate(w, a, b, i, n);
    ObserveLate(Handle(w, a, i, 3).0, a, b, i, n);
    DispatchSmooth(w, a, b, i);
    DispatchDelivers(w, a, i.id, b);
  }

  lemma DispatchEnds(w: World, a: Adapter, i: Intent, b: InjectionBinding, t: Trouble)
    requires Inv(w, a) && Attempting(w, a, i, b) && !Stops(t, 2)
    ensures Dumpable(Seen(i))
    ensures
      var r := Dispatch(w, a, b, i, t);
      Ends(w, r.0, a, i, b, t, r.1)
  {
    DispatchDelivers(w, a, i.id, b);
    match t
    case Smooth =>
    case HandlerRaises(n) => InterruptedEnds(w, a, i, b, n);
    case ReadbackRaises => UnreadEnds(w, a, i, b);
    case CrashAfter(n) =>
      if n <= 5 { DyingEnds(w, a, i, b, n - 2); }
      else if n == 6 { UnrecordedEnds(w, a, i, b); }
      else { LateEnds(w, a, i, b, n); }
  }

  // ---- from the prepared operation ----

  lemma LaunchAttempts(w: World, a: Adapter, id: string, b: InjectionBinding)
    requires Inv(w, a) && id in w.journal.records && w.journal.records[id].events == []
    requires MadeFor(w.journal.records[id].intent, b) && Writable(a, w.journal.records[id].intent)
    ensures
      var i := w.journal.records[id].intent;
      var (v, e) := Append1(w, id, Attempt(Some("binding:" + b.id)));
      && e.Ok? && i.id == id && Inv(v, a) && v.dirs == w.dirs && v.outcomes == w.outcomes && Attempting(v, a, i, b)
  {
    var note := Some("binding:" + b.id);
    NotYetFiled(w, a, id);
    AttemptSucceeds(w, id, note);
    AttemptStored(w, id, note);
    AppendKeepsInv(w, a, id, Attempt(note));
  }

  lemma EndsOver(
    w: World, v: World, u: World, a: Adapter, i: Intent, b: InjectionBinding, t: Trouble, reply: Reply)
    requires b.Executable() && FS.TargetKey(a.name, i.target).Some? && Dumpable(Seen(i))
    requires Ends(v, u, a, i, b, t, reply) && v.outcomes == w.outcomes && v.dirs == w.dirs
    ensures Ends(w, u, a, i, b, t, reply)
  {
    DeliveredOverAny(w, v, u, a, i, b, reply);
  }

  lemma DeliveredOverAny(w: World, v: World, u: World, a: Adapter, i: Intent, b: InjectionBinding, reply: Reply)
    requires b.Executable() && FS.TargetKey(a.name, i.target).Some? && Dumpable(Seen(i))
    requires v.outcomes == w.outcomes && v.dirs == w.dirs
    ensures Delivered(v, u, a, i, b, reply) ==> Delivered(w, u, a, i, b, reply)
  {
  }

  lemma StoppedEnds(w: World, v: World, a: Adapter, i: Intent, b: InjectionBinding, t: Trouble)
    requires Attempting(v, a, i, b) && Stops(t, 2) && !Stops(t, 1) && v.dirs == w.dirs && v.outcomes == w.outcomes
    requires Dumpable(Seen(i))
    ensures Ends(w, v, a, i, b, t, Dead)
  {
  }

  lemma UnattemptedEnds(w: World, v: World, a: Adapter, i: Intent, b: InjectionBinding, t: Trouble)
    requires b.Executable() && Dumpable(Seen(i)) && FS.TargetKey(a.name, i.target).Some?
    requires i.id in v.journal.records && v.journal.records[i.id] == Record(i, []) && Stops(t, 1)
    requires v.dirs == w.dirs && v.outcomes == w.outcomes
    ensures Ends(w, v, a, i, b, t, Dead) && Local(v, v, a, i)
  {
  }

  lemma LaunchEnds(w: World, a: Adapter, id: string, b: InjectionBinding, t: Trouble)
    requires Inv(w, a) && id in w.journal.records && w.journal.records[id].events == [] && !Stops(t, 1)
    requires MadeFor(w.journal.records[id].intent, b) && Writable(a, w.journal.records[id].intent)
    ensures Dumpable(Seen(w.journal.records[id].intent))
    ensures
      var i := w.journal.records[id].intent;
      var r := Launch(w, a, b, i, t);
      Ends(w, r.0, a, i, b, t, r.1)
  {
    var i := w.journal.records[id].intent;
    LaunchAttempts(w, a, id, b);
    LaunchStops(w, a, b, i, t);
    EffectDumpable(i);
    var v := Append1(w, id, Attempt(Some("binding:" + b.id))).0;
    if Stops(t, 2) {
      StoppedEnds(w, v, a, i, b, t);
    } else {
      DispatchEnds(v, a, i, b, t);
      var r := Dispatch(v, a, b, i, t);
      EndsOver(w, v, r.0, a, i, b, t, r.1);
    }
  }

  // ---- the whole run ----

  /** How the run goes on in the world in which its operation is prepared. */
  function Onward(w1: World, a: Adapter, b: InjectionBinding, i: Intent, t: Trouble): (World, Reply)
    requires b.Executable()
  {
    if Stops(t, 1) then (w1, Dead) else Launch(w1, a, b, i, t)
  }

  lemma LaunchedEnds(w: World, w1: World, a: Adapter, id: string, b: InjectionBinding, t: Trouble)
    requires Inv(w1, a) && id in w1.journal.records && w1.journal.records[id].events == [] && !Stops(t, 1)
    requires MadeFor(w1.journal.records[id].intent, b) && Writable(a, w1.journal.records[id].intent)
    requires w1.dirs == w.dirs && w1.outcomes == w.outcomes
    ensures Dumpable(Seen(w1.journal.records[id].intent))
    ensures
      var i := w1.journal.records[id].intent;
      var r := Launch(w1, a, b, i, t);
      Ends(w, r.0, a, i, b, t, r.1) && Local(w1, r.0, a, i)
  {
    var i := w1.journal.records[id].intent;
    LaunchLocal(w1, a, b, i, t);
    LaunchEnds(w1, a, id, b, t);
    var r := Launch(w1, a, b, i, t);
    EndsOver(w, w1, r.0, a, i, b, t, r.1);
  }

  lemma OnwardEnds(w: World, w1: World, a: Adapter, id: string, b: InjectionBinding, t: Trouble)
    requires Inv(w1, a) && id in w1.journal.records && w1.journal.records[id].events == []
    requires w1.journal.records[id].intent.id == id && GoodIntent(w1.journal.records[id].intent)
    requires MadeFor(w1.journal.records[id].intent, b) && Writable(a, w1.journal.records[id].intent)
    requires w1.dirs == w.dirs && w1.outcomes == w.outcomes
    ensures Dumpable(Seen(w1.journal.records[id].intent))
    ensures
      var i := w1.journal.records[id].intent;
      var r := Onward(w1, a, b, i, t);
      Ends(w, r.0, a, i, b, t, r.1) && Local(w1, r.0, a, i)
  {
    var i := w1.journal.records[id].intent;
    EffectDumpable(i);
    if Stops(t, 1) {
      UnattemptedEnds(w, w1, a, i, b, t);
    } else {
      LaunchedEnds(w, w1, a, id, b, t);
    }
  }

  lemma ExecuteOnward(w: World, a: Adapter, job: Job, newId: string, t: Trouble, b: InjectionBinding)
    requires Choose(w, a, job) == Ok(b) && b.Executable() && PreparedIn(w.journal, a, b, job, newId).1.Ok?
    ensures
      var (j, prepared) := PreparedIn(w.journal, a, b, job, newId);
      Execute(w, a, job, newId, t) ==
        if t == CrashAfter(0) then (w, Dead) else Onward(w.(journal := j), a, b, prepared.value.intent, t)
  {
    ExecuteLaunches(w, a, job, newId, t, b);
  }

  /**
   In every reachable world: how a first run ends, for every disturbance. Dying before the operation is prepared
   changes nothing at all; otherwise the history, the outcome, the target and the answer are exactly these.
   */
  lemma DisturbedRun(w: World, a: Adapter, job: Job, newId: string, b: InjectionBinding, t: Trouble)
    requires Inv(w, a) && Constructed(job.bindings) && Choose(w, a, job) == Ok(b) && FirstRun(w, a, b, job, newId)
    ensures Dumpable(Seen(PreparedIn(w.journal, a, b, job, newId).1.value.intent))
    ensures
      var (j, prepared) := PreparedIn(w.journal, a, b, job, newId);
      var i := prepared.value.intent;
      var (v, reply) := Execute(w, a, job, newId, t);
      if t == CrashAfter(0) then v == w && reply == Dead
      else Ends(w, v, a, i, b, t, reply) && Local(w.(journal := j), v, a, i)
  {
    var (j, prepared) := PreparedIn(w.journal, a, b, job, newId);
    ChosenNow(w, a, job, b);
    PreparedAs(w, a, job, newId, b);
    OnwardEnds(w, w.(journal := j), a, prepared.value.intent.id, b, t);
    ExecuteOnward(w, a, job, newId, t, b);
  }

  /** The disturbances that leave an attempt undecided. */
  predicate LeavesOpen(t: Trouble) {
    t.HandlerRaises? || t.ReadbackRaises? || (t.CrashAfter? && t.steps in {2, 3, 4, 5})
  }

  lemma EndsOpen(w: World, v: World, a: Adapter, i: Intent, b: InjectionBinding, t: Trouble, reply: Reply)
    requires b.Executable() && FS.TargetKey(a.name, i.target).Some? && Dumpable(Seen(i))
    requires Ends(w, v, a, i, b, t, reply)
    ensures Open(v, i.id) <==> LeavesOpen(t)
  {
    if t == Smooth || (t.CrashAfter? && t.steps >= 7) { DeliveredMeans(w, v, a, i, b, reply); }
  }

  lemma EndsWritten(w: World, v: World, a: Adapter, i: Intent, b: InjectionBinding, t: Trouble, reply: Reply)
    requires b.Executable() && FS.TargetKey(a.name, i.target).Some? && Dumpable(Seen(i))
    requires Ends(w, v, a, i, b, t, reply) && LeavesOpen(t)
    ensures i.id in v.journal.records && v.journal.records[i.id].intent == i
    ensures TargetDir(v, a, i) == FS.Written(TargetDir(w, a, i), RequestOf(i), FileWrites(t))
  {
  }

  lemma OpenEnds(w: World, a: Adapter, job: Job, newId: string, b: InjectionBinding, t: Trouble)
    requires Inv(w, a) && Constructed(job.bindings) && Choose(w, a, job) == Ok(b) && FirstRun(w, a, b, job, newId)
    requires t != CrashAfter(0)
    ensures
      var i := PreparedIn(w.journal, a, b, job, newId).1.value.intent;
      Open(Execute(w, a, job, newId, t).0, i.id) <==> LeavesOpen(t)
  {
    var i := PreparedIn(w.journal, a, b, job, newId).1.value.intent;
    DisturbedRun(w, a, job, newId, b, t);
    var r := Execute(w, a, job, newId, t);
    EndsOpen(w, r.0, a, i, b, t, r.1);
  }

  /** A first run is open afterwards exactly for those. */
  lemma OpenExactly(w: World, a: Adapter, job: Job, newId: string, b: InjectionBinding, t: Trouble)
    requires Inv(w, a) && Constructed(job.bindings) && Choose(w, a, job) == Ok(b) && FirstRun(w, a, b, job, newId)
    ensures
      var i := PreparedIn(w.journal, a, b, job, newId).1.value.intent;
      Open(Execute(w, a, job, newId, t).0, i.id) <==> LeavesOpen(t)
  {
    if t == CrashAfter(0) {
      NotOpenBefore(w, a, b, job, newId);
      ExecuteLaunches(w, a, job, newId, t, b);
    } else {
      OpenEnds(w, a, job, newId, b, t);
    }
  }

  // ---- a handler that raises of itself ----

  /** What the handler raises for an operation it cannot write. */
  function Unwritable(a: Adapter, i: Intent): Option<FS.Fault> {
    if FS.TargetKey(a.name, i.target).None? then Some(FS.BadTarget) else FS.Malformed(a.name, RequestOf(i))
  }

  lemma HandleRefuses(w: World, a: Adapter, i: Intent, writes: nat)
    requires Unwritable(a, i).Some?
    ensures Handle(w, a, i, writes) == (w, Unwritable(a, i)) && Unwritable(a, i) != Some(FS.Died)
  {
  }

  lemma DispatchRefused(w: World, a: Adapter, b: InjectionBinding, i: Intent, t: Trouble)
    requires b.Executable() && Unwritable(a, i).Some? && !Stops(t, 2)
    ensures
      var stop := if t.HandlerRaises? then HandlerInterrupted else HandlerRaised(Unwritable(a, i).value);
      Dispatch(w, a, b, i, t) == Doubt(w, i.id, "execute-exception:" + a.name + "@" + a.version, stop)
  {
    HandleRefuses(w, a, i, FileWrites(t));
  }

  /** The prepared operation has no event yet. */
  ghost predicate Unattempted(w: World, a: Adapter, b: InjectionBinding, job: Job, newId: string)
    requires b.Executable()
  {
    var (j, prepared) := PreparedIn(w.journal, a, b, job, newId);
    prepared.Ok? && prepared.value.intent.id in j.records && j.records[prepared.value.intent.id].events == []
  }

  lemma LaunchRefused(w: World, a: Adapter, i: Intent, b: InjectionBinding, t: Trouble)
    requires i.id in w.journal.records && w.journal.records[i.id] == Record(i, []) && b.Executable()
    requires Unwritable(a, i).Some? && !Stops(t, 2)
    ensures
      var (v, reply) := Launch(w, a, b, i, t);
      && v == w.(journal := v.journal) && i.id in v.journal.records
      && v.journal.records[i.id] == Record(i, [Began(b), Doubts("execute-exception:", a)])
      && reply == Raised(if t.HandlerRaises? then HandlerInterrupted else HandlerRaised(Unwritable(a, i).value))
  {
    var note := Some("binding:" + b.id);
    AttemptSucceeds(w, i.id, note);
    AttemptStored(w, i.id, note);
    LaunchStops(w, a, b, i, t);
    var v := Append1(w, i.id, Attempt(note)).0;
    DispatchRefused(v, a, b, i, t);
    var stop := if t.HandlerRaises? then HandlerInterrupted else HandlerRaised(Unwritable(a, i).value);
    DoubtStores(v, a, i.id, "execute-exception:", stop);
    assert [Began(b)] + [Doubts("execute-exception:", a)] == [Began(b), Doubts("execute-exception:", a)];
    DoubtMoves(v, i.id, "execute-exception:" + a.name + "@" + a.version, stop);
  }

  lemma DoubtMoves(w: World, id: string, evidence: string, stop: Stop)
    ensures
      var v := Doubt(w, id, evidence, stop).0;
      v == w.(journal := v.journal)
  {
  }

  /**
   A target or a request that the handler refuses: whatever the disturbance, short of dying before the handler runs,
   the exception is stored as doubt and raised, with no file and no outcome touched.
   */
  lemma RefusedRun(w: World, a: Adapter, job: Job, newId: string, b: InjectionBinding, t: Trouble)
    requires Kept(w.journal) && Choose(w, a, job) == Ok(b) && Unattempted(w, a, b, job, newId) && !Stops(t, 2)
    requires Unwritable(a, PreparedIn(w.journal, a, b, job, newId).1.value.intent).Some?
    ensures
      var i := PreparedIn(w.journal, a, b, job, newId).1.value.intent;
      var (v, reply) := Execute(w, a, job, newId, t);
      && v == w.(journal := v.journal) && i.id in v.journal.records
      && v.journal.records[i.id] == Record(i, [Began(b), Doubts("execute-exception:", a)])
      && reply == Raised(if t.HandlerRaises? then HandlerInterrupted else HandlerRaised(Unwritable(a, i).value))
  {
    var (j, prepared) := PreparedIn(w.journal, a, b, job, newId);
    PreparedPayload(w.journal, a, b, job, newId);
    ExecuteLaunches(w, a, job, newId, t, b);
    LaunchRefused(w.(journal := j), a, prepared.value.intent, b, t);
  }

  // ---- runs that are refused ----

  /**
   A run goes ahead exactly with the binding that wins the context, when it can be executed by this adapter and is
   current.
   */
  lemma ChoosesExactly(w: World, a: Adapter, job: Job, b: InjectionBinding)
    ensures Choose(w, a, job) == Ok(b) <==>
      && Winner(multiset(job.bindings), job.context, b) && b.promotionId.Some?
      && b.adapter == Some(a.name) && b.adapterVersion == Some(a.version) && IsCurrent(w.tables, w.now, b)
  {
    ResolvesTheWinner(job.bindings, job.context, b);
  }

  /**
   It stops for want of a binding exactly when none fits, and for a conflict exactly when some fit and none wins. A
   run that stops changes nothing.
   */
  lemma StopsExactly(w: World, a: Adapter, job: Job, newId: string, t: Trouble)
    ensures Choose(w, a, job) == Error(NoActiveBinding) <==>
      forall c | c in job.bindings :: !Fits(c, job.context)
    ensures Choose(w, a, job) == Error(BindingConflict) <==>
      && (exists c :: c in job.bindings && Fits(c, job.context))
      && forall c :: !Winner(multiset(job.bindings), job.context, c)
    ensures Choose(w, a, job).Error? ==> Execute(w, a, job, newId, t) == (w, Raised(Choose(w, a, job).error))
  {
    NoneOnlyWithoutMatch(job.bindings, job.context);
    RaisesOnlyUndecided(job.bindings, job.context);
  }

  lemma LaunchRepeated(w: World, a: Adapter, i: Intent, b: InjectionBinding, t: Trouble)
    requires i.id in w.journal.records && w.journal.records[i.id].events != [] && b.Executable()
    ensures Launch(w, a, b, i, t) == (w, Raised(JournalRefused(BadTransition)))
  {
  }

  /** An operation that has any event is never attempted again: the call raises and changes nothing. */
  lemma RepeatRefused(w: World, a: Adapter, job: Job, newId: string, b: InjectionBinding, t: Trouble)
    requires Kept(w.journal) && Choose(w, a, job) == Ok(b) && PreparedIn(w.journal, a, b, job, newId).1.Ok?
    requires !Unattempted(w, a, b, job, newId)
    ensures
      Execute(w, a, job, newId, t) == (w, if Stops(t, 1) then Dead else Raised(JournalRefused(BadTransition)))
  {
    var (j, prepared) := PreparedIn(w.journal, a, b, job, newId);
    PreparedPayload(w.journal, a, b, job, newId);
    PrepareInserts(w.journal, a, b, job, newId);
    assert j == w.journal;
    ExecuteLaunches(w, a, job, newId, t, b);
    LaunchRepeated(w, a, prepared.value.intent, b, t);
  }

  /**
   A current binding is an effective one whose row an operation carrying it would have the lineage of: what
   `execute` checks beforehand is what the outcome table checks afterwards, and that the binding is in the view.
   */
  lemma CurrentExactly(t: L.Tables, now: L.Time, b: InjectionBinding, i: Intent, evidence: string)
    requires b.Executable() && Carries(i.payload, b) && i.kind == Kind(Adapter(b.adapter.value, b.adapterVersion.value))
    ensures IsCurrent(t, now, b) <==> L.Effective(t, now, b.id) && Lineage(t, i, OutcomeFor(i, b, evidence))
  {
  }

  // ---- reconcile, disturbed ----

  predicate Closed(w: World, id: string) { CurrentStateOf(w, id) == Verified || CurrentStateOf(w, id) == Failed }

  lemma ClosedRefuses(w: World, id: string, call: Call)
    requires Closed(w, id) && call.Reconcile? && !Blank(call.evidence)
    ensures Append1(w, id, call) == (w, Error(BadTransition))
  {
    assert w.journal.records[id].events != [];
  }

  lemma ObserveClosed(w: World, a: Adapter, i: Intent, b: InjectionBinding, t: Trouble)
    requires b.Executable() && Closed(w, i.id) && FS.TargetKey(a.name, i.target).Some?
    ensures Observe(w, a, b, i, t).0 == w
  {
    var r := ReadbackOf(w, a, i);
    var key := FS.TargetKey(a.name, i.target).value;
    ReadEvidence(FS.DirAt(w.dirs, key), key, i.target, i.digest);
    ObserveApplies(w, a, b, i, t);
    if !r.verdict.FoundAmbiguous? && (r.verdict.FoundVerified? ==> Dumpable(Plain(r.verdict.observed))) {
      ApplySplits(w, b, i, r, t);
      ClosedRefuses(w, i.id, Verdict(i, r));
    }
  }

  /** Reconciling a VERIFIED or FAILED operation changes nothing, whatever its target shows and whatever goes wrong. */
  lemma ReconcileLeavesClosed(w: World, a: Adapter, id: string, t: Trouble)
    requires Kept(w.journal) && Closed(w, id)
    ensures ReconcileOperation(w, a, id, t).0 == w
  {
    if Rebuilt(w, a, id).Ok? {
      var i, b := w.journal.records[id].intent, Rebuilt(w, a, id).value;
      OwnId(w.journal, id);
      ReconcileSettles(w, a, id, t);
      if ReconcileSequel(w, a, id, t).Observing? && FS.TargetKey(a.name, i.target).Some? {
        ObserveClosed(w, a, i, b, t);
      }
    }
  }

  lemma UnreadSplits(w: World, a: Adapter, id: string)
    requires Rebuilt(w, a, id).Ok? && w.journal.records[id].intent.id == id
    ensures
      ReconcileOperation(w, a, id, ReadbackRaises) ==
        if CurrentStateOf(w, id) == Attempted
        then Doubt(w, id, "readback-exception:" + a.name + "@" + a.version, ReadbackRaised)
        else (w, Raised(ReadbackRaised))
  {
    ReconcileSettles(w, a, id, ReadbackRaises);
  }

  /** A readback that raises is stored as doubt for an attempted operation and changes nothing for one in doubt. */
  lemma ReconcileUnread(w: World, a: Adapter, id: string)
    requires Inv(w, a) && id in w.journal.records && Open(w, id)
    ensures
      var r := w.journal.records[id];
      var (v, reply) := ReconcileOperation(w, a, id, ReadbackRaises);
      && v == w.(journal := v.journal) && id in v.journal.records && reply == Raised(ReadbackRaised)
      && v.journal.records[id] ==
           if CurrentState(r.events) == Ambiguous then r
           else Record(r.intent, r.events + [Doubts("readback-exception:", a)])
  {
    OwnId(w.journal, id);
    RebuiltMeans(w, a, id);
    UnreadSplits(w, a, id);
    if CurrentStateOf(w, id) == Attempted {
      DoubtStores(w, a, id, "readback-exception:", ReadbackRaised);
      DoubtMoves(w, id, "readback-exception:" + a.name + "@" + a.version, ReadbackRaised);
    }
  }

  /** Dying before the verdict changes nothing. */
  lemma ReconcileDies(w: World, a: Adapter, id: string, n: nat)
    requires Inv(w, a) && id in w.journal.records && n <= 5
    ensures ReconcileOperation(w, a, id, CrashAfter(n)) == (w, Dead)
  {
    RebuiltMeans(w, a, id);
    ReconcileSettles(w, a, id, CrashAfter(n));
  }

  lemma ReconcileObservesSo(w: World, a: Adapter, id: string, t: Trouble)
    requires Rebuilt(w, a, id).Ok? && !Stops(t, 5) && !t.ReadbackRaises?
    ensures id in w.journal.records
    ensures ReconcileOperation(w, a, id, t) ==
      Observe(w, a, Rebuilt(w, a, id).value, w.journal.records[id].intent, t)
  {
  }

  /** Dying between the verdict and the outcome leaves the verdict stored and the outcome to `recover_outcome`. */
  lemma ReconcileUnrecorded(w: World, a: Adapter, id: string)
    requires Inv(w, a) && id in w.journal.records && Open(w, id)
    requires FS.TargetKey(a.name, w.journal.records[id].intent.target).Some?
    requires SeenIn(w, a, w.journal.records[id].intent) == Some(Verified)
    ensures
      var i := w.journal.records[id].intent;
      var (v, reply) := ReconcileOperation(w, a, id, CrashAfter(6));
      && reply == Dead && v.outcomes == w.outcomes && v.dirs == w.dirs && CurrentStateOf(v, id) == Verified
  {
    var i := w.journal.records[id].intent;
    OwnId(w.journal, id);
    RebuiltMeans(w, a, id);
    ReconcileObservesSo(w, a, id, CrashAfter(6));
    var b := Rebuilt(w, a, id).value;
    ReadShows(w, a, i);
    VerdictRecorded(w, a, id);
    ObserveApplies(w, a, b, i, CrashAfter(6));
    ApplySplits(w, b, i, ReadbackOf(w, a, i), CrashAfter(6));
    AppendLocal(w, a, i, Verdict(i, ReadbackOf(w, a, i)));
  }

  lemma ObserveSame(w: World, a: Adapter, b: InjectionBinding, i: Intent, t: Trouble)
    requires b.Executable() && !Stops(t, 6)
    ensures Observe(w, a, b, i, t) == Observe(w, a, b, i, Smooth)
  {
  }

  /** Every other disturbance comes too late or is not the reconcile's. */
  lemma ReconcileUndisturbed(w: World, a: Adapter, id: string, t: Trouble)
    requires Inv(w, a) && id in w.journal.records && !Stops(t, 6) && !t.ReadbackRaises?
    ensures ReconcileOperation(w, a, id, t) == ReconcileOperation(w, a, id, Smooth)
  {
    RebuiltMeans(w, a, id);
    ReconcileObservesSo(w, a, id, t);
    ReconcileObserves(w, a, id);
    ObserveSame(w, a, Rebuilt(w, a, id).value, w.journal.records[id].intent, t);
  }

  // ---- which outcomes the table takes ----

  /** o, but for what a readback may report beside the effect. */
  predicate UpToReports(o: Outcome, expected: Outcome) {
    expected == Outcome(
      o.correction, o.revision, o.promotion, o.binding, o.scope, o.effect, o.evidence,
      expected.failureOccurred, expected.correctionTriggered, expected.prevented, expected.regression)
  }

  lemma NamesAgree(a: Adapter, t: L.Tables, i: Intent, b: InjectionBinding, o: Outcome)
    requires Governed(a, t, i) && MadeFor(i, b)
    ensures
      && TextField(i.payload, "correction_id") == Some(b.correctionId)
      && Field(i.payload, "correction_revision") == Some(Int(b.correctionRevision))
      && TextField(i.payload, "promotion_id") == b.promotionId && TextField(i.payload, "binding_id") == Some(b.id)
      && TextField(i.payload, "selector_digest") == Some(SelectorDigest(b.selector))
    ensures UpToReports(o, OutcomeFor(i, b, o.evidence)) ==> Lineage(t, i, o)
  {
    SubjectCarried(a, t, i, b, o.evidence);
  }

  lemma RecordsSo(w: World, id: string, b: InjectionBinding, o: Outcome)
    requires id in w.journal.records && b.Executable()
    requires
      var i := w.journal.records[id].intent;
      && TextField(i.payload, "correction_id") == Some(b.correctionId)
      && Field(i.payload, "correction_revision") == Some(Int(b.correctionRevision))
      && TextField(i.payload, "promotion_id") == b.promotionId && TextField(i.payload, "binding_id") == Some(b.id)
      && TextField(i.payload, "selector_digest") == Some(SelectorDigest(b.selector))
      && (UpToReports(o, OutcomeFor(i, b, o.evidence)) ==> Lineage(w.tables, i, o))
    ensures
      var r := w.journal.records[id];
      RecordOutcome(w, id, o).1.Ok? <==>
        && CurrentStateOf(w, id) == Verified && UpToReports(o, OutcomeFor(r.intent, b, o.evidence))
        && r.events != [] && Last(r.events).evidence == Some(o.evidence)
        && (id in w.outcomes ==> w.outcomes[id] == o)
  {
  }

  lemma RecordsOnly(w: World, id: string, o: Outcome)
    requires id in w.journal.records
    ensures RecordOutcome(w, id, o) ==
      if RecordOutcome(w, id, o).1.Ok? then (w.(outcomes := w.outcomes[id := o]), Ok(o))
      else (w, RecordOutcome(w, id, o).1)
  {
    if id in w.outcomes && w.outcomes[id] == o { assert w.outcomes[id := o] == w.outcomes; }
  }

  /**
   In every reachable world the outcome table takes a row for an operation exactly when the operation is VERIFIED,
   the row is its own binding's, up to what the readback reports beside the effect, and no other row is there. It
   then holds that row, and otherwise nothing changes.
   */
  lemma OutcomeExactly(w: World, a: Adapter, id: string, o: Outcome)
    requires Inv(w, a) && id in w.journal.records
    ensures Rebuilt(w, a, id).Ok? && Rebuilt(w, a, id).value.Executable()
    ensures
      var i := w.journal.records[id].intent;
      RecordOutcome(w, id, o).1.Ok? <==>
        && CurrentStateOf(w, id) == Verified && UpToReports(o, OutcomeFor(i, Rebuilt(w, a, id).value, SeenAt(a, i)))
        && (id in w.outcomes ==> w.outcomes[id] == o)
    ensures RecordOutcome(w, id, o) ==
      if RecordOutcome(w, id, o).1.Ok? then (w.(outcomes := w.outcomes[id := o]), Ok(o))
      else (w, RecordOutcome(w, id, o).1)
  {
    RebuiltMeans(w, a, id);
    var i, b := w.journal.records[id].intent, Rebuilt(w, a, id).value;
    assert Governed(a, w.tables, i);
    NamesAgree(a, w.tables, i, b, o);
    RecordsSo(w, id, b, o);
    RecordsOnly(w, id, o);
    if CurrentStateOf(w, id) == Verified { VerifiedEvidence(w, a, id, b); }
  }
}
