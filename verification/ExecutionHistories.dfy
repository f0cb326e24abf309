/**
 Which histories the coordinator writes: those of the Python journal, and what it records when it reconciles an
 operation that was never attempted.
 */
module ExecutionHistories {
  import opened Prelude
  import opened Json
  import opened Operations
  import opened Bindings
  import opened Execution
  import opened ExecutionInvariants
  import opened ExecutionSteps
  import opened ExecutionTheorems
  import L = LifecycleTables
  import FS = FileStore

  // ---- what every journal write keeps ----

  /** The call does not reconcile an operation that was never attempted. */
  predicate Ready(j: Journal, id: string, call: Call) {
    call.Reconcile? ==> id !in j.records || j.records[id].events != []
  }

  /** Kept by every new operation, and by every call that is ready. */
  ghost predicate Closed(keep: Journal -> bool) {
    && (forall j: Journal, id: string, call: Call {:trigger keep(Append(Postgres, j, id, call).0)}
          | keep(j) && Ready(j, id, call) ::
          keep(Append(Postgres, j, id, call).0))
    && (forall j: Journal, i: Intent {:trigger keep(Insert(j, i))}
         | keep(j) && i.id !in j.records :: keep(Insert(j, i)))
  }

  lemma AppendStays(keep: Journal -> bool, w: World, id: string, call: Call)
    requires Closed(keep) && keep(w.journal) && Ready(w.journal, id, call)
    ensures keep(Append1(w, id, call).0.journal)
  {
    assert Append1(w, id, call).0.journal == Append(Postgres, w.journal, id, call).0;
  }

  lemma ApplyStays(keep: Journal -> bool, w: World, b: InjectionBinding, i: Intent, r: FS.Readback, t: Trouble)
    requires Closed(keep) && keep(w.journal) && b.Executable()
    requires i.id in w.journal.records ==> w.journal.records[i.id].events != []
    ensures keep(ApplyReadback(w, b, i, r, t).0.journal)
  {
    if r.verdict.FoundAmbiguous? {
      AppendStays(keep, w, i.id, MarkAmbiguous(r.evidence));
    } else if r.verdict.FoundFailed? || Dumpable(Plain(r.verdict.observed)) {
      ApplySplits(w, b, i, r, t);
      AppendStays(keep, w, i.id, Verdict(i, r));
      ConcludeKeepsJournal(Append1(w, i.id, Verdict(i, r)).0, i, b, r.evidence);
    }
  }

  lemma ObserveStays(keep: Journal -> bool, w: World, a: Adapter, b: InjectionBinding, i: Intent, t: Trouble)
    requires Closed(keep) && keep(w.journal) && b.Executable()
    requires i.id in w.journal.records ==> w.journal.records[i.id].events != []
    ensures keep(Observe(w, a, b, i, t).0.journal)
  {
    if FS.TargetKey(a.name, i.target).Some? {
      ApplyStays(keep, w, b, i, ReadbackOf(w, a, i), t);
    } else {
      AppendStays(keep, w, i.id, MarkAmbiguous("readback-exception:" + a.name + "@" + a.version));
    }
  }

  lemma SettleStays(
    keep: Journal -> bool, w: World, sequel: Sequel, a: Adapter, b: InjectionBinding, i: Intent, t: Trouble)
    requires Closed(keep) && keep(w.journal) && b.Executable()
    requires i.id in w.journal.records ==> w.journal.records[i.id].events != []
    ensures keep(Settle(w, sequel, a, b, i, t).0.journal)
  {
    match sequel
    case Die =>
    case Doubting(evidence, _) => AppendStays(keep, w, i.id, MarkAmbiguous(evidence));
    case Rethrowing(_) =>
    case Observing => ObserveStays(keep, w, a, b, i, t);
  }

  lemma DispatchStays(keep: Journal -> bool, w: World, a: Adapter, b: InjectionBinding, i: Intent, t: Trouble)
    requires Closed(keep) && keep(w.journal) && b.Executable()
    requires i.id in w.journal.records ==> w.journal.records[i.id].events != []
    ensures keep(Dispatch(w, a, b, i, t).0.journal)
  {
    HandleKeepsJournal(w, a, i, FileWrites(t));
    var (v, fault) := Handle(w, a, i, FileWrites(t));
    SettleStays(keep, v, SequelOf(a, t, fault), a, b, i, t);
  }

  lemma LaunchStays(keep: Journal -> bool, w: World, a: Adapter, b: InjectionBinding, i: Intent, t: Trouble)
    requires Closed(keep) && keep(w.journal) && b.Executable()
    ensures keep(Launch(w, a, b, i, t).0.journal)
  {
    var call := Attempt(Some("binding:" + b.id));
    AppendStays(keep, w, i.id, call);
    var (v, e) := Append1(w, i.id, call);
    LaunchSplits(w, a, b, i, t);
    if e.Ok? {
      AttemptStored(w, i.id, call.note);
      DispatchStays(keep, v, a, b, i, t);
    }
  }

  lemma BeginStays(
    keep: Journal -> bool, w: World, a: Adapter, job: Job, newId: string, b: InjectionBinding, t: Trouble)
    requires Closed(keep) && keep(w.journal) && b.Executable()
    ensures keep(Begin(w, a, job, newId, b, t).0.journal)
  {
    PrepareInserts(w.journal, a, b, job, newId);
    var (j, prepared) := PreparedIn(w.journal, a, b, job, newId);
    if prepared.Ok? { LaunchStays(keep, w.(journal := j), a, b, prepared.value.intent, t); }
  }

  lemma AcrossStays(
    keep: Journal -> bool, w: World, a: Adapter, job: Job, newId: string, meanwhile: seq<L.Step>, t: Trouble)
    requires Closed(keep) && keep(w.journal)
    ensures keep(ExecuteAcross(w, a, job, newId, meanwhile, t).0.journal)
  {
    var choice := Choose(w, a, job);
    if choice.Ok? && !Stops(t, 0) {
      BeginStays(keep, w.(tables := L.After(w.tables, meanwhile)), a, job, newId, choice.value, t);
    }
  }

  lemma RecoverKeepsJournal(w: World, a: Adapter, id: string)
    ensures RecoverOutcome(w, a, id).0.journal == w.journal
  {
    if id in w.journal.records && Rebuilt(w, a, id).Ok? {
      var r := w.journal.records[id];
      var evidence := RecoverEvidence(w, a, r);
      if evidence.Ok? { ConcludeKeepsJournal(w, r.intent, Rebuilt(w, a, id).value, evidence.value); }
    }
  }

  // ---- reconciling an operation that was never attempted ----

  /** The move reads the target back for an operation that is still PREPARED. */
  ghost predicate ReconcilesPrepared(w: World, a: Adapter, m: Move) {
    && m.Reconciles? && m.id in w.journal.records && w.journal.records[m.id].events == []
    && FS.TargetKey(a.name, w.journal.records[m.id].intent.target).Some?
    && !Stops(m.trouble, 5) && !m.trouble.ReadbackRaises?
  }

  /** Without a reading there is no verdict, and only an ATTEMPTED operation is doubted. */
  lemma UnreadStays(w: World, a: Adapter, id: string, t: Trouble)
    requires Kept(w.journal) && id in w.journal.records && w.journal.records[id].events == []
    requires !ReconcilesPrepared(w, a, Reconciles(id, t))
    ensures ReconcileOperation(w, a, id, t).0.journal == w.journal
  {
    OwnId(w.journal, id);
  }

  lemma ReconcileStays(keep: Journal -> bool, w: World, a: Adapter, id: string, t: Trouble)
    requires Closed(keep) && keep(w.journal) && Kept(w.journal) && !ReconcilesPrepared(w, a, Reconciles(id, t))
    ensures keep(ReconcileOperation(w, a, id, t).0.journal)
  {
    if Rebuilt(w, a, id).Error? {
      ReconcileRefused(w, a, id, t);
    } else if w.journal.records[id].events == [] {
      UnreadStays(w, a, id, t);
    } else {
      OwnId(w.journal, id);
      ReconcileSettles(w, a, id, t);
      var i, b := w.journal.records[id].intent, Rebuilt(w, a, id).value;
      SettleStays(keep, w, ReconcileSequel(w, a, id, t), a, b, i, t);
    }
  }

  lemma PreparedObserves(w: World, a: Adapter, id: string, t: Trouble)
    requires Rebuilt(w, a, id).Ok? && ReconcilesPrepared(w, a, Reconciles(id, t))
    ensures
      var b, i := Rebuilt(w, a, id).value, w.journal.records[id].intent;
      ReconcileOperation(w, a, id, t) == ApplyReadback(w, b, i, ReadbackOf(w, a, i), t)
  {
  }

  // ---- whatever digests are shared ----

  /** What the target says of the operation's digest. */
  function SeenOf(w: World, a: Adapter, id: string): Option<OpState>
    requires id in w.journal.records && FS.TargetKey(a.name, w.journal.records[id].intent.target).Some?
  {
    SeenIn(w, a, w.journal.records[id].intent)
  }

  lemma VerdictOnPrepared(w: World, id: string, call: Call)
    requires id in w.journal.records && w.journal.records[id].events == []
    requires call.Reconcile? && !Blank(call.evidence)
    requires call.verified ==> call.readback.Some? && !Blank(call.readback.value)
    ensures Append1(w, id, call).1.Ok? && id in Append1(w, id, call).0.journal.records
    ensures States(Append1(w, id, call).0.journal.records[id].events) == [if call.verified then Verified else Failed]
  {
    assert [] + [Recorded(call)] == [Recorded(call)];
  }

  lemma AppliedVerdict(w: World, b: InjectionBinding, i: Intent, r: FS.Readback, t: Trouble)
    requires b.Executable() && !r.verdict.FoundAmbiguous?
    requires r.verdict.FoundVerified? ==> Dumpable(Plain(r.verdict.observed))
    ensures ApplyReadback(w, b, i, r, t).0.journal == Append1(w, i.id, Verdict(i, r)).0.journal
  {
    ApplySplits(w, b, i, r, t);
    ConcludeKeepsJournal(Append1(w, i.id, Verdict(i, r)).0, i, b, r.evidence);
  }

  lemma DoubtIgnored(w: World, b: InjectionBinding, i: Intent, r: FS.Readback, t: Trouble)
    requires b.Executable() && r.verdict.FoundAmbiguous? && CurrentStateOf(w, i.id) == Prepared
    ensures ApplyReadback(w, b, i, r, t).0 == w
  {
  }

  lemma PreparedReads(w: World, a: Adapter, id: string, t: Trouble)
    requires Inv(w, a) && ReconcilesPrepared(w, a, Reconciles(id, t))
    ensures
      var i := w.journal.records[id].intent;
      var r := ReadbackOf(w, a, i);
      && i.id == id && Rebuilt(w, a, id).Ok? && Rebuilt(w, a, id).value.Executable() && !Blank(r.evidence)
      && ReconcileOperation(w, a, id, t) == ApplyReadback(w, Rebuilt(w, a, id).value, i, r, t)
      && (r.verdict.FoundAmbiguous? <==> SeenOf(w, a, id).None?)
      && (r.verdict.FoundVerified? <==> SeenOf(w, a, id) == Some(Verified))
      && (r.verdict.FoundVerified? ==> Dumpable(Plain(r.verdict.observed)))
  {
    OwnId(w.journal, id);
    RebuiltMeans(w, a, id);
    ReadShows(w, a, w.journal.records[id].intent);
    PreparedObserves(w, a, id, t);
  }

  /**
   In every reachable world, reading back an operation that was never attempted records one event: VERIFIED when
   the target shows its digest in the current pointer's own version file, FAILED when it does not show it. When
   that version file is another operation's it changes nothing.
   */
  lemma PreparedDecided(w: World, a: Adapter, id: string, t: Trouble)
    requires Inv(w, a) && ReconcilesPrepared(w, a, Reconciles(id, t))
    ensures
      var v, s := ReconcileOperation(w, a, id, t).0, SeenOf(w, a, id);
      && (s.None? ==> v == w)
      && (s.Some? ==> v.journal == Append(Postgres, w.journal, id, PreparedVerdict(w, a, id)).0)
      && (s.Some? ==> id in v.journal.records && States(v.journal.records[id].events) == [s.value])
  {
    var i := w.journal.records[id].intent;
    var r := ReadbackOf(w, a, i);
    PreparedReads(w, a, id, t);
    var b := Rebuilt(w, a, id).value;
    if r.verdict.FoundAmbiguous? {
      DoubtIgnored(w, b, i, r, t);
    } else {
      if r.verdict.FoundVerified? { DigestNotBlank(Plain(r.verdict.observed)); }
      VerdictOnPrepared(w, id, Verdict(i, r));
      AppliedVerdict(w, b, i, r, t);
    }
  }

  /** The journal call such a reconcile makes. */
  function PreparedVerdict(w: World, a: Adapter, id: string): Call
    requires id in w.journal.records && FS.TargetKey(a.name, w.journal.records[id].intent.target).Some?
  {
    Verdict(w.journal.records[id].intent, ReadbackOf(w, a, w.journal.records[id].intent))
  }

  lemma InvKept(w: World, a: Adapter)
    requires Inv(w, a)
    ensures Kept(w.journal)
  {
  }

  // ---- every step ----

  lemma StepStays(keep: Journal -> bool, w: World, a: Adapter, m: Move)
    requires Closed(keep) && keep(w.journal) && Kept(w.journal) && !ReconcilesPrepared(w, a, m)
    ensures keep(Next(w, a, m).journal)
  {
    match m
    case Executes(job, newId, meanwhile, t) => AcrossStays(keep, w, a, job, newId, meanwhile, t);
    case Reconciles(id, t) => ReconcileStays(keep, w, a, id, t);
    case Recovers(id) => RecoverKeepsJournal(w, a, id);
    case RollsBack(target, operation) => RollbackKeepsJournal(w, a, target, operation);
    case Governs(_) =>
    case Passes(_) =>
  }

  /** The move reads back an operation that is still PREPARED, and the reading is certain. */
  ghost predicate DecidesPrepared(w: World, a: Adapter, m: Move) {
    ReconcilesPrepared(w, a, m) && SeenOf(w, a, m.id).Some?
  }

  /** And it is VERIFIED. */
  ghost predicate VerifiesPrepared(w: World, a: Adapter, m: Move) {
    ReconcilesPrepared(w, a, m) && SeenOf(w, a, m.id) == Some(Verified)
  }

  /** Every history is the Python journal's; or FAILED alone, where that is let pass. */
  ghost predicate Clean(j: Journal, failedToo: bool) {
    forall id {:trigger j.records[id]} | id in j.records ::
      PythonWord(States(j.records[id].events)) || (failedToo && States(j.records[id].events) == [Failed])
  }

  /** Some history is neither. */
  ghost predicate Lone(j: Journal, id: string, failedToo: bool) {
    && id in j.records
    && (States(j.records[id].events) == [Verified] || (!failedToo && States(j.records[id].events) == [Failed]))
  }

  ghost predicate Offends(w: World, a: Adapter, m: Move, failedToo: bool) {
    if failedToo then VerifiesPrepared(w, a, m) else DecidesPrepared(w, a, m)
  }

  lemma LoneIsNotClean(j: Journal, id: string, failedToo: bool)
    requires Lone(j, id, failedToo)
    ensures !Clean(j, failedToo)
  {
  }

  lemma FinalStays(j: Journal, id: string, x: string, call: Call)
    requires id in j.records
    requires States(j.records[id].events) == [Failed] || States(j.records[id].events) == [Verified]
    ensures Append(Postgres, j, x, call).0.records[id] == j.records[id]
  {
    var e := j.records[id].events;
    assert States(e)[0] == e[0].state && |e| == 1;
  }

  lemma CleanAppends(j: Journal, id: string, call: Call, failedToo: bool)
    requires Clean(j, failedToo) && Ready(j, id, call)
    ensures Clean(Append(Postgres, j, id, call).0, failedToo)
  {
    if id in j.records && SqlRefusal(j.records[id].events, call).None? {
      if !PythonWord(States(j.records[id].events)) {
        FinalStays(j, id, id, call);
      } else {
        BackendsPart(j.records[id].events, call);
        WordGrows(InMemory, j.records[id].events, call);
      }
    }
  }

  lemma CleanClosed(failedToo: bool)
    ensures Closed(j => Clean(j, failedToo))
  {
    forall j, id, call | Clean(j, failedToo) && Ready(j, id, call)
      ensures Clean(Append(Postgres, j, id, call).0, failedToo)
    {
      CleanAppends(j, id, call, failedToo);
    }
    assert PythonWord(States([]));
  }

  lemma LoneClosed(id: string, failedToo: bool)
    ensures Closed(j => Lone(j, id, failedToo))
  {
    forall j, x, call | Lone(j, id, failedToo) ensures Lone(Append(Postgres, j, x, call).0, id, failedToo) {
      FinalStays(j, id, x, call);
    }
  }

  /** What such a reconcile leaves of the journal. */
  ghost predicate PreparedLeaves(w: World, a: Adapter, id: string, k: Journal)
    requires id in w.journal.records && FS.TargetKey(a.name, w.journal.records[id].intent.target).Some?
  {
    var s := SeenOf(w, a, id);
    && (s.None? ==> k == w.journal)
    && (s.Some? ==> k == Append(Postgres, w.journal, id, PreparedVerdict(w, a, id)).0)
    && (s.Some? ==> id in k.records && States(k.records[id].events) == [s.value])
  }

  lemma PreparedStep(w: World, a: Adapter, m: Move)
    requires Inv(w, a) && ReconcilesPrepared(w, a, m)
    ensures PreparedLeaves(w, a, m.id, Next(w, a, m).journal)
  {
    PreparedDecided(w, a, m.id, m.trouble);
  }

  lemma OthersClean(j: Journal, id: string, call: Call, failedToo: bool)
    requires Clean(j, failedToo) && id in Append(Postgres, j, id, call).0.records
    requires failedToo && States(Append(Postgres, j, id, call).0.records[id].events) == [Failed]
    ensures Clean(Append(Postgres, j, id, call).0, failedToo)
  {
  }

  lemma PreparedCleanExactly(w: World, a: Adapter, m: Move, k: Journal, failedToo: bool)
    requires ReconcilesPrepared(w, a, m) && Clean(w.journal, failedToo) && PreparedLeaves(w, a, m.id, k)
    ensures Clean(k, failedToo) <==> !Offends(w, a, m, failedToo)
    ensures Offends(w, a, m, failedToo) ==> Lone(k, m.id, failedToo)
  {
    if Offends(w, a, m, failedToo) {
      LoneIsNotClean(k, m.id, failedToo);
    } else if SeenOf(w, a, m.id).Some? {
      OthersClean(w.journal, m.id, PreparedVerdict(w, a, m.id), failedToo);
    }
  }

  lemma StepCleanExactly(w: World, a: Adapter, m: Move, failedToo: bool)
    requires Inv(w, a) && Clean(w.journal, failedToo)
    ensures Clean(Next(w, a, m).journal, failedToo) <==> !Offends(w, a, m, failedToo)
    ensures Offends(w, a, m, failedToo) ==> m.Reconciles? && Lone(Next(w, a, m).journal, m.id, failedToo)
  {
    if ReconcilesPrepared(w, a, m) {
      PreparedStep(w, a, m);
      PreparedCleanExactly(w, a, m, Next(w, a, m).journal, failedToo);
    } else {
      StepClean(w, a, m, failedToo);
    }
  }

  lemma StepClean(w: World, a: Adapter, m: Move, failedToo: bool)
    requires Inv(w, a) && Clean(w.journal, failedToo) && !ReconcilesPrepared(w, a, m)
    ensures Clean(Next(w, a, m).journal, failedToo)
  {
    InvKept(w, a);
    CleanClosed(failedToo);
    StepStays(j => Clean(j, failedToo), w, a, m);
  }

  lemma PreparedKeepsLone(w: World, a: Adapter, m: Move, k: Journal, id: string, failedToo: bool)
    requires ReconcilesPrepared(w, a, m) && Lone(w.journal, id, failedToo) && PreparedLeaves(w, a, m.id, k)
    ensures Lone(k, id, failedToo)
  {
    FinalStays(w.journal, id, m.id, PreparedVerdict(w, a, m.id));
  }

  /** A lone FAILED or VERIFIED event is final, whatever comes after it. */
  lemma StepKeepsLone(w: World, a: Adapter, m: Move, id: string, failedToo: bool)
    requires Inv(w, a) && Lone(w.journal, id, failedToo)
    ensures Lone(Next(w, a, m).journal, id, failedToo)
  {
    if ReconcilesPrepared(w, a, m) {
      PreparedStep(w, a, m);
      PreparedKeepsLone(w, a, m, Next(w, a, m).journal, id, failedToo);
    } else {
      InvKept(w, a);
      LoneClosed(id, failedToo);
      StepStays(j => Lone(j, id, failedToo), w, a, m);
    }
  }

  ghost predicate Python(j: Journal) { Spoken(InMemory, j) }

  lemma PythonIsClean(j: Journal)
    ensures Python(j) <==> Clean(j, false)
  {
    if Python(j) {
      forall id | id in j.records ensures PythonWord(States(j.records[id].events)) {
        assert Word(InMemory, States(j.records[id].events));
      }
    }
  }

  /**
   In every reachable world a step leaves the Python journal's language exactly when it decides what was never
   attempted.
   */
  lemma StaysPythonExactly(w: World, a: Adapter, m: Move)
    requires Inv(w, a) && Python(w.journal)
    ensures Python(Next(w, a, m).journal) <==> !DecidesPrepared(w, a, m)
  {
    PythonIsClean(w.journal);
    PythonIsClean(Next(w, a, m).journal);
    StepCleanExactly(w, a, m, false);
  }

  // ---- every run ----

  ghost predicate NeverOffends(a: Adapter, moves: seq<Move>, failedToo: bool) {
    forall n {:trigger moves[n]} | 0 <= n < |moves| :: !Offends(Reach(a, moves[..n]), a, moves[n], failedToo)
  }

  lemma ReachStep(a: Adapter, moves: seq<Move>, m: Move)
    ensures Reach(a, moves + [m]) == Next(Reach(a, moves), a, m)
  {
    assert Front(moves + [m]) == moves;
  }

  /** Induction over runs. */
  lemma {:induction false} OverRuns(p: seq<Move> -> bool, moves: seq<Move>)
    requires p([]) && forall s, m {:trigger p(s + [m])} :: p(s) ==> p(s + [m])
    ensures p(moves)
  {
    if moves != [] {
      OverRuns(p, Front(moves));
      assert moves == Front(moves) + [Last(moves)];
    }
  }

  lemma StartsEmpty(a: Adapter)
    ensures Reach(a, []).journal == EMPTY
  {
  }

  lemma NeverOffendsStep(a: Adapter, moves: seq<Move>, m: Move, failedToo: bool)
    ensures NeverOffends(a, moves + [m], failedToo) <==>
            NeverOffends(a, moves, failedToo) && !Offends(Reach(a, moves), a, m, failedToo)
  {
    var all := moves + [m];
    assert all[|moves|] == m && all[..|moves|] == moves;
    if NeverOffends(a, all, failedToo) {
      forall n {:trigger moves[n]} | 0 <= n < |moves|
        ensures !Offends(Reach(a, moves[..n]), a, moves[n], failedToo)
      {
        assert all[n] == moves[n] && all[..n] == moves[..n];
      }
    }
    if NeverOffends(a, moves, failedToo) && !Offends(Reach(a, moves), a, m, failedToo) {
      forall n {:trigger all[n]} | 0 <= n < |all| ensures !Offends(Reach(a, all[..n]), a, all[n], failedToo) {
        if n < |moves| { assert all[n] == moves[n] && all[..n] == moves[..n]; }
      }
    }
  }

  lemma CallablePrefix(a: Adapter, moves: seq<Move>, m: Move)
    requires CallableRun(moves + [m])
    ensures CallableRun(moves) && Inv(Reach(a, moves), a)
  {
    var all := moves + [m];
    forall n {:trigger moves[n]} | 0 <= n < |moves| ensures Callable(moves[n]) { assert all[n] == moves[n]; }
    ReachKeepsInv(a, moves);
  }

  /** Either every history is clean, or some operation ended without an attempt. */
  ghost predicate Decides(early: bool, j: Journal, failedToo: bool) {
    if early then Clean(j, failedToo) else exists id :: Lone(j, id, failedToo)
  }

  lemma StepDecides(w: World, a: Adapter, m: Move, early: bool, failedToo: bool)
    requires Inv(w, a) && Decides(early, w.journal, failedToo)
    ensures Decides(early && !Offends(w, a, m, failedToo), Next(w, a, m).journal, failedToo)
  {
    if !early {
      var id :| Lone(w.journal, id, failedToo);
      StepKeepsLone(w, a, m, id, failedToo);
    } else {
      StepCleanExactly(w, a, m, failedToo);
    }
  }

  ghost predicate RunDecided(a: Adapter, moves: seq<Move>, failedToo: bool) {
    CallableRun(moves) ==> Decides(NeverOffends(a, moves, failedToo), Reach(a, moves).journal, failedToo)
  }

  lemma NextDecides(a: Adapter, before: seq<Move>, m: Move, failedToo: bool)
    requires RunDecided(a, before, failedToo)
    ensures RunDecided(a, before + [m], failedToo)
  {
    if CallableRun(before + [m]) {
      CallablePrefix(a, before, m);
      StepDecides(Reach(a, before), a, m, NeverOffends(a, before, failedToo), failedToo);
      NeverOffendsStep(a, before, m, failedToo);
      ReachStep(a, before, m);
    }
  }

  lemma RunDecides(a: Adapter, moves: seq<Move>, failedToo: bool)
    ensures RunDecided(a, moves, failedToo)
  {
    StartsEmpty(a);
    forall s, m | RunDecided(a, s, failedToo) ensures RunDecided(a, s + [m], failedToo) {
      NextDecides(a, s, m, failedToo);
    }
    OverRuns(s => RunDecided(a, s, failedToo), moves);
  }

  lemma CleanExactly(a: Adapter, moves: seq<Move>, failedToo: bool)
    requires CallableRun(moves)
    ensures Clean(Reach(a, moves).journal, failedToo) <==> NeverOffends(a, moves, failedToo)
    ensures NeverOffends(a, moves, failedToo) || exists id :: Lone(Reach(a, moves).journal, id, failedToo)
  {
    RunDecides(a, moves, failedToo);
    if !NeverOffends(a, moves, failedToo) {
      var id :| Lone(Reach(a, moves).journal, id, failedToo);
      LoneIsNotClean(Reach(a, moves).journal, id, failedToo);
    }
  }

  /**
   Over every run: every history the coordinator has written is one of the Python journal's exactly when no
   step ever decided an operation that was still PREPARED.
   */
  lemma PythonHistoriesExactly(a: Adapter, moves: seq<Move>)
    requires CallableRun(moves)
    ensures Python(Reach(a, moves).journal) <==>
            forall n {:trigger moves[n]} | 0 <= n < |moves| :: !DecidesPrepared(Reach(a, moves[..n]), a, moves[n])
  {
    PythonIsClean(Reach(a, moves).journal);
    CleanExactly(a, moves, false);
    OffendsDecides(a, moves);
  }

  lemma OffendsDecides(a: Adapter, moves: seq<Move>)
    ensures NeverOffends(a, moves, false) <==>
            forall n {:trigger moves[n]} | 0 <= n < |moves| :: !DecidesPrepared(Reach(a, moves[..n]), a, moves[n])
    ensures NeverOffends(a, moves, true) <==>
            forall n {:trigger moves[n]} | 0 <= n < |moves| :: !VerifiesPrepared(Reach(a, moves[..n]), a, moves[n])
  {
  }

  // ---- VERIFIED follows an attempt ----

  ghost predicate VerifiedAttempted(j: Journal) {
    forall id {:trigger j.records[id]} | id in j.records && CurrentState(j.records[id].events) == Verified ::
      j.records[id].events[0].state == Attempted
  }

  lemma CleanAttempted(j: Journal)
    requires Clean(j, true)
    ensures VerifiedAttempted(j)
  {
    forall id | id in j.records && CurrentState(j.records[id].events) == Verified
      ensures j.records[id].events[0].state == Attempted
    {
      var e := j.records[id].events;
      assert States(e)[|e| - 1] == Verified;
    }
  }

  lemma LoneUnattempted(j: Journal, id: string)
    requires Lone(j, id, true)
    ensures !VerifiedAttempted(j)
  {
    var e := j.records[id].events;
    assert States(e)[0] == Verified;
  }

  /**
   Over every run: every VERIFIED operation was attempted first exactly when no step ever read back an operation
   that was still PREPARED and found its digest in place.
   */
  lemma VerifiedAttemptedExactly(a: Adapter, moves: seq<Move>)
    requires CallableRun(moves)
    ensures VerifiedAttempted(Reach(a, moves).journal) <==>
            forall n {:trigger moves[n]} | 0 <= n < |moves| :: !VerifiesPrepared(Reach(a, moves[..n]), a, moves[n])
  {
    CleanExactly(a, moves, true);
    OffendsDecides(a, moves);
    var j := Reach(a, moves).journal;
    if NeverOffends(a, moves, true) {
      CleanAttempted(j);
    } else {
      var id :| Lone(j, id, true);
      LoneUnattempted(j, id);
    }
  }

  /** A digest of its own is not seen before the operation was attempted. */
  lemma UnsharedNotSeen(w: World, a: Adapter, id: string)
    requires Inv(w, a) && id in w.journal.records && w.journal.records[id].events == [] && Unshared(w.journal, id)
    requires FS.TargetKey(a.name, w.journal.records[id].intent.target).Some?
    ensures SeenOf(w, a, id) == Some(Failed)
  {
    NotYetFiled(w, a, id);
    UnsharedShows(w, a, id);
  }

  /** With a digest of its own, reconciling an operation that was never attempted appends one FAILED event. */
  lemma PreparedBecomesFailed(w: World, a: Adapter, id: string, t: Trouble)
    requires Inv(w, a) && ReconcilesPrepared(w, a, Reconciles(id, t)) && Unshared(w.journal, id)
    ensures
      var j := ReconcileOperation(w, a, id, t).0.journal;
      && id in j.records && States(j.records[id].events) == [Failed]
      && j == Append(Postgres, w.journal, id, PreparedVerdict(w, a, id)).0
  {
    UnsharedNotSeen(w, a, id);
    PreparedDecided(w, a, id, t);
  }

  /** Whatever is VERIFIED without an attempt shares its digest. */
  ghost predicate Earned(j: Journal) {
    forall id {:trigger j.records[id]} | id in j.records ::
      || PythonWord(States(j.records[id].events)) || States(j.records[id].events) == [Failed]
      || (States(j.records[id].events) == [Verified] && !Unshared(j, id))
  }

  ghost predicate SharesWith(j: Journal, id: string, x: string) {
    && id in j.records && x in j.records && x != id
    && j.records[x].intent.target == j.records[id].intent.target
         && j.records[x].intent.digest == j.records[id].intent.digest
  }

  lemma SharedMeans(j: Journal, id: string) returns (x: string)
    requires id in j.records && !Unshared(j, id)
    ensures SharesWith(j, id, x)
  {
    x :| x in j.records && x != id && j.records[x].intent.target == j.records[id].intent.target
      && j.records[x].intent.digest == j.records[id].intent.digest;
  }

  lemma SharedStays(j: Journal, k: Journal, id: string)
    requires id in j.records && !Unshared(j, id)
    requires forall x | x in j.records :: x in k.records && k.records[x].intent == j.records[x].intent
    ensures !Unshared(k, id)
  {
    var x := SharedMeans(j, id);
    assert SharesWith(k, id, x);
  }

  lemma EarnedAppends(j: Journal, id: string, call: Call, x: string)
    requires Earned(j) && Ready(j, id, call) && x in j.records
    ensures
      var k := Append(Postgres, j, id, call).0;
      && x in k.records
      && (PythonWord(States(k.records[x].events)) || States(k.records[x].events) == [Failed]
          || (States(k.records[x].events) == [Verified] && !Unshared(k, x)))
  {
    var k := Append(Postgres, j, id, call).0;
    if !PythonWord(States(j.records[x].events)) {
      FinalStays(j, x, id, call);
      if States(j.records[x].events) == [Verified] { SharedStays(j, k, x); }
    } else if x == id && SqlRefusal(j.records[x].events, call).None? {
      BackendsPart(j.records[x].events, call);
      WordGrows(InMemory, j.records[x].events, call);
    }
  }

  lemma EarnedClosed()
    ensures Closed(j => Earned(j))
  {
    forall j, id, call | Earned(j) && Ready(j, id, call) ensures Earned(Append(Postgres, j, id, call).0) {
      forall x | x in j.records
        ensures
          var k := Append(Postgres, j, id, call).0;
          && x in k.records
          && (PythonWord(States(k.records[x].events)) || States(k.records[x].events) == [Failed]
              || (States(k.records[x].events) == [Verified] && !Unshared(k, x)))
      {
        EarnedAppends(j, id, call, x);
      }
    }
    forall j: Journal, i: Intent | Earned(j) && i.id !in j.records ensures Earned(Insert(j, i)) { EarnedInserts(j, i); }
  }

  lemma EarnedInserts(j: Journal, i: Intent)
    requires Earned(j) && i.id !in j.records
    ensures Earned(Insert(j, i))
  {
    var k := Insert(j, i);
    assert PythonWord(States([]));
    forall x | x in j.records && States(j.records[x].events) == [Verified] ensures !Unshared(k, x) {
      assert !PythonWord([Verified]);
      SharedStays(j, k, x);
    }
  }

  lemma OthersEarned(j: Journal, k: Journal, id: string, call: Call)
    requires Earned(j) && id in j.records && k == Append(Postgres, j, id, call).0
    requires States(k.records[id].events) == [Failed]
      || (States(k.records[id].events) == [Verified] && !Unshared(j, id))
    ensures Earned(k)
  {
    if States(k.records[id].events) == [Verified] { SharedStays(j, k, id); }
    forall x | x in j.records && States(j.records[x].events) == [Verified] ensures !Unshared(k, x) {
      assert !PythonWord([Verified]);
      SharedStays(j, k, x);
    }
  }

  lemma PreparedEarned(w: World, a: Adapter, id: string, k: Journal)
    requires Inv(w, a) && Earned(w.journal) && id in w.journal.records && w.journal.records[id].events == []
    requires FS.TargetKey(a.name, w.journal.records[id].intent.target).Some? && PreparedLeaves(w, a, id, k)
    ensures Earned(k)
  {
    if SeenOf(w, a, id).Some? {
      if SeenOf(w, a, id) == Some(Verified) && Unshared(w.journal, id) { UnsharedNotSeen(w, a, id); }
      OthersEarned(w.journal, k, id, PreparedVerdict(w, a, id));
    }
  }

  lemma StepEarned(w: World, a: Adapter, m: Move)
    requires Inv(w, a) && Earned(w.journal)
    ensures Earned(Next(w, a, m).journal)
  {
    if ReconcilesPrepared(w, a, m) {
      PreparedStep(w, a, m);
      PreparedEarned(w, a, m.id, Next(w, a, m).journal);
    } else {
      InvKept(w, a);
      EarnedClosed();
      StepStays(j => Earned(j), w, a, m);
    }
  }

  ghost predicate RunEarned(a: Adapter, moves: seq<Move>) {
    CallableRun(moves) ==> Earned(Reach(a, moves).journal)
  }

  lemma NextEarned(a: Adapter, before: seq<Move>, m: Move)
    requires RunEarned(a, before)
    ensures RunEarned(a, before + [m])
  {
    if CallableRun(before + [m]) {
      CallablePrefix(a, before, m);
      StepEarned(Reach(a, before), a, m);
      ReachStep(a, before, m);
    }
  }

  lemma EarnedAttempted(j: Journal, id: string)
    requires Earned(j) && id in j.records && Unshared(j, id) && CurrentState(j.records[id].events) == Verified
    ensures j.records[id].events[0].state == Attempted
  {
    var e := j.records[id].events;
    assert States(e)[|e| - 1] == Verified;
  }

  /**
   Over every run: a VERIFIED operation with a digest of its own was attempted first, whatever was reconciled
   when.
   */
  lemma VerifiedWasAttempted(a: Adapter, moves: seq<Move>, id: string)
    requires CallableRun(moves) && id in Reach(a, moves).journal.records && Unshared(Reach(a, moves).journal, id)
    requires CurrentStateOf(Reach(a, moves), id) == Verified
    ensures Reach(a, moves).journal.records[id].events[0].state == Attempted
  {
    StartsEmpty(a);
    forall s, m | RunEarned(a, s) ensures RunEarned(a, s + [m]) { NextEarned(a, s, m); }
    OverRuns(s => RunEarned(a, s), moves);
    EarnedAttempted(Reach(a, moves).journal, id);
  }
}
