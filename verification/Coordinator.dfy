/**
 The execution coordinator as it runs: it drives the effect tables, the file injector and the outcome table in
 order.
 */
module Coordinator {
  import opened Prelude
  import opened Json
  import opened Operations
  import opened Bindings
  import opened Execution
  import opened ExecutionInvariants
  import opened ExecutionSteps
  import opened JournalStores
  import L = LifecycleTables
  import FS = FileStore

  lemma ExecuteKept(w: World, a: Adapter, job: Job, newId: string, t: Trouble)
    ensures Inv(w, a) && Constructed(job.bindings) ==> Inv(Execution.Execute(w, a, job, newId, t).0, a)
  {
    if Inv(w, a) && Constructed(job.bindings) { ExecuteKeepsInv(w, a, job, newId, t); }
  }

  lemma ReconcileKept(w: World, a: Adapter, id: string, t: Trouble)
    ensures Inv(w, a) ==> Inv(ReconcileOperation(w, a, id, t).0, a)
  {
    if Inv(w, a) { ReconcileKeepsInv(w, a, id, t); }
  }

  lemma RecoverKept(w: World, a: Adapter, id: string)
    ensures Inv(w, a) ==> Inv(RecoverOutcome(w, a, id).0, a)
  {
    if Inv(w, a) { RecoverKeepsInv(w, a, id); }
  }

  class ExecutionCoordinator {
    const adapter: Adapter
    const store: EffectTables
    const files: FS.ReferenceFileInjector
    var outcomes: map<string, Outcome>
    var tables: L.Tables
    var now: L.Time

    constructor (store: EffectTables, files: FS.ReferenceFileInjector, tables: L.Tables, now: L.Time)
      requires store.Valid()
      ensures Valid() && State() == World(store.Snapshot(), files.dirs, map[], tables, now)
      ensures this.store == store && this.files == files && adapter == Adapter(files.name, files.version)
    {
      this.store, this.files, this.tables, this.now := store, files, tables, now;
      adapter, outcomes := Adapter(files.name, files.version), map[];
    }

    ghost predicate Valid()
      reads this, store
    {
      store.Valid() && files.name == adapter.name && files.version == adapter.version
    }

    /** Everything that survives a crash of the coordinator. */
    function State(): World
      reads this, store, files
    {
      World(store.Snapshot(), files.dirs, outcomes, tables, now)
    }

    method Append(id: string, call: Call) returns (r: Result<Event, Operations.Fault>)
      requires Valid()
      modifies store`rows
      ensures Valid() && (State(), r) == Append1(old(State()), id, call)
    {
      r := store.RecordEvent(id, call);
    }

    method MarkAndRaise(id: string, evidence: string, stop: Stop) returns (reply: Reply)
      requires Valid()
      modifies store`rows
      ensures Valid() && (State(), reply) == Doubt(old(State()), id, evidence, stop)
    {
      var r := Append(id, MarkAmbiguous(evidence));
      return Raised(if r.Ok? then stop else JournalRefused(r.error));
    }

    /** `record_verified_outcome_observation`. */
    method RecordVerifiedOutcome(id: string, o: Outcome) returns (r: Result<Outcome, OutcomeFault>)
      requires Valid() && id in State().journal.records
      modifies this`outcomes
      ensures Valid() && (State(), r) == RecordOutcome(old(State()), id, o)
    {
      var i := store.operations[id];
      var latest := store.LatestEventOf(id);
      if latest.None? || latest.value.state != Verified {
        return Error(OutcomeNotVerified);
      }
      if i.digest != o.effect {
        return Error(OutcomeDigestMismatch);
      }
      if TextField(i.payload, "correction_id") != Some(o.correction)
         || Field(i.payload, "correction_revision") != Some(Int(o.revision))
         || TextField(i.payload, "promotion_id") != Some(o.promotion)
         || TextField(i.payload, "binding_id") != Some(o.binding)
         || TextField(i.payload, "selector_digest") != Some(o.scope) {
        return Error(OutcomeSubjectMismatch);
      }
      if latest.value.evidence != Some(o.evidence) {
        return Error(OutcomeEvidenceMismatch);
      }
      if !Lineage(tables, i, o) {
        return Error(OutcomeLineageMismatch);
      }
      if id in outcomes {
        if outcomes[id] != o {
          return Error(OutcomeCollision);
        }
        return Ok(o);
      }
      outcomes := outcomes[id := o];
      return Ok(o);
    }

    method ConcludeVerified(i: Intent, b: InjectionBinding, evidence: string) returns (reply: Reply)
      requires Valid() && b.Executable()
      modifies this`outcomes
      ensures Valid() && (State(), reply) == Conclude(old(State()), i, b, evidence)
    {
      if i.id !in store.operations {
        return Raised(JournalRefused(UnknownOperation));
      }
      var r := RecordVerifiedOutcome(i.id, OutcomeFor(i, b, evidence));
      if r.Error? {
        return Raised(OutcomeRefused(r.error));
      }
      return Finished(i.id, Verified, Some(r.value));
    }

    /** `_apply_readback`. */
    method ApplyReading(b: InjectionBinding, i: Intent, r: FS.Readback, t: Trouble) returns (reply: Reply)
      requires Valid() && b.Executable()
      modifies this`outcomes, store`rows
      ensures Valid() && (State(), reply) == ApplyReadback(old(State()), b, i, r, t)
    {
      match r.verdict
      case FoundAmbiguous =>
        var state := store.StateOf(i.id);
        if state == Attempted {
          var marked := Append(i.id, MarkAmbiguous(r.evidence));
          if marked.Error? {
            return Raised(JournalRefused(marked.error));
          }
          return Finished(i.id, Ambiguous, None);
        }
        return Finished(i.id, state, None);
      case FoundFailed =>
        var failed := Append(i.id, Reconcile(false, r.evidence, None));
        if failed.Error? {
          return Raised(JournalRefused(failed.error));
        }
        return Finished(i.id, Failed, None);
      case FoundVerified(observed) =>
        if !Dumpable(Plain(observed)) {
          return Raised(ReadbackRaised);
        }
        var verified := Append(i.id, Reconcile(true, r.evidence, Some(DigestOf(Plain(observed)))));
        if verified.Error? {
          return Raised(JournalRefused(verified.error));
        }
        if Stops(t, 6) {
          return Dead;
        }
        reply := ConcludeVerified(i, b, r.evidence);
    }

    method ReadBack(b: InjectionBinding, i: Intent, t: Trouble) returns (reply: Reply)
      requires Valid() && b.Executable()
      modifies this`outcomes, store`rows
      ensures Valid() && (State(), reply) == Observe(old(State()), adapter, b, i, t)
    {
      var read := files.ReadbackTarget(i.target, i.digest);
      if read.Error? {
        var state := store.StateOf(i.id);
        if state == Attempted {
          reply := MarkAndRaise(i.id, "readback-exception:" + adapter.name + "@" + adapter.version, ReadbackRaised);
          return;
        }
        return Raised(ReadbackRaised);
      }
      reply := ApplyReading(b, i, read.value, t);
    }

    method Continue(sequel: Sequel, b: InjectionBinding, i: Intent, t: Trouble) returns (reply: Reply)
      requires Valid() && b.Executable()
      modifies this`outcomes, store`rows
      ensures Valid() && (State(), reply) == Settle(old(State()), sequel, adapter, b, i, t)
    {
      match sequel
      case Die => return Dead;
      case Doubting(evidence, stop) => reply := MarkAndRaise(i.id, evidence, stop);
      case Rethrowing(stop) => return Raised(stop);
      case Observing => reply := ReadBack(b, i, t);
    }

    /** The handler call and what follows it. */
    method Invoke(b: InjectionBinding, i: Intent, t: Trouble) returns (reply: Reply)
      requires Valid() && b.Executable()
      modifies this`outcomes, store`rows, files`dirs
      ensures Valid() && (State(), reply) == Dispatch(old(State()), adapter, b, i, t)
    {
      var answer := files.Execute(RequestOf(i), FileWrites(t));
      var fault := if answer.Error? then Some(answer.error) else None;
      reply := Continue(SequelOf(adapter, t, fault), b, i, t);
    }

    /** `execute`. */
    method Execute(job: Job, newId: string, t: Trouble) returns (reply: Reply)
      requires Valid()
      modifies this`outcomes, store, files`dirs
      ensures Valid() && (State(), reply) == Execution.Execute(old(State()), adapter, job, newId, t)
      ensures Inv(old(State()), adapter) && Constructed(job.bindings) ==> Inv(State(), adapter)
    {
      ExecuteKept(State(), adapter, job, newId, t);
      var choice := Choose(State(), adapter, job);
      if choice.Error? {
        return Raised(choice.error);
      }
      var b := choice.value;
      if Stops(t, 0) {
        return Dead;
      }
      reply := PrepareAndRun(job, newId, b, t);
    }

    method PrepareAndRun(job: Job, newId: string, b: InjectionBinding, t: Trouble) returns (reply: Reply)
      requires Valid() && b.Executable()
      modifies this`outcomes, store, files`dirs
      ensures Valid() && (State(), reply) == Begin(old(State()), adapter, job, newId, b, t)
    {
      var payload := Plain(OperationPayload(b, job.context, job.effect));
      if !Dumpable(payload) {
        return Raised(JournalRefused(NotJson));
      }
      var digest := EffectDigest(job.target, Kind(adapter), payload);
      var prepared := store.PrepareEffectOperation(newId, job.key, job.target, Kind(adapter), payload, digest);
      if prepared.Error? {
        return Raised(JournalRefused(prepared.error));
      }
      if Stops(t, 1) {
        return Dead;
      }
      reply := AttemptAndRun(b, prepared.value.intent, t);
    }

    method AttemptAndRun(b: InjectionBinding, i: Intent, t: Trouble) returns (reply: Reply)
      requires Valid() && b.Executable()
      modifies this`outcomes, store`rows, files`dirs
      ensures Valid() && (State(), reply) == Launch(old(State()), adapter, b, i, t)
    {
      var attempted := Append(i.id, Attempt(Some("binding:" + b.id)));
      if attempted.Error? {
        return Raised(JournalRefused(attempted.error));
      }
      if Stops(t, 2) {
        return Dead;
      }
      reply := Invoke(b, i, t);
    }

    /** `reconcile`. */
    method ReconcileOne(id: string, t: Trouble) returns (reply: Reply)
      requires Valid()
      modifies this`outcomes, store`rows
      ensures Valid() && (State(), reply) == ReconcileOperation(old(State()), adapter, id, t)
      ensures Inv(old(State()), adapter) ==> Inv(State(), adapter)
    {
      ReconcileKept(State(), adapter, id, t);
      var rebuilt := Rebuilt(State(), adapter, id);
      if rebuilt.Error? {
        return Raised(rebuilt.error);
      }
      reply := Continue(ReconcileSequel(State(), adapter, id, t), rebuilt.value, store.operations[id], t);
    }

    /** `recover_outcome`. */
    method RecoverOne(id: string) returns (reply: Reply)
      requires Valid()
      modifies this`outcomes
      ensures Valid() && (State(), reply) == RecoverOutcome(old(State()), adapter, id)
      ensures Inv(old(State()), adapter) ==> Inv(State(), adapter)
    {
      RecoverKept(State(), adapter, id);
      reply := RecoverChecked(id);
    }

    /** Its checks in order, and then the outcome. */
    method RecoverChecked(id: string) returns (reply: Reply)
      requires Valid()
      modifies this`outcomes
      ensures Valid() && (State(), reply) == RecoverOutcome(old(State()), adapter, id)
    {
      if id !in store.operations {
        return Raised(JournalRefused(UnknownOperation));
      }
      var state := store.StateOf(id);
      if state != Verified {
        return Raised(NotVerified);
      }
      var rebuilt := Rebuilt(State(), adapter, id);
      if rebuilt.Error? {
        return Raised(rebuilt.error);
      }
      var evidence := RecoverEvidence(State(), adapter, State().journal.records[id]);
      if evidence.Error? {
        return Raised(evidence.error);
      }
      reply := ConcludeVerified(store.operations[id], rebuilt.value, evidence.value);
    }
  }
}
