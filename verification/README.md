# Verified model of F.U.C.K.U.P.

A Dafny model of the failure-correction protocol: how a correction is qualified, promoted, bound to a
scope, executed through a file-backed injector, recovered after a crash, and handed to a new session.
`dafny verify dfyconfig.toml` checks the whole project.

| files | system part |
|---|---|
| `LifecycleTables`, `LifecycleInvariants`, `LifecycleTheorems`, `LifecycleGrants`, `LifecycleDb` | correction revisions, promotions and bindings in SQL (migrations 0001, 0003, 0005); `Tables` is the specification state, `Database` the tables updated in place |
| `Bindings` | the binding type and its conflict resolver |
| `Strings`, `Json` | canonical JSON text, its parser, freezing, digests |
| `Operations`, `JournalStores` | the operation journal in memory and in Postgres (0004), side by side |
| `Dispatch` | any number of coordinators interleaving over the durable journal |
| `FileStore`, `SharedDigests` | the reference file injector, write by write, and how far it goes when operations share a digest |
| `Execution`, `ExecutionInvariants`, `ExecutionSteps`, `ExecutionTheorems`, `ExecutionDisturbances`, `ExecutionCrashes`, `ExecutionRecovery`, `ExecutionHistories`, `Coordinator` | governed execution, reconcile, outcome recovery (0006) and the runbook; `World` is everything that survives a crash |
| `Preflight` | the session preflight and the check before dispatch |
| `Validation`, `Ledger`, `LedgerTheorems` | the validation gate, the default policy, the in-memory ledger |
| `Occurrences` | durable incident occurrences (0004) |
| `Jobs`, `JobLeases` | the worker-job machine and its table in SQL (0001, 0002) |
| `KeyScan`, `Fingerprint`, `DriftGuard` | the smaller algorithms |

## Conventions

- Each journal call, atomic file write, outcome insert and guarded SQL function is one atomic step. A
  process can die between any two steps; a handler or readback can raise at any point.
- SHA-256 is idealised: a digest is its prefix followed by the text it was taken over. "Equal digests"
  therefore means "equal canonical text", which `Json.TextInjective` turns into "equal values".
- A Python mapping is a Dafny map, so key order is not represented; `sort_keys` makes it irrelevant
  to every digest. Times are integers. Ids an id factory or `uuid4` returns are parameters.
- Imperative parts are classes whose methods are proved equal, step by step, to specification
  functions on a value snapshot; the theorems are about those functions. Each method also ensures the
  invariant that its specification function is proved to keep.
- The invariant of governed execution, `ExecutionInvariants.Inv`, holds in every run. Nothing in it asks that
  operations have distinct digests; the journal does not ensure that (`ExecutionCrashes.SecondKeySharesDigest`).
  Delivery, preflight, recovery, crashes and histories are stated over it, with exact conditions where a shared
  digest matters. `Unshared` is the premise, on one operation, under which the current pointer alone decides.
- The file store itself is compared with an undo stack. `FileStore` takes one digest per operation;
  `SharedDigests` says exactly what remains without it, over every run. `SharedDigests.NeverAmbiguousByLayer`
  reads the condition of `NeverAmbiguousExactly` off the stack where the other operations have distinct digests.
- The drift-guard rules themselves are `DriftGuard.Allowed` and `DriftGuard.Consistent`; what is proved is that
  `ValidateResult` enforces them. `DriftGuard.VerdictDetermined` and `DriftGuard.ChoiceExactly` only read them.
  Likewise `ExecutionRecovery.RecoveredIsExecuted` rests on `ExecutionInvariants.RebuiltBinding`.

## Where code and documentation differ

- `docs/specs/2026-09-25-execution-integrity-v2-design.md:29-49` says database constraints reject illegal
  lifecycle sequences and that an operation is attempted before it is verified or failed. The SQL function
  lets a PREPARED operation be reconciled straight to VERIFIED or FAILED, because
  `current_state NOT IN (...)` is NULL without events (`migrations/0004_execution_integrity.sql:220`). The
  model follows the code; `Operations.BackendsPart` and `Operations.EveryWord` state the difference exactly.
  Through the coordinator both are reached by reconciling a PREPARED operation and in no other way: FAILED when
  the target does not show its digest, VERIFIED when the current pointer shows it over its own version file,
  which takes a second operation with that digest (`ExecutionHistories.PreparedDecided`,
  `PythonHistoriesExactly`, `VerifiedAttemptedExactly`).
- The recursive query that guards supersession against cycles never rejects anything: a superseded
  correction is terminal, and the unique outbox key refuses a second supersession.

## Model

| member | source | states |
|---|---|---|
| `LifecycleInvariants.NextKeepsInv` | migrations/0001_core.sql:281-522 | every guarded lifecycle call keeps the joint invariant of revisions, qualifications, promotions, bindings, statuses and supersession edges |
| `LifecycleInvariants.ReachableInv` | migrations/0001_core.sql:281-522 | the joint invariant holds after every run of guarded calls from empty tables |
| `LifecycleTheorems.WithdrawnForGood` | migrations/0005_governed_injector_execution.sql:46-70 | a binding row is outside the effective view exactly for five reasons: inactive, promotion revoked, expired, revision no longer current, correction terminal |
| `LifecycleTheorems.NextMonotone` | migrations/0003_authorization_continuity.sql:403-465 | each call only deactivates or shortens bindings (identity columns fixed), only revokes promotions once, only advances corrections, and leaves terminal ones still |
| `LifecycleTheorems.RunMonotone` | migrations/0001_core.sql:363-522 | the same between any two points of any run |
| `LifecycleTheorems.NoResurrection` | migrations/0005_governed_injector_execution.sql:46-70 | no resurrection: over every run and non-decreasing clock, a binding once out of the effective view never returns |
| `LifecycleTheorems.ChainGetsOlder` | migrations/0001_core.sql:281-403 | along any supersession chain over the whole history the edges strictly age |
| `LifecycleTheorems.SupersessionAcyclic` | migrations/0001_core.sql:281-403 | whole-history supersession has no cycle, over current and past revisions alike |
| `LifecycleTheorems.SupersededAtMostOnce` | migrations/0001_core.sql:180-192 | a correction is superseded by at most one revision ever, and only at one of its revisions (the unique outbox key) |
| `LifecycleTheorems.CycleQueryTerminates` | migrations/0001_core.sql:339-352 | the recursive supersession query stops from every start, within the size of the outbox |
| `LifecycleTheorems.CycleGuardNeverDecides` | migrations/0001_core.sql:339-356 | when the other guards pass the recursive query never finds the inserting correction, so the cycle guard rejects nothing |
| `LifecycleTheorems.AuthorityLineage` | migrations/0003_authorization_continuity.sql:91-401 | an effective binding traces to an unrevoked promotion equal to its authorization, under an allowing policy, with a PASS qualification on the exact current digest, and every context its selector lets through is within the authorized scope |
| `LifecycleTheorems.ScopeLaw` | migrations/0003_authorization_continuity.sql:3-29 | selector within scope holds exactly when both are proper selectors and every context that has each pair of the selector has each pair of the scope |
| `LifecycleGrants.ViewChangesExactly` | migrations/0005_governed_injector_execution.sql:46-70 | how each call changes the effective view, at every clock: a revision takes out its own correction's bindings and the superseded one's, a revocation its promotion's, a restriction its own from the expiry on or for good, only a new binding enters, a raise changes nothing |
| `LifecycleGrants.BindsExactly` | migrations/0003_authorization_continuity.sql:310-401 | a binding is created exactly when its texts are there, its id and its promotion, adapter and selector digest are new, every context of its selector lies within the authorized scope, and its row would be effective at once; only that row is added |
| `LifecycleGrants.OutsideScopeExactly` | migrations/0003_authorization_continuity.sql:366-370 | with texts present and the promotion in force, it is refused for its scope exactly when its selector is not proper or lets through a context outside the scope |
| `LifecycleGrants.BindingRefusals` | migrations/0003_authorization_continuity.sql:340-376 | the other refusals: unknown promotion, promotion not in force, expiry not in the future, id or claim taken |
| `LifecycleGrants.RestrictsExactly` | migrations/0003_authorization_continuity.sql:403-446 | a restriction succeeds exactly for a known binding, when it deactivates or names an expiry no later than the present one, and changes only what was asked, in that row alone |
| `LifecycleGrants.RestrictedForGood` | migrations/0003_authorization_continuity.sql:403-446 | over every run: after a restriction that deactivates the binding is never effective again, and with an expiry never from the expiry on |
| `LifecycleGrants.PromotesExactly` | migrations/0003_authorization_continuity.sql:155-308 | a promotion is granted exactly for an admissible request on the revision its correction stands at, not yet ACTIVE, with a PASS on exactly that revision and digest, irreversibility acknowledged, and new ids |
| `LifecycleGrants.PromotesOnly` | migrations/0001_core.sql:463-489 | it adds its authorization, its row and one outbox row, and makes its correction ACTIVE, and nothing else |
| `LifecycleGrants.RevokesOnly` | migrations/0001_core.sql:491-522 | a revocation marks its promotion, deactivates its bindings, ends its correction if that revision is current, logs it, and nothing else |
| `LifecycleGrants.RevisesExactly` | migrations/0001_core.sql:281-361 | a revision is accepted exactly as its live correction's next, with a root cause of the same incident, superseding at most the current revision of another correction of that incident that no revision ever superseded |
| `LifecycleGrants.RevisesOnly` | migrations/0001_core.sql:363-403 | it adds its row, moves its correction to PROPOSED at that revision, and makes the superseded correction SUPERSEDED |
| `LifecycleGrants.InsertsExactly` | migrations/0001_core.sql:35-97 | an incident, root cause, correction or qualification is added exactly under a new id and for an incident, or a revision with that digest, that exists |
| `LifecycleTheorems.AuthorityCanBeGranted` | migrations/0003_authorization_continuity.sql:155-401 | from every reachable state a new correction, qualified on its exact digest, can be promoted and bound, and the binding is effective |
| `LifecycleTheorems.OnePromotionPerCorrection` | migrations/0001_core.sql:99-122 | all effective bindings of one correction come from one promotion |
| `LifecycleTheorems.ActiveMeaning` | migrations/0001_core.sql:363-522 | status ACTIVE holds exactly when an unrevoked promotion of the current revision exists and no revision superseded the correction |
| `LifecycleTheorems.RevocationAlwaysPossible` | migrations/0003_authorization_continuity.sql:448-465 | revocation succeeds exactly for an unrevoked promotion at or after its activation; its outbox key never stands in the way |
| `LifecycleDb.CycleQuery` | migrations/0001_core.sql:339-352 | the recursive query as a loop: it terminates and finds a correction exactly when some row of the query is it |
| `LifecycleDb.Database.InsertCorrectionRevision` | migrations/0001_core.sql:281-403 | inserting a revision with both triggers equals the specification without a cycle guard, and never raises the cycle error |
| `LifecycleDb.Database.Promote` | migrations/0003_authorization_continuity.sql:155-308 | authorize_and_promote with the promotion triggers: authorization row, guards evaluated again, promotion, projection and outbox row, or nothing |
| `LifecycleDb.Database.Revoke` | migrations/0003_authorization_continuity.sql:448-465 | revocation with its triggers: mark, bindings, current correction and outbox row, or nothing |
| `LifecycleDb.Database.BindVersioned` | migrations/0005_governed_injector_execution.sql:7-44 | the versioned binding is the guarded insert followed by the version update, in one transaction |
| `LifecycleDb.Database.Restrict` | migrations/0003_authorization_continuity.sql:403-446 | a binding can only be deactivated or given an expiry that is not later |
| `Bindings.ResolvesTheWinner` | src/fuckup_protocol/bindings.py:82-103 | the resolver returns a binding exactly when it is active with every pair of its selector in the context, occurs once, and beats every other such binding by priority, selector size, then (same correction) revision |
| `Bindings.MatchesExactly` | src/fuckup_protocol/bindings.py:74-75 | a binding matches exactly when it is active and each key/value pair of its selector is one of the context |
| `Bindings.WithinExactly` | src/fuckup_protocol/bindings.py:23-25 | a selector lies within a scope exactly when the scope is not empty and each of its pairs is one of the selector |
| `Bindings.FitsWithinScope` | src/fuckup_protocol/bindings.py:46-75 | the context a constructed binding answers has every pair of its activation scope |
| `Bindings.ConstructibleExactly` | src/fuckup_protocol/bindings.py:46-62 | the constructor accepts exactly a positive revision, proper selectors of which the first lies within the second, and either no execution identity or a whole one with visible parts |
| `Bindings.NoneOnlyWithoutMatch` | src/fuckup_protocol/bindings.py:85-87 | it returns nothing exactly when no active binding has all its selector's pairs in the context |
| `Bindings.RaisesOnlyUndecided` | src/fuckup_protocol/bindings.py:105-106 | it raises exactly when something matches and there is no such maximum |
| `Bindings.OrderIndependent` | src/fuckup_protocol/bindings.py:82-106 | the result, conflict report included, depends only on the multiset of bindings |
| `Bindings.LoserIsIrrelevant` | src/fuckup_protocol/bindings.py:82-106 | removing any binding that did not win changes nothing |
| `Bindings.TieBreakUnused` | src/fuckup_protocol/bindings.py:98-103 | where one correction never offers two revisions, the resolver decides exactly when at most one binding is on top |
| `Json.ParseUndoesText` | src/fuckup_protocol/operations.py:33-43 | the compact sorted-key text (RFC 8259, sections 4, 5 and 7) has a parser that reads back exactly the plain value, from any position |
| `Json.TextInjective` | src/fuckup_protocol/operations.py:33-43 | two values have the same canonical text exactly when equal up to key order and list or tuple |
| `Json.EffectDigestExact` | src/fuckup_protocol/operations.py:27-43 | two effect digests are equal exactly when target, kind and plain payload are |
| `Json.PlainFreeze` | src/fuckup_protocol/operations.py:17-24 | freezing loses nothing that the plain form shows |
| `Json.FreezePlain` | src/fuckup_protocol/operations.py:17-24 | freezing sees nothing the plain form does not show |
| `Json.PlainDumpable` | src/fuckup_protocol/execution.py:72-89 | the plain form can be dumped exactly when the payload holds no foreign object |
| `Json.FrozenDigest` | src/fuckup_protocol/operations.py:64-73 | the plain form of a stored, frozen payload keeps the digest of the original |
| `Strings.ParseUndoesEscape` | src/fuckup_protocol/operations.py:33-43 | string escaping is undone by the string parser, up to the closing quote |
| `Strings.IntRoundTrip` | src/fuckup_protocol/operations.py:33-43 | decimal integer text is undone |
| `Strings.SortedOfIncreasing` | src/fuckup_protocol/driftguard_consumer.py:167-168 | a list equals the sorted list of its own elements exactly when strictly increasing |
| `Operations.BackendsPart` | migrations/0004_execution_integrity.sql:205-229 | for every history and call: Python alone accepts blank references, SQL alone reconciles an operation with no events (a NULL state passes NOT IN); elsewhere they agree |
| `Operations.AcceptsExactly` | migrations/0004_execution_integrity.sql:152-241 | a call on a history of the backend's language is accepted exactly when the longer history is in the language and the references it needs are given |
| `Operations.PythonWordsArePrefixes` | src/fuckup_protocol/operations.py:160-224 | the Python language is exactly the prefixes of ATTEMPTED, optional AMBIGUOUS, VERIFIED or FAILED |
| `Operations.OnlyWords` | src/fuckup_protocol/operations.py:160-243 | over every run no operation has a history outside its backend's language; SQL adds only [VERIFIED] and [FAILED] |
| `Operations.EveryWord` | migrations/0004_execution_integrity.sql:152-241 | every history of the language is reached by a run of that backend |
| `Operations.VerifiedOnce` | src/fuckup_protocol/operations.py:200-224 | a history holds one VERIFIED event, as its last, exactly when the operation is VERIFIED |
| `Operations.JournalKept` | src/fuckup_protocol/operations.py:113-149 | over every run with fresh ids, idempotency keys and operations correspond one to one and each digest is that of the stored payload |
| `Operations.KeyNamesOneEffect` | src/fuckup_protocol/operations.py:129-136 | in memory, a used key is accepted exactly for the same target, kind and plain payload, and changes nothing |
| `Operations.StoredKeyNamesOneEffect` | migrations/0004_execution_integrity.sql:105-119 | in Postgres likewise, and blank fields are refused first |
| `Operations.OverwritesExactly` | src/fuckup_protocol/operations.py:138-149 | preparing a new key leaves all other records alone exactly when the id factory returned a fresh id |
| `Operations.ReattemptableExactly` | src/fuckup_protocol/operations.py:138-171 | after an accepted prepare of a new key some already attempted key can be attempted again exactly when the drawn id is that of an operation with events |
| `Operations.AttemptedAtMostOnce` | src/fuckup_protocol/operations.py:138-171 | over every run whose prepares never draw the id of an operation with events, a key has one accepted attempt exactly when its operation has events, and none otherwise |
| `Operations.FreshIsCareful` | src/fuckup_protocol/operations.py:138-149 | an id factory that never repeats meets that condition |
| `Operations.AttemptedOncePerKeyExactly` | src/fuckup_protocol/operations.py:113-171 | over every run: at no point could one more attempt give some key its second exactly when no prepare draws the id of an operation with events |
| `Operations.RepeatedIdAttemptsTwice` | src/fuckup_protocol/operations.py:147-148 | a witness of the failing half: literal ids and keys with which one key is attempted twice |
| `JournalStores.OperationJournal.Prepare` | src/fuckup_protocol/operations.py:113-149 | the dictionaries after prepare, and its answer |
| `JournalStores.OperationJournal.Append` | src/fuckup_protocol/operations.py:160-243 | the dictionaries after attempt, mark_ambiguous or reconcile, and the answer |
| `JournalStores.EffectTables.LatestEventOf` | migrations/0004_execution_integrity.sql:166-171 | the latest event row of an operation is the end of its own history |
| `JournalStores.EffectTables.PrepareEffectOperation` | migrations/0004_execution_integrity.sql:85-150 | the effect tables after prepare, seen as a journal, including the unique-violation path |
| `JournalStores.EffectTables.RecordEvent` | migrations/0004_execution_integrity.sql:152-241 | the append-only event table after attempt or reconcile, seen as a journal |
| `Dispatch.AlwaysSafe` | migrations/0004_execution_integrity.sql:85-186 | for any interleaving of coordinators, crashes and retries, handler calls made plus calls still permitted never exceed the one stored attempt |
| `Dispatch.AtMostOneCallPerKey` | src/fuckup_protocol/execution.py:145-158 | the handler is called at most once per idempotency key |
| `Dispatch.CalledAfterAttempt` | src/fuckup_protocol/execution.py:151-158 | each handler call finds its operation's ATTEMPTED event stored as the first event, and is the first call |
| `Dispatch.CallsExactly` | src/fuckup_protocol/execution.py:139-158 | in every reachable system a coordinator that prepares, attempts and calls does call its handler exactly when the prepare is accepted and the operation has no event yet |
| `FileStore.CrashKeepsStack` | src/fuckup_protocol/reference_adapter.py:93-120 | dying before the current-pointer swap leaves the applied effects as they were |
| `FileStore.ExecutePushes` | src/fuckup_protocol/reference_adapter.py:93-120 | a complete execution pushes its operation |
| `FileStore.ReplayIsTopOnly` | src/fuckup_protocol/reference_adapter.py:79-91 | executing an operation with a receipt changes nothing and answers only for the top one |
| `FileStore.RollbackPopsTopOnly` | src/fuckup_protocol/reference_adapter.py:189-213 | rollback succeeds exactly for the top operation, and pops it |
| `FileStore.ReadbackShowsTop` | src/fuckup_protocol/reference_adapter.py:122-187 | a readback is VERIFIED with the written payload exactly for the top effect, FAILED otherwise, never AMBIGUOUS |
| `FileStore.RefinesUndoStack` | src/fuckup_protocol/reference_adapter.py:55-213 | over every run of executions, crashes between writes and rollbacks, the file store refines an undo stack |
| `FileStore.ActRefines` | src/fuckup_protocol/reference_adapter.py:55-213 | each single act succeeds exactly when the undo stack's does |
| `FileStore.RollbacksRestore` | src/fuckup_protocol/reference_adapter.py:189-213 | n executions and their reverse rollbacks restore the current pointer (or its absence) and every readback |
| `FileStore.ReceiptsEnd` | src/fuckup_protocol/reference_adapter.py:102-110 | following previous_current from any receipt, crashed and rolled back ones included, ends |
| `SharedDigests.RefinesExactly` | src/fuckup_protocol/reference_adapter.py:55-213 | for well-formed operations on one target: after every run from a new directory every next act succeeds as on the undo stack, exactly when no two of them share a digest |
| `SharedDigests.RunFiled` | src/fuckup_protocol/reference_adapter.py:55-213 | over every run, digests shared or not: each version file and receipt is one that a registered operation wrote, and each pointer, current or previous, names an operation with a receipt and an existing version file |
| `SharedDigests.ReadsExactly` | src/fuckup_protocol/reference_adapter.py:122-187 | in any such directory: FAILED when the current pointer shows another digest or is missing, AMBIGUOUS when it shows this one over another operation's version file, VERIFIED with its own payload otherwise |
| `SharedDigests.UnambiguousExactly` | src/fuckup_protocol/reference_adapter.py:55-187 | no run from a new directory ever meets an ambiguous readback exactly when no two operations of the registry share a digest |
| `SharedDigests.ReadbackTellsExactly` | src/fuckup_protocol/reference_adapter.py:76-187 | for a new operation over any directory a run can leave: the readback is VERIFIED after the third write and FAILED before exactly when the current pointer did not show its digest; VERIFIED exactly after the third write also when the version file shown was another operation's |
| `SharedDigests.CrashAmbiguousExactly` | src/fuckup_protocol/reference_adapter.py:76-100 | after a crash of a new operation over any such directory some readback is ambiguous exactly when one was before, or the crash fell between the first write and the swap and the current pointer shows the operation's digest |
| `SharedDigests.SharedDigestRollsBackNewer` | src/fuckup_protocol/reference_adapter.py:189-213 | over any such directory: after a new operation, rollback of an operation succeeds exactly when it left a receipt with that digest, and restores what was current before it, dropping everything since |
| `SharedDigests.SharedDigestDropsLayers` | src/fuckup_protocol/reference_adapter.py:189-213 | where an undo stack describes the directory, rolling back layer k by its shared digest takes away everything above it too |
| `SharedDigests.NeverAmbiguousExactly` | src/fuckup_protocol/reference_adapter.py:55-213 | a new operation dies before its swap, over any directory a run can leave: no later run ever meets an ambiguous readback exactly when none would have without the crash and, unless nothing was written, no run shows the operation's digest before rewriting that digest's version file |
| `FileStore.ReferenceFileInjector.Execute` | src/fuckup_protocol/reference_adapter.py:55-120 | the directories after execute in a process that dies before any of the writes, or never; other targets untouched |
| `FileStore.ReferenceFileInjector.ReadbackTarget` | src/fuckup_protocol/reference_adapter.py:122-187 | the readback of the target's own directory |
| `FileStore.ReferenceFileInjector.RollbackOperation` | src/fuckup_protocol/reference_adapter.py:189-213 | the directories after rollback; other targets untouched |
| `ExecutionInvariants.RebuiltBinding` | src/fuckup_protocol/execution.py:445-455 | the binding rebuilt from a stored operation equals the original except priority and active |
| `ExecutionInvariants.PayloadCarries` | src/fuckup_protocol/execution.py:311-332 | each field of the frozen operation payload is the binding's |
| `ExecutionSteps.StepKeepsInv` | src/fuckup_protocol/execution.py:110-276 | every execute, reconcile, recover, rollback and lifecycle step keeps the invariant tying journal, files, verification events, outcomes and lineage, wherever it is disturbed and whatever effects operations share |
| `ExecutionSteps.ReachKeepsInv` | src/fuckup_protocol/execution.py:110-276 | so the invariant holds in every reachable world; of callers only constructed bindings are asked |
| `ExecutionSteps.ReadShows` | src/fuckup_protocol/reference_adapter.py:122-187 | in every reachable world a readback is FAILED when the target does not show the digest, AMBIGUOUS when it shows it over another operation's version file, and VERIFIED otherwise, with an attempted operation's own effect |
| `ExecutionSteps.GovernsKeepsInv` | migrations/0006_durable_execution_repository.sql:79-95 | later revocations, expiries and supersessions do not unsettle the lineage of what was executed |
| `ExecutionSteps.ConcludeRecords` | migrations/0006_durable_execution_repository.sql:44-118 | in every reachable world the outcome of a VERIFIED operation is neither refused nor colliding |
| `ExecutionTheorems.ReconcileDecides` | src/fuckup_protocol/execution.py:197-231 | in every reachable world one reconcile takes an ATTEMPTED or AMBIGUOUS operation to VERIFIED with its outcome, to FAILED, or leaves it AMBIGUOUS, as the target says; it stays open exactly when the target is not the adapter's or shows its digest over another operation's version file, and writes no file |
| `ExecutionTheorems.UnsharedShows` | src/fuckup_protocol/reference_adapter.py:122-187 | for an operation whose digest no other has on its target, the target says VERIFIED exactly while the current pointer names it, and is never in doubt |
| `ExecutionTheorems.UnsharedVerified` | src/fuckup_protocol/execution.py:344-408 | and a VERIFIED event of it records its own effect |
| `ExecutionTheorems.LaunchSwaps` | src/fuckup_protocol/execution.py:151-165 | a first run, however disturbed, leaves the current pointer on its operation exactly when all three file writes happened |
| `ExecutionTheorems.LaunchDelivers` | src/fuckup_protocol/execution.py:151-195 | an undisturbed first run ends VERIFIED by its own event after one attempt, with the expected outcome and its three files written, whatever the target held and whatever operations share |
| `ExecutionDisturbances.DisturbedRun` | src/fuckup_protocol/execution.py:139-195 | in every reachable world, for a first run and every disturbance, the exact history, outcomes, target directory and answer: a raising handler leaves ATTEMPTED and AMBIGUOUS with the execute-exception evidence and re-raises, a raising readback likewise with its own evidence, and a death at each step leaves exactly what came before it |
| `ExecutionDisturbances.OpenExactly` | src/fuckup_protocol/execution.py:145-195 | so the operation is left undecided exactly when the handler or the readback raises, or the process dies after the attempt and before the verdict |
| `ExecutionDisturbances.RefusedRun` | src/fuckup_protocol/execution.py:156-165 | a target or request the handler refuses: attempt and doubt are stored, the handler's own exception is raised, no file and no outcome is touched |
| `ExecutionDisturbances.RepeatRefused` | src/fuckup_protocol/execution.py:145-154 | an operation that has any event is not attempted again: the call raises and changes nothing |
| `ExecutionDisturbances.ChoosesExactly` | src/fuckup_protocol/execution.py:119-132 | a run goes ahead exactly with the binding that wins the context, when this adapter can execute it and it is current |
| `ExecutionDisturbances.StopsExactly` | src/fuckup_protocol/execution.py:119-132 | it stops for want of a binding exactly when none fits, for a conflict exactly when some fit and none wins, and then changes nothing |
| `ExecutionDisturbances.CurrentExactly` | src/fuckup_protocol/postgres_execution.py:286-314 | a binding is current exactly when it is effective and an operation carrying it would have the outcome table's lineage |
| `ExecutionDisturbances.ReconcileLeavesClosed` | src/fuckup_protocol/execution.py:197-231 | reconciling a VERIFIED or FAILED operation changes nothing, whatever its target shows and whatever goes wrong |
| `ExecutionDisturbances.ReconcileUnread` | src/fuckup_protocol/execution.py:207-216 | a readback that raises during reconcile is stored as doubt for an ATTEMPTED operation, changes nothing for one in doubt, and is re-raised |
| `ExecutionDisturbances.ReconcileDies` | src/fuckup_protocol/execution.py:197-231 | dying before the verdict of a reconcile changes nothing |
| `ExecutionDisturbances.ReconcileUndisturbed` | src/fuckup_protocol/execution.py:197-231 | every other disturbance comes too late for a reconcile or is not its own |
| `ExecutionDisturbances.ReconcileUnrecorded` | src/fuckup_protocol/execution.py:344-408 | dying between the verdict and the outcome leaves VERIFIED without an outcome |
| `ExecutionDisturbances.OutcomeExactly` | migrations/0006_durable_execution_repository.sql:44-118 | in every reachable world the outcome table takes a row exactly when the operation is VERIFIED, the row is its own binding's up to what the readback reports beside the effect, and no other row is there |
| `ExecutionCrashes.CrashAtomic` | src/fuckup_protocol/execution.py:145-231 | crash-atomic effect: for an operation whose digest no other has on its target, after every disturbance that leaves an attempt undecided, the current pointer names it exactly when all three files were written, and one reconcile yields VERIFIED exactly when the current-pointer swap happened, else FAILED |
| `ExecutionCrashes.CrashDecided` | src/fuckup_protocol/execution.py:145-231 | in every reachable world: after every disturbance of a first run that leaves an attempt undecided, one reconcile gives the state that its file writes and the target before them determine |
| `ExecutionCrashes.CrashAtomicExactly` | src/fuckup_protocol/execution.py:145-231 | in every reachable world: one reconcile yields VERIFIED exactly when the swap happened and FAILED otherwise, after every disturbance, exactly when the target did not already show the effect digest; it never yields VERIFIED without the swap exactly then or when the version file shown is another operation's |
| `ExecutionCrashes.UndoneEffectRecorded` | src/fuckup_protocol/execution.py:344-408 | a process that dies right after the attempt has written nothing; one reconcile records VERIFIED and an outcome exactly when the current pointer shows the digest over its own version file, leaves AMBIGUOUS over another operation's, and records FAILED when it does not show it |
| `ExecutionRecovery.FirstRunDelivered` | src/fuckup_protocol/execution.py:110-195 | in every reachable world an undisturbed execution under a current binding, of an operation that was never attempted and whose request the handler accepts, is delivered: VERIFIED by its own event, outcome recorded, three files written |
| `ExecutionRecovery.LateEffectDelivered` | src/fuckup_protocol/execution.py:110-195 | the currentness check is not repeated: whatever governance does between it and the first journal call, revocation included, such an operation is delivered all the same |
| `ExecutionHistories.PreparedBecomesFailed` | src/fuckup_protocol/execution.py:197-231 | reconciling an operation that was never attempted and whose digest no other has on its target appends one FAILED event |
| `ExecutionHistories.PreparedDecided` | src/fuckup_protocol/execution.py:197-231 | in every reachable world: reading back an operation that was never attempted records VERIFIED when the current pointer shows its digest over its own version file, FAILED when it does not show it, and nothing when the version file is another operation's |
| `ExecutionHistories.StaysPythonExactly` | migrations/0004_execution_integrity.sql:205-229 | in every reachable world a step leaves the histories of the Python journal exactly when it reads back an operation that is still PREPARED and the reading is not ambiguous |
| `ExecutionHistories.PythonHistoriesExactly` | src/fuckup_protocol/execution.py:110-276 | over every run, digests shared or not: all histories are those of the Python journal exactly when no step did that |
| `ExecutionHistories.VerifiedAttemptedExactly` | src/fuckup_protocol/execution.py:110-276 | over every run, digests shared or not: every VERIFIED operation was attempted first exactly when no step read back an operation that was still PREPARED and found its digest in place |
| `ExecutionHistories.VerifiedWasAttempted` | src/fuckup_protocol/execution.py:110-276 | over every run a VERIFIED operation whose digest no other has on its target was attempted first |
| `ExecutionRecovery.NewEffectDelivered` | src/fuckup_protocol/execution.py:110-195 | in every reachable world executing a JSON effect under a new id and key, on a target of the adapter's and under a current binding, is such a first run and is delivered |
| `ExecutionRecovery.NewEffectOutcome` | src/fuckup_protocol/execution.py:412-437 | the outcome row then names the binding, promotion, correction revision, scope, effect digest and file evidence, triggered and without failure |
| `ExecutionCrashes.DistinctExactly` | src/fuckup_protocol/operations.py:124-149 | one digest per operation and target holds exactly when no two operations share target, kind and plain payload |
| `ExecutionCrashes.SecondKeySharesDigest` | migrations/0004_execution_integrity.sql:121-133 | the journal lets the same effect in again under a second key, as a second operation with the same digest |
| `ExecutionRecovery.Partition` | src/fuckup_protocol/postgres_execution.py:441-496 | every operation is in exactly one of recoverable, FAILED, VERIFIED with outcome, VERIFIED with a gap |
| `ExecutionRecovery.RecoverDecides` | src/fuckup_protocol/execution.py:233-276 | in every reachable world recover_outcome on a VERIFIED operation records the outcome the execution would have, never refused and never colliding, exactly when the readback is VERIFIED with the recorded digest; otherwise nothing changes |
| `ExecutionRecovery.UnsharedStillShows` | src/fuckup_protocol/execution.py:233-276 | for an operation whose digest no other has on its target, that is exactly while the current pointer names it |
| `ExecutionRecovery.RecoveredIsExecuted` | src/fuckup_protocol/execution.py:412-437 | the outcome built from the rebuilt binding is that of the original binding |
| `ExecutionRecovery.RecoveryConverges` | src/fuckup_protocol/postgres_execution.py:441-496 | from a ready state, treating each operation as the runbook says, in any order, empties both inventories |
| `ExecutionRecovery.RecoveryConvergesExactly` | docs/operations/RECOVERY_RUNBOOK.md:7-25 | in every reachable world: every order empties both inventories exactly when each PREPARED operation's request resolves to it and is accepted by the handler, every open operation's target is the adapter's and not in doubt, and each gap's target still shows what was recorded and no PREPARED operation has the same target |
| `Coordinator.ExecutionCoordinator.Execute` | src/fuckup_protocol/execution.py:110-195 | execute drives the effect tables, files and outcome table to exactly the specified world and answer, and keeps the joint invariant |
| `Coordinator.ExecutionCoordinator.ReconcileOne` | src/fuckup_protocol/execution.py:197-231 | likewise reconcile |
| `Coordinator.ExecutionCoordinator.RecoverOne` | src/fuckup_protocol/execution.py:233-276 | likewise recover_outcome |
| `Coordinator.ExecutionCoordinator.ApplyReading` | src/fuckup_protocol/execution.py:344-408 | likewise the application of a readback |
| `Coordinator.ExecutionCoordinator.RecordVerifiedOutcome` | migrations/0006_durable_execution_repository.sql:22-178 | the outcome table after record_verified_outcome_observation, with every provenance check |
| `Preflight.OfferedNeverTie` | src/fuckup_protocol/bindings.py:98-103 | on the view's rows the resolver never needs its revision tie-break |
| `Preflight.OfferedExactly` | src/fuckup_protocol/postgres_execution.py:245-268 | a row is offered exactly when it is effective, versioned, and the context has each pair of its selector |
| `Preflight.OfferedFits` | src/fuckup_protocol/postgres_execution.py:269-284 | the binding built from an offered row fits the context, with exactly the pairs of the row's selector |
| `Preflight.InstructionExactly` | src/fuckup_protocol/session_preflight.py:112-122 | the instruction is read exactly from the stored payload of the binding's revision under the digest the revision has and the promotion was granted for, and is a visible text of at most 10000 characters |
| `Preflight.MessageExactly` | src/fuckup_protocol/session_preflight.py:193-213 | the message has the instruction in it, and message and digest are the same exactly for the same instruction |
| `Preflight.LoadsExactly` | src/fuckup_protocol/session_preflight.py:97-214 | in every reachable world the preflight loads exactly when binding, correction, operation carrying exactly them, own VERIFIED event, current pointer with its own version file and stored outcome all agree and the binding is still current at the end; it is then the one with the approved instruction in its message and the digest of that message |
| `Preflight.OperationGate` | src/fuckup_protocol/session_preflight.py:124-155 | the field-by-field checks of the recorded effect admit exactly the payload of this binding, context and correction |
| `Preflight.FileGate` | src/fuckup_protocol/session_preflight.py:157-189 | in every reachable world the file, event and outcome checks pass exactly when the current pointer names the operation over its own version file, its last event is its own VERIFIED event, and its outcome is stored |
| `Preflight.LoadsAfterExecution` | src/fuckup_protocol/session_preflight.py:83-214 | in every reachable world: after an undisturbed execution of the approved correction, and while its binding stays current, the load succeeds for every valid session and context with the approved instruction in its message |
| `Preflight.DispatchesWhileUnchanged` | src/fuckup_protocol/session_preflight.py:245-264 | with nothing changed since the second currentness check the dispatch check passes, in whatever order bindings are returned |
| `Preflight.DispatchesExactly` | src/fuckup_protocol/session_preflight.py:245-264 | the dispatch check passes exactly when some binding the store now answers wins the context, is executable and current, and is the one the preflight names |
| `Preflight.ReplacedIsRefused` | src/fuckup_protocol/session_preflight.py:258-264 | it refuses when another binding wins, though the preflight's own is still current |
| `Preflight.RevokedForGood` | src/fuckup_protocol/session_preflight.py:255-264 | once its binding has left the effective view a preflight is refused for ever |
| `Validation.Evaluate` | src/fuckup_protocol/validation.py:50-92 | the evaluation loop builds the report its specification names |
| `Validation.PassesExactly` | src/fuckup_protocol/validation.py:64-80 | a report passes exactly when it is about this revision, every required kind was tested, and every test is of a known kind and passed |
| `Validation.ReportsExactly` | src/fuckup_protocol/validation.py:50-92 | a report is made exactly when all five canonical kinds are required, names the qualification, and misses exactly the required kinds no test is of |
| `Ledger.SubmitKeepsInvExactly` | src/fuckup_protocol/ledger.py:146-213 | with a fresh id, submitting an incident keeps the ledger consistent exactly when the payload is JSON |
| `Ledger.LedgerKept` | src/fuckup_protocol/ledger.py:146-362 | over every run with JSON payloads and fresh incident ids: fingerprint index a bijection, ordinals and revisions 1..n with matching counts, one effect per key, every promotion backed by a passing qualification of its exact revision |
| `Ledger.KeyNamesOneEvent` | src/fuckup_protocol/ledger.py:227-239 | a used event key is accepted exactly for the same incident, type and plain payload |
| `Ledger.AllowedUntilRevised` | src/fuckup_protocol/ledger.py:309-345 | what the default policy allows can be promoted exactly while the correction has not been revised |
| `LedgerTheorems.PromotesExactly` | src/fuckup_protocol/ledger.py:309-345 | whatever the authorization: a promotion is recorded exactly when the policy allowed it, the revision is the correction's last, and a recorded qualification backs that revision under the very report that was authorized, with scope and rollback; otherwise nothing changes and the first failing check is named |
| `LedgerTheorems.PromotionsWereGranted` | src/fuckup_protocol/ledger.py:309-345 | over every run: each promotion was recorded by a promote call whose authorization was allowed and that no check objected to, and still has that call's terms |
| `LedgerTheorems.RevokesExactly` | src/fuckup_protocol/ledger.py:347-362 | a revocation marks the promotion it names, if there is one, and touches nothing else |
| `LedgerTheorems.RevokedForGoodExactly` | src/fuckup_protocol/ledger.py:347-362 | over every run that does not draw its id again a promotion keeps its terms, and is revoked exactly when it was before or some call revoked it |
| `LedgerTheorems.AllowsExactly` | src/fuckup_protocol/policy.py:23-54 | the default policy allows exactly when the qualification backs the revision, the cause is supported and unambiguous, scope and rollback are given, and irreversibility is acknowledged |
| `LedgerTheorems.AllowedIsPromoted` | src/fuckup_protocol/ledger.py:309-345 | what the policy decides for the last revision is what promote does |
| `LedgerTheorems.RevisionsWereMade` | src/fuckup_protocol/ledger.py:255-295 | over every run: the n-th revision was made by a create or revise call when there were n - 1, from that call's payload, and inherits reversibility unless the call changed it |
| `LedgerTheorems.QualifiesExactly` | src/fuckup_protocol/ledger.py:297-307 | a qualification is recorded exactly under a new id, for an existing revision with exactly that digest |
| `LedgerTheorems.AppendsNew` | src/fuckup_protocol/ledger.py:215-253 | a JSON event for a known incident is stored under no key or one that no stored event has |
| `LedgerTheorems.AppendsNothing` | src/fuckup_protocol/ledger.py:224-239 | any other append stores nothing |
| `LedgerTheorems.SubmitsKnown` | src/fuckup_protocol/ledger.py:159-171 | a JSON incident with a known fingerprint is counted on the incident that has it, which keeps its first payload and gains one occurrence numbered by its counter |
| `LedgerTheorems.SubmitsNew` | src/fuckup_protocol/ledger.py:173-192 | one with a new fingerprint opens an incident with one occurrence |
| `Ledger.InMemoryLedger.Submit` | src/fuckup_protocol/ledger.py:146-213 | the dictionaries after submit_incident, on the failing path too |
| `Ledger.InMemoryLedger.Append` | src/fuckup_protocol/ledger.py:215-253 | the event list and key index after append_event |
| `Ledger.InMemoryLedger.Create` | src/fuckup_protocol/ledger.py:255-276 | the correction families after create_correction |
| `Ledger.InMemoryLedger.Revise` | src/fuckup_protocol/ledger.py:278-295 | the correction families after revise_correction |
| `Ledger.InMemoryLedger.Qualify` | src/fuckup_protocol/ledger.py:297-307 | the qualifications after record_qualification |
| `Ledger.InMemoryLedger.PromoteCorrection` | src/fuckup_protocol/ledger.py:309-345 | the promotions after promote, checks in the source's order |
| `Ledger.InMemoryLedger.RevokePromotion` | src/fuckup_protocol/ledger.py:347-362 | the promotions after revoke, idempotent |
| `Occurrences.AlwaysAccounted` | migrations/0004_execution_integrity.sql:58-81 | over every run ordinals are 1..n per incident, the counter is the last, and last_seen_at is the latest sighting |
| `Occurrences.RecordsExactly` | migrations/0004_execution_integrity.sql:50-76 | an occurrence is recorded exactly with a digest, a known incident and a new id; the unique ordinal never decides |
| `Occurrences.RecordsNext` | migrations/0004_execution_integrity.sql:58-81 | a recorded occurrence is the incident's next, and moves only the counter and, forwards, the last sighting |
| `Occurrences.SubmitsExactly` | migrations/0001_core.sql:3-17 | submitting opens an incident with one sighting and leaves a known one as it is |
| `Occurrences.GreatestOrdinal` | migrations/0004_execution_integrity.sql:58-61 | the queried maximum is the greatest ordinal of the incident, 0 exactly without rows |
| `Occurrences.OccurrenceTables.RecordIncidentOccurrence` | migrations/0004_execution_integrity.sql:37-83 | the tables after record_incident_occurrence |
| `KeyScan.RequireStringKeys` | src/fuckup_protocol/events.py:16-31 | the worklist terminates on shared and cyclic data, expands no container twice, and accepts exactly when every reachable mapping has only string keys |
| `Fingerprint.CanonicalExactly` | src/fuckup_protocol/fingerprint.py:19-28 | canonical forms are equal exactly when the payloads are equal after deleting ignored fields at every mapping depth and forgetting list or tuple |
| `Fingerprint.CanonicalIdempotent` | src/fuckup_protocol/fingerprint.py:19-28 | canonicalising twice changes nothing, and the result is plain |
| `Fingerprint.FingerprintExact` | src/fuckup_protocol/fingerprint.py:31-51 | under one algorithm version fingerprints are equal exactly for such payloads |
| `DriftGuard.ValidateResult` | src/fuckup_protocol/driftguard_consumer.py:118-210 | the loop over any JSON value accepts exactly the results whose shape, metrics, aggregate and digest satisfy the declarative rules; an accepted one is BLOCK exactly when some metric is, and PASS exactly when there are metrics and all pass |
| `DriftGuard.DigestNamesResult` | src/fuckup_protocol/driftguard_consumer.py:198-209 | two accepted results with one digest are the same value, while no two texts share a digest |
| `DriftGuard.VerdictDetermined` | src/fuckup_protocol/driftguard_consumer.py:173-196 | the metrics determine decision and reasons, except UNKNOWN versus WARN on missing evidence |
| `DriftGuard.ChoiceExactly` | src/fuckup_protocol/driftguard_consumer.py:180-190 | that choice exists exactly when evidence is missing and nothing blocks or is unrepresentable |
| `DriftGuard.UniqueKeys` | src/fuckup_protocol/driftguard_consumer.py:61-67 | refused exactly when a key repeats; otherwise every pair is kept |
| `Jobs.JobsAreBounded` | src/fuckup_protocol/jobs.py:37-66 | a job makes at most 2*max_attempts transitions and max_attempts claims, and while PENDING or RETRY has budget left |
| `Jobs.BoundsReached` | src/fuckup_protocol/jobs.py:37-58 | both bounds are reached |
| `JobLeases.RunsExactly` | src/fuckup_protocol/jobs.py:37-66 | the machine accepts exactly the histories in which claims by named workers within the budget alternate with what ends them, each later claim after a retryable failure or a lost lease, and the job is then what its last transition says |
| `Jobs.ReclaimIsRecoverThenClaim` | migrations/0001_core.sql:546-573 | reclaiming an expired lease with budget left is recovery followed by claim, ignoring last_error |
| `Jobs.TableRefinesMachine` | migrations/0002_runtime_authority.sql:45-122 | every guarded table call is, on every row, a run of the pure transitions, ignoring last_error |
| `Jobs.TableJobsAreBounded` | migrations/0001_core.sql:524-578 | over every run of the table functions a job is given out at most max_attempts times |
| `Jobs.SupersededHolderRefused` | migrations/0002_runtime_authority.sql:45-122 | with a distinct worker id per claim, a superseded holder can neither complete nor fail the job |
| `JobLeases.ClaimsTheFirst` | migrations/0001_core.sql:546-560 | a claim gives out the first job, by due time, creation and id, that is due, within budget, unlocked, and waiting or past its lease; and nothing exactly when there is none |
| `JobLeases.ClaimDoes` | migrations/0001_core.sql:534-575 | what a claim does to every row: spent ones are dead-lettered, the one given out is RUNNING under the worker until now plus the lease, every other is as it was |
| `JobLeases.LeaseProtects` | migrations/0001_core.sql:546-575 | over every run with clocks before the end of the lease, in which its worker does not end it, a claimed job stays RUNNING under that worker: given to nobody else and touched by no recovery |
| `JobLeases.LeaseEnds` | migrations/0001_core.sql:534-560 | from the end of the lease on a due job is available again while it has budget, and dead-lettered by the next claim when it has none |
| `JobLeases.RetryWaits` | migrations/0002_runtime_authority.sql:71-122 | a job failed retryably with budget left is given to nobody before its delay is over, and is available from then on |
| `JobLeases.EndedForGood` | migrations/0002_runtime_authority.sql:45-122 | a COMPLETED or DEAD_LETTERED job is never changed or given out again |
| `JobLeases.InsertDoes` | migrations/0001_core.sql:139-157 | a job is added PENDING and unattempted exactly under a new id with a positive budget |
| `JobLeases.CompleteDoes` | migrations/0002_runtime_authority.sql:45-69 | completing by the holder, field by field, other rows untouched |
| `JobLeases.FailDoes` | migrations/0002_runtime_authority.sql:71-122 | failing by the holder, field by field: the delay, the error, retry or dead letter |
| `Jobs.WorkerJobs.ClaimWorkerJob` | migrations/0001_core.sql:524-578 | the sweep, then the first unlocked candidate by available_at, created_at and id |
| `Jobs.WorkerJobs.FirstCandidate` | migrations/0001_core.sql:546-560 | the loop finds exactly the row the ordered query returns |
| `Jobs.WorkerJobs.CompleteWorkerJob` | migrations/0002_runtime_authority.sql:45-69 | completes exactly the RUNNING job this worker holds |
| `Jobs.WorkerJobs.FailWorkerJob` | migrations/0002_runtime_authority.sql:71-122 | retries or dead-letters exactly the RUNNING job this worker holds |

## Left out

- Connections, row decoding, transactions' isolation internals, roles, grants and search paths: each guarded function is one atomic step, and SKIP LOCKED is a set of locked ids.
- Arguments that are SQL NULL, other than the NULL state of an operation without events and optional columns.
- jsonb number normalisation: a payload is stored and read back as the value that was sent.
- Set values in payloads (`_plain` sorts them): a payload holds JSON values, tuples, read-only mappings and foreign objects.
- Non-string mapping keys, which `str(key)` would coerce; the key scan is where they are modelled.
- Hexadecimal digests and the file names built from them: a digest names its own file. `DriftGuard` alone checks hexadecimal shape, and takes the hash as a parameter.
- File-system failures inside one atomic replacement; a write happens or does not.
- Injectors other than the reference file injector, protected side effects and the authority reference they need; `authority_ref` is always null here.
- Readbacks that report a failure, a prevented failure or a regression: the file injector never does.
- Timestamps in journal events, ledger records and outcomes, and the ids of outcome rows.
- White space beyond ASCII where Python strips text; SQL's btrim is spaces only.
- The search for the preflight message in the model request (`verify_materialized_prompt`), and the ids, revision and digests of the message as anything but text.
- The parsing of drift-guard wire text and the event built from an accepted result; strings with lone surrogates do not occur.
- `Fingerprint.FingerprintExact`: compares fingerprints of one algorithm version; the version is a prefix of both.
- `Jobs.TableRefinesMachine`: does not model last_error texts, job payloads, or the unique indexes on work keys.
- `Ledger.LedgerKept`: does not model that returned incident records alias the stored ones, so a caller's own mutation of one is not captured.
- `selector_digest` of a binding row is whatever the caller supplied, as in SQL; a row whose digest is not that of its selector is never current for execution.
- The rejected-promotion audit trail, experiment factors, effectiveness statistics, the state transition table and CloudEvents export: finite or record-keeping, and they would add only easy members.
