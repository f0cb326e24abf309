/**
 How far the file store's promises reach: replay and rollback compare digests only, and version files are
 named by digest, so each promise has an exact condition on which operations share a digest.
 */
module SharedDigests {
  import opened Prelude
  import opened Json
  import opened FileStore

  // ---- the undo stack ----

  ghost predicate Named(reg: Registry, acts: seq<Act>) {
    forall i {:trigger acts[i]} | 0 <= i < |acts| :: acts[i].operation in reg
  }

  /**
   After any run from a new directory, every next act succeeds in the file store exactly when it does on the
   undo stack.
   */
  ghost predicate ActsAsStack(name: string, reg: Registry) {
    forall acts, a: Act {:trigger Act1(name, DirAfter(name, NEW_DIR, reg, acts), reg, a)}
      | Named(reg, acts) && a.operation in reg ::
      Act1(name, DirAfter(name, NEW_DIR, reg, acts), reg, a).1 == Do(UndoAfter(Undo([], []), acts), a).1
  }

  lemma DirStep(name: string, d: Dir, reg: Registry, acts: seq<Act>, a: Act)
    requires Named(reg, acts) && a.operation in reg
    ensures Named(reg, acts + [a])
    ensures DirAfter(name, d, reg, acts + [a]) == Act1(name, DirAfter(name, d, reg, acts), reg, a).0
  {
    assert Front(acts + [a]) == acts;
  }

  lemma UndoStep(u: Undo, acts: seq<Act>, a: Act)
    ensures UndoAfter(u, acts + [a]) == Do(UndoAfter(u, acts), a).0
  {
    assert Front(acts + [a]) == acts;
  }

  /** Executing x from a new directory, and then n writes of y. */
  lemma PairRun(name: string, reg: Registry, target: string, x: string, y: string, n: nat)
    requires WellFormed(name, reg, target) && x in reg && y in reg && x != y
    ensures Named(reg, [Execute(x, 3), Execute(y, n)])
    ensures DirAfter(name, NEW_DIR, reg, [Execute(x, 3), Execute(y, n)]) ==
            Written(Written(NEW_DIR, reg[x], 3), reg[y], n)
  {
    var ex, ey := Execute(x, 3), Execute(y, n);
    DirStep(name, NEW_DIR, reg, [], ex);
    DirStep(name, NEW_DIR, reg, [ex], ey);
    assert [] + [ex] == [ex] && [ex] + [ey] == [ex, ey];
    assert DirAfter(name, NEW_DIR, reg, [ex]) == Written(NEW_DIR, reg[x], 3);
  }

  lemma PairStack(x: string, y: string)
    requires x != y
    ensures UndoAfter(Undo([], []), [Execute(x, 3), Execute(y, 3)]) == Undo([x, y], [x, y])
  {
    UndoStep(Undo([], []), [], Execute(x, 3));
    UndoStep(Undo([], []), [Execute(x, 3)], Execute(y, 3));
    assert [] + [Execute(x, 3)] == [Execute(x, 3)];
    assert [Execute(x, 3)] + [Execute(y, 3)] == [Execute(x, 3), Execute(y, 3)];
  }

  /** Executing x and then y, with one digest: rolling back x succeeds although y is on top. */
  lemma SharedPairDiffers(name: string, reg: Registry, target: string, x: string, y: string)
    requires WellFormed(name, reg, target) && x in reg && y in reg && x != y && reg[x].digest == reg[y].digest
    ensures !ActsAsStack(name, reg)
  {
    var acts, undo := [Execute(x, 3), Execute(y, 3)], Rollback(x);
    PairRun(name, reg, target, x, y, 3);
    PairStack(x, y);
    assert Act1(name, DirAfter(name, NEW_DIR, reg, acts), reg, undo).1;
    assert !Do(UndoAfter(Undo([], []), acts), undo).1;
  }

  /** The file store behaves as an undo stack exactly when no two operations on the target share a digest. */
  lemma RefinesExactly(name: string, reg: Registry, target: string)
    requires WellFormed(name, reg, target)
    ensures ActsAsStack(name, reg) <==> Distinct(reg)
  {
    if Distinct(reg) {
      forall acts, a: Act | Named(reg, acts) && a.operation in reg
        ensures Act1(name, DirAfter(name, NEW_DIR, reg, acts), reg, a).1 == Do(UndoAfter(Undo([], []), acts), a).1
      {
        NewDirRefines(reg);
        RefinesUndoStack(name, NEW_DIR, reg, target, Undo([], []), acts);
        ActRefines(name, DirAfter(name, NEW_DIR, reg, acts), reg, target, UndoAfter(Undo([], []), acts), a);
      }
    } else {
      var x, y :| x in reg && y in reg && reg[x].digest == reg[y].digest && x != y;
      SharedPairDiffers(name, reg, target, x, y);
    }
  }

  // ---- what every directory keeps, whatever digests are shared ----

  /** The pointer is a registered operation's, which left a receipt, and its version file exists. */
  ghost predicate GoodPointer(d: Dir, reg: Registry, p: Pointer) {
    p.operation in reg && p == PointerOf(reg[p.operation]) && p.operation in d.receipts && p.digest in d.versions
  }

  ghost predicate GoodPrevious(d: Dir, reg: Registry, op: string)
    requires op in d.receipts
  {
    d.receipts[op].previous.Some? ==> GoodPointer(d, reg, d.receipts[op].previous.value)
  }

  /** Every file is one that some registered operation wrote. A version file need not be its pointer's own. */
  ghost predicate Filed(d: Dir, reg: Registry) {
    && Sound(d, reg)
    && (d.current.Some? ==> GoodPointer(d, reg, d.current.value))
    && (forall op {:trigger GoodPrevious(d, reg, op)} | op in d.receipts :: GoodPrevious(d, reg, op))
  }

  lemma NewDirFiled(reg: Registry)
    ensures Filed(NEW_DIR, reg)
  {
  }

  lemma WrittenFiled(name: string, d: Dir, reg: Registry, target: string, op: string, n: nat)
    requires WellFormed(name, reg, target) && Filed(d, reg) && op in reg && op !in d.receipts
    ensures Filed(Written(d, reg[op], n), reg)
  {
    var e := Written(d, reg[op], n);
    forall x | x in e.receipts ensures SoundReceipt(e, reg, x) && GoodPrevious(e, reg, x) {
      if x in d.receipts { assert SoundReceipt(d, reg, x) && GoodPrevious(d, reg, x); }
    }
    forall g | g in e.versions ensures SoundVersion(e, reg, g) {
      if g in d.versions { assert SoundVersion(d, reg, g); }
    }
  }

  lemma RolledBackFiled(d: Dir, reg: Registry, op: string)
    requires Filed(d, reg)
    ensures Filed(RolledBack(d, op).0, reg)
  {
    var e := RolledBack(d, op).0;
    if op in d.receipts { assert GoodPrevious(d, reg, op); }
    forall x | x in e.receipts ensures SoundReceipt(e, reg, x) && GoodPrevious(e, reg, x) {
      assert SoundReceipt(d, reg, x) && GoodPrevious(d, reg, x);
    }
    forall g | g in e.versions ensures SoundVersion(e, reg, g) { assert SoundVersion(d, reg, g); }
  }

  lemma ActFiled(name: string, d: Dir, reg: Registry, target: string, a: Act)
    requires WellFormed(name, reg, target) && Filed(d, reg) && a.operation in reg
    ensures Filed(Act1(name, d, reg, a).0, reg)
  {
    match a
    case Rollback(op) => RolledBackFiled(d, reg, op);
    case Execute(op, n) => if op !in d.receipts { WrittenFiled(name, d, reg, target, op, n); }
  }

  /** No run can leave the invariant, distinct digests or not. */
  lemma {:induction false} RunFiled(name: string, d: Dir, reg: Registry, target: string, acts: seq<Act>)
    requires WellFormed(name, reg, target) && Filed(d, reg) && Named(reg, acts)
    ensures Filed(DirAfter(name, d, reg, acts), reg)
  {
    if acts != [] {
      NamedFront(reg, acts);
      RunFiled(name, d, reg, target, Front(acts));
      ActFiled(name, DirAfter(name, d, reg, Front(acts)), reg, target, Last(acts));
    }
  }

  lemma NamedFront(reg: Registry, acts: seq<Act>)
    requires Named(reg, acts) && acts != []
    ensures Named(reg, Front(acts)) && Last(acts).operation in reg
  {
    forall i | 0 <= i < |Front(acts)| ensures Front(acts)[i].operation in reg { assert acts[i].operation in reg; }
    assert acts[|acts| - 1].operation in reg;
  }

  predicate Showing(d: Dir, digest: Digest) { d.current.Some? && d.current.value.digest == digest }

  /** The version file the current pointer names was written by another operation. */
  predicate Garbled(d: Dir) {
    && d.current.Some? && d.current.value.versionFile in d.versions
    && d.versions[d.current.value.versionFile].operation != d.current.value.operation
  }

  function VersionShown(d: Dir): Value
    requires d.current.Some? && d.current.value.versionFile in d.versions
  {
    Observed(d.current.value, d.versions[d.current.value.versionFile].payload)
  }

  /** The whole of what a readback can say. */
  lemma ReadsExactly(name: string, d: Dir, reg: Registry, target: string, key: string, digest: Digest)
    requires WellFormed(name, reg, target) && Filed(d, reg)
    ensures Showing(d, digest) ==> d.current.value.versionFile in d.versions
    ensures
      Read(d, key, target, digest).verdict ==
        if !Showing(d, digest) then FoundFailed
        else if Garbled(d) then FoundAmbiguous
        else FoundVerified(VersionShown(d))
    ensures !Garbled(d) && d.current.Some? ==>
      d.current.value.operation in reg && VersionShown(d) == EffectOf(reg[d.current.value.operation])
  {
    if d.current.Some? {
      var p := d.current.value;
      assert SoundVersion(d, reg, p.digest);
      assert Malformed(name, reg[p.operation]).None?;
    }
  }

  /** What is observed of a request's own effect. */
  function EffectOf(r: Request): Value { Observed(PointerOf(r), Plain(r.payload)) }

  /** Without distinct digests some run meets an ambiguous readback, and with them none does. */
  lemma UnambiguousExactly(name: string, reg: Registry, target: string)
    requires WellFormed(name, reg, target)
    ensures NeverAmbiguous(name, NEW_DIR, reg, target) <==> Distinct(reg)
  {
    if Distinct(reg) {
      forall acts, key, digest | Named(reg, acts)
        ensures Read(DirAfter(name, NEW_DIR, reg, acts), key, target, digest).verdict != FoundAmbiguous
      {
        NewDirRefines(reg);
        RefinesUndoStack(name, NEW_DIR, reg, target, Undo([], []), acts);
        var d := DirAfter(name, NEW_DIR, reg, acts);
        ReadbackShowsTop(name, d, reg, target, UndoAfter(Undo([], []), acts).stack, key, digest);
      }
    } else {
      var x, y :| x in reg && y in reg && reg[x].digest == reg[y].digest && x != y;
      SharedPairGarbles(name, reg, target, x, y);
    }
  }

  /** Executing x and then y, which dies after its first file. */
  lemma SharedPairGarbles(name: string, reg: Registry, target: string, x: string, y: string)
    requires WellFormed(name, reg, target) && x in reg && y in reg && x != y && reg[x].digest == reg[y].digest
    ensures !NeverAmbiguous(name, NEW_DIR, reg, target)
  {
    PairRun(name, reg, target, x, y, 1);
    var d := DirAfter(name, NEW_DIR, reg, [Execute(x, 3), Execute(y, 1)]);
    assert Read(d, "", target, reg[x].digest).verdict == FoundAmbiguous;
  }

  // ---- one new operation ----

  /** A request the handler can write, of an operation that has no receipt. */
  ghost predicate Fresh(name: string, d: Dir, target: string, r: Request) {
    r.target == target && r.operation !in d.receipts && Malformed(name, r).None? && Dumpable(Plain(r.payload))
  }

  /** What a new operation's readback says after n of its writes, in any directory. */
  lemma ReadbackAfter(name: string, d: Dir, reg: Registry, target: string, key: string, r: Request, n: nat)
    requires WellFormed(name, reg, target) && Filed(d, reg) && Fresh(name, d, target, r)
    ensures
      Read(Executed(name, d, r, n).0, key, target, r.digest).verdict ==
        if n >= 3 then FoundVerified(EffectOf(r))
        else if !Showing(d, r.digest) then FoundFailed
        else if n >= 1 || Garbled(d) then FoundAmbiguous
        else FoundVerified(VersionShown(d))
  {
    ReadsExactly(name, d, reg, target, key, r.digest);
    assert Executed(name, d, r, n).0 == Written(d, r, n);
    assert n == 0 ==> Written(d, r, n) == d;
  }

  /**
   For a new operation in any directory: its readback says VERIFIED after all three writes and FAILED before,
   exactly when the target did not already show its digest. It says VERIFIED exactly after all three writes
   also when the version file of that digest was another operation's already.
   */
  lemma ReadbackTellsExactly(name: string, d: Dir, reg: Registry, target: string, key: string, r: Request)
    requires WellFormed(name, reg, target) && Filed(d, reg) && Fresh(name, d, target, r)
    ensures
      (forall n: nat :: Read(Executed(name, d, r, n).0, key, target, r.digest).verdict ==
         if n >= 3 then FoundVerified(EffectOf(r)) else FoundFailed)
      <==> !Showing(d, r.digest)
    ensures
      (forall n: nat :: Read(Executed(name, d, r, n).0, key, target, r.digest).verdict.FoundVerified? <==> n >= 3)
      <==> !Showing(d, r.digest) || Garbled(d)
  {
    forall n: nat ensures
      Read(Executed(name, d, r, n).0, key, target, r.digest).verdict ==
        if n >= 3 then FoundVerified(EffectOf(r))
        else if !Showing(d, r.digest) then FoundFailed
        else if n >= 1 || Garbled(d) then FoundAmbiguous
        else FoundVerified(VersionShown(d))
    {
      ReadbackAfter(name, d, reg, target, key, r, n);
    }
    assert Read(Executed(name, d, r, 0).0, key, target, r.digest).verdict != FoundFailed <==> Showing(d, r.digest);
  }

  /**
   A new operation that dies part way leaves an ambiguous target exactly when the target was ambiguous already,
   or when the crash falls after the first write and the operation has the digest of the current pointer.
   */
  lemma CrashAmbiguousExactly(name: string, d: Dir, reg: Registry, target: string, r: Request, n: nat)
    requires WellFormed(name, reg, target) && Filed(d, reg) && Fresh(name, d, target, r)
    ensures
      (exists key, digest :: Read(Executed(name, d, r, n).0, key, target, digest).verdict == FoundAmbiguous)
        <==> n < 3 && (Garbled(d) || (n >= 1 && Showing(d, r.digest)))
  {
    var e := Executed(name, d, r, n).0;
    assert e == Written(d, r, n);
    if d.current.Some? {
      var p := d.current.value;
      assert SoundVersion(d, reg, p.digest) && Malformed(name, reg[p.operation]).None?;
      assert n < 3 ==> (Read(e, "", target, p.digest).verdict == FoundAmbiguous
                        <==> Garbled(d) || (n >= 1 && p.digest == r.digest));
    }
  }

  /**
   After a new operation, rollback succeeds exactly for the operations that left a receipt with its digest, and
   restores what was current before them.
   */
  lemma SharedDigestRollsBackNewer(name: string, d: Dir, reg: Registry, target: string, r: Request, op: string)
    requires WellFormed(name, reg, target) && Filed(d, reg) && Fresh(name, d, target, r)
    ensures
      var e := Executed(name, d, r, 3).0;
      && e.current == Some(PointerOf(r))
      && (RolledBack(e, op).1.Ok? <==> op == r.operation || (op in d.receipts && d.receipts[op].digest == r.digest))
      && (RolledBack(e, op).1.Ok? ==>
            RolledBack(e, op).0.current == if op == r.operation then d.current else d.receipts[op].previous)
  {
    if op in d.receipts { assert SoundReceipt(d, reg, op); }
  }

  /** Where an undo stack describes the directory, rolling back layer k takes away everything above it too. */
  lemma SharedDigestDropsLayers(
    name: string, d: Dir, reg: Registry, target: string, stack: seq<string>, k: nat, r: Request)
    requires WellFormed(name, reg, target) && Holds(d, reg, stack) && Fresh(name, d, target, r) && k < |stack|
    requires stack[k] in reg && reg[stack[k]].digest == r.digest
    ensures k > 0 ==> stack[k - 1] in reg
    ensures RolledBack(Executed(name, d, r, 3).0, stack[k]).1.Ok?
    ensures RolledBack(Executed(name, d, r, 3).0, stack[k]).0.current ==
            if k == 0 then None else Some(PointerOf(reg[stack[k - 1]]))
  {
    assert Layer(d, reg, stack, k) && SoundReceipt(d, reg, stack[k]) && Malformed(name, reg[stack[k]]).None?;
  }

  // ---- every run after a crash ----

  /** The two directories differ at most in the crashed operation's receipt and the version file of its digest. */
  ghost predicate Apart(d: Dir, e: Dir, r: Request) {
    && e.current == d.current
    && (forall op | op != r.operation ::
         (op in e.receipts <==> op in d.receipts) && (op in d.receipts ==> e.receipts[op] == d.receipts[op]))
    && (forall g | g != r.digest ::
         (g in e.versions <==> g in d.versions) && (g in d.versions ==> e.versions[g] == d.versions[g]))
  }

  ghost predicate Agree(d: Dir, e: Dir, g: Digest) {
    (g in e.versions <==> g in d.versions) && (g in d.versions ==> e.versions[g] == d.versions[g])
  }

  ghost predicate NoLayer(reg: Registry, stack: seq<string>, g: Digest) {
    forall i {:trigger stack[i]} | 0 <= i < |stack| :: stack[i] in reg ==> reg[stack[i]].digest != g
  }

  lemma ReceiptsRegistered(d: Dir, reg: Registry)
    requires Sound(d, reg)
    ensures forall op | op in d.receipts :: op in reg
  {
    forall op | op in d.receipts ensures op in reg { assert SoundReceipt(d, reg, op); }
  }

  lemma CrashApart(name: string, d: Dir, r: Request, n: nat)
    requires r.operation !in d.receipts && Malformed(name, r).None? && Dumpable(Plain(r.payload)) && n < 3
    ensures Apart(d, Executed(name, d, r, n).0, r)
    ensures n == 0 ==> Executed(name, d, r, n).0 == d
    ensures n >= 1 ==>
      r.digest in Executed(name, d, r, n).0.versions && Executed(name, d, r, n).0.versions[r.digest] == VersionOf(r)
  {
  }

  lemma WrittenApart(d: Dir, e: Dir, r: Request, x: Request, n: nat)
    requires Apart(d, e, r) && x.operation != r.operation
    ensures Apart(Written(d, x, n), Written(e, x, n), r)
  {
  }

  lemma RolledBackApart(d: Dir, e: Dir, r: Request, op: string)
    requires Apart(d, e, r) && op != r.operation
    ensures Apart(RolledBack(d, op).0, RolledBack(e, op).0, r) && RolledBack(e, op).0.versions == e.versions
  {
  }

  lemma SamePlan(name: string, d: Dir, e: Dir, r: Request, x: Request)
    requires Apart(d, e, r) && x.operation != r.operation
    ensures PlanFor(name, e, x) == PlanFor(name, d, x)
  {
  }

  lemma ActApart(name: string, d: Dir, e: Dir, reg: Registry, target: string, r: Request, a: Act)
    requires WellFormed(name, reg, target) && a.operation in reg && r.operation !in reg && Apart(d, e, r)
    ensures Apart(Act1(name, d, reg, a).0, Act1(name, e, reg, a).0, r)
    ensures a.Rollback? ==> Act1(name, e, reg, a).0.versions == e.versions
  {
    match a
    case Rollback(op) => RolledBackApart(d, e, r, op);
    case Execute(op, n) =>
      SamePlan(name, d, e, r, reg[op]);
      WrittenApart(d, e, r, reg[op], n);
  }

  lemma ActAgrees(name: string, d: Dir, e: Dir, reg: Registry, target: string, r: Request, a: Act)
    requires WellFormed(name, reg, target) && a.operation in reg && r.operation !in reg && Apart(d, e, r)
    requires Agree(d, e, r.digest)
    ensures Agree(Act1(name, d, reg, a).0, Act1(name, e, reg, a).0, r.digest)
  {
    match a
    case Rollback(op) =>
    case Execute(op, n) => SamePlan(name, d, e, r, reg[op]);
  }

  /** An act that puts the shared digest on the stack also writes its version file, in both directories alike. */
  lemma ActSafe(name: string, d: Dir, e: Dir, reg: Registry, target: string, u: Undo, r: Request, a: Act)
    requires OneDigest(name, reg, target) && Refines(d, reg, u) && a.operation in reg && r.operation !in reg
    requires Apart(d, e, r)
    requires Agree(d, e, r.digest) || NoLayer(reg, u.stack, r.digest)
    ensures Agree(Act1(name, d, reg, a).0, Act1(name, e, reg, a).0, r.digest)
      || NoLayer(reg, Do(u, a).0.stack, r.digest)
  {
    if Agree(d, e, r.digest) {
      ActAgrees(name, d, e, reg, target, r, a);
    } else if a.Execute? && a.operation !in u.log && a.writes >= 3 && reg[a.operation].digest == r.digest {
      PushAgrees(name, d, e, reg, target, r, a);
    }
  }

  lemma PushAgrees(name: string, d: Dir, e: Dir, reg: Registry, target: string, r: Request, a: Act)
    requires WellFormed(name, reg, target) && a.operation in reg && r.operation !in reg && Apart(d, e, r)
    requires a.Execute? && a.operation !in d.receipts && a.writes >= 3 && reg[a.operation].digest == r.digest
    ensures Agree(Act1(name, d, reg, a).0, Act1(name, e, reg, a).0, r.digest)
  {
  }

  /** Along any run, the crashed directory follows the one in which the operation never started. */
  lemma {:induction false} RunApart(
    name: string, d: Dir, e: Dir, reg: Registry, target: string, u: Undo, r: Request, acts: seq<Act>)
    requires OneDigest(name, reg, target) && Refines(d, reg, u) && Named(reg, acts) && r.operation !in reg
    requires Apart(d, e, r)
    requires Agree(d, e, r.digest) || NoLayer(reg, u.stack, r.digest)
    ensures Apart(DirAfter(name, d, reg, acts), DirAfter(name, e, reg, acts), r)
    ensures Agree(DirAfter(name, d, reg, acts), DirAfter(name, e, reg, acts), r.digest)
         || NoLayer(reg, UndoAfter(u, acts).stack, r.digest)
  {
    if acts != [] {
      var before := Front(acts);
      NamedFront(reg, acts);
      RunApart(name, d, e, reg, target, u, r, before);
      RefinesUndoStack(name, d, reg, target, u, before);
      var d', e' := DirAfter(name, d, reg, before), DirAfter(name, e, reg, before);
      ActApart(name, d', e', reg, target, r, Last(acts));
      ActSafe(name, d', e', reg, target, UndoAfter(u, before), r, Last(acts));
    }
  }

  /** With an undamaged top the two directories read alike. */
  lemma ReadsAlike(
    name: string, d: Dir, e: Dir, reg: Registry, target: string, u: Undo, r: Request, key: string, digest: Digest)
    requires OneDigest(name, reg, target) && Refines(d, reg, u) && Apart(d, e, r)
    requires Agree(d, e, r.digest) || NoLayer(reg, u.stack, r.digest)
    ensures Read(e, key, target, digest).verdict == Read(d, key, target, digest).verdict
    ensures Read(e, key, target, digest).verdict != FoundAmbiguous
  {
    ReadbackShowsTop(name, d, reg, target, u.stack, key, digest);
    if u.stack != [] { assert Layer(d, reg, u.stack, |u.stack| - 1) && u.stack[|u.stack| - 1] == Last(u.stack); }
  }

  /** After the crash, no run over the registered operations ever meets an ambiguous readback. */
  ghost predicate NeverAmbiguous(name: string, e: Dir, reg: Registry, target: string) {
    forall acts, key, digest {:trigger Read(DirAfter(name, e, reg, acts), key, target, digest)} | Named(reg, acts) ::
      Read(DirAfter(name, e, reg, acts), key, target, digest).verdict != FoundAmbiguous
  }

  lemma {:induction false} RollbacksApart(
    name: string, d: Dir, e: Dir, reg: Registry, target: string, r: Request, acts: seq<Act>)
    requires WellFormed(name, reg, target) && Named(reg, acts) && r.operation !in reg && Apart(d, e, r)
    requires forall i {:trigger acts[i]} | 0 <= i < |acts| :: acts[i].Rollback?
    ensures Apart(DirAfter(name, d, reg, acts), DirAfter(name, e, reg, acts), r)
    ensures DirAfter(name, e, reg, acts).versions == e.versions
  {
    if acts != [] {
      var before := Front(acts);
      forall i {:trigger before[i]} | 0 <= i < |before| ensures before[i].operation in reg && before[i].Rollback? {
        assert acts[i].operation in reg && acts[i].Rollback?;
      }
      assert acts[|acts| - 1] == Last(acts);
      RollbacksApart(name, d, e, reg, target, r, before);
      ActApart(name, DirAfter(name, d, reg, before), DirAfter(name, e, reg, before), reg, target, r, Last(acts));
    }
  }

  lemma {:induction false} PopsAreRollbacks(ops: seq<string>, reg: Registry)
    requires forall i {:trigger ops[i]} | 0 <= i < |ops| :: ops[i] in reg
    ensures Named(reg, Pops(ops)) && forall i {:trigger Pops(ops)[i]} | 0 <= i < |Pops(ops)| :: Pops(ops)[i].Rollback?
  {
    if ops != [] {
      assert ops[|ops| - 1] == Last(ops);
      forall i {:trigger Front(ops)[i]} | 0 <= i < |Front(ops)| ensures Front(ops)[i] in reg { assert ops[i] in reg; }
      PopsAreRollbacks(Front(ops), reg);
    }
  }

  /** Rolling back to a layer whose version file was overwritten meets the ambiguity. */
  lemma LayerUncovered(name: string, d: Dir, e: Dir, reg: Registry, target: string, u: Undo, r: Request, k: nat)
    requires OneDigest(name, reg, target) && Refines(d, reg, u) && r.operation !in reg && Apart(d, e, r)
    requires k < |u.stack| && u.stack[k] in reg && reg[u.stack[k]].digest == r.digest
    requires r.digest in e.versions && e.versions[r.digest] == VersionOf(r)
    ensures !NeverAmbiguous(name, e, reg, target)
  {
    var base, ops := u.stack[..k + 1], u.stack[k + 1..];
    assert u.stack == base + ops && Last(base) == u.stack[k];
    forall i {:trigger ops[i]} | 0 <= i < |ops| ensures ops[i] in reg { assert Layer(d, reg, u.stack, k + 1 + i); }
    PopsAreRollbacks(ops, reg);
    RollbacksApart(name, d, e, reg, target, r, Pops(ops));
    RefinesUndoStack(name, d, reg, target, u, Pops(ops));
    PopsPop(u, base, ops);
    UncoveredReads(DirAfter(name, e, reg, Pops(ops)), reg, target, u.stack[k], r);
  }

  lemma UncoveredReads(f: Dir, reg: Registry, target: string, op: string, r: Request)
    requires op in reg && reg[op].operation == op && reg[op].digest == r.digest && r.operation != op
    requires f.current == Some(PointerOf(reg[op])) && r.digest in f.versions && f.versions[r.digest] == VersionOf(r)
    ensures Read(f, "", target, r.digest).verdict == FoundAmbiguous
  {
  }

  /**
   A new operation dies before its swap. No later run, of executions that finish or crash and of rollbacks,
   ever meets an ambiguous readback exactly when nothing was written, or no applied layer shares its digest.
   */
  lemma NeverAmbiguousByLayer(name: string, d: Dir, reg: Registry, target: string, u: Undo, r: Request, n: nat)
    requires OneDigest(name, reg, target) && Refines(d, reg, u)
    requires r.target == target && r.operation !in reg && Malformed(name, r).None? && Dumpable(Plain(r.payload))
    requires n < 3
    ensures NeverAmbiguous(name, Executed(name, d, r, n).0, reg, target) <==> n == 0 || NoLayer(reg, u.stack, r.digest)
  {
    ReceiptsRegistered(d, reg);
    var e := Executed(name, d, r, n).0;
    CrashApart(name, d, r, n);
    if n == 0 || NoLayer(reg, u.stack, r.digest) {
      forall acts, key, digest | Named(reg, acts)
        ensures Read(DirAfter(name, e, reg, acts), key, target, digest).verdict != FoundAmbiguous {
        RunApart(name, d, e, reg, target, u, r, acts);
        RefinesUndoStack(name, d, reg, target, u, acts);
        ReadsAlike(name, DirAfter(name, d, reg, acts), DirAfter(name, e, reg, acts), reg, target, UndoAfter(u, acts), r,
          key, digest);
      }
    } else {
      var k :| 0 <= k < |u.stack| && u.stack[k] in reg && reg[u.stack[k]].digest == r.digest;
      LayerUncovered(name, d, e, reg, target, u, r, k);
    }
  }

  // ---- every run after a crash, whatever digests are shared ----

  /** Some execution of the run writes the version file of the digest. */
  ghost predicate Writes(name: string, d: Dir, reg: Registry, acts: seq<Act>, g: Digest)
    requires Named(reg, acts)
  {
    acts != [] && (
      NamedFront(reg, acts);
      var a, f := Last(acts), DirAfter(name, d, reg, Front(acts));
      || Writes(name, d, reg, Front(acts), g)
      || (a.Execute? && a.writes >= 1 && reg[a.operation].digest == g && a.operation !in f.receipts))
  }

  /**
   The crashed directory follows the one in which the operation never started; its version file stays until
   rewritten.
   */
  ghost predicate Follows(f: Dir, c: Dir, r: Request, rewritten: bool) {
    && Apart(f, c, r)
    && (if rewritten then Agree(f, c, r.digest) else r.digest in c.versions && c.versions[r.digest] == VersionOf(r))
  }

  lemma ActFollows(name: string, f: Dir, c: Dir, reg: Registry, target: string, r: Request, a: Act, rewritten: bool)
    requires WellFormed(name, reg, target) && a.operation in reg && r.operation !in reg && Follows(f, c, r, rewritten)
    ensures
      var writes := a.Execute? && a.writes >= 1 && reg[a.operation].digest == r.digest && a.operation !in f.receipts;
      Follows(Act1(name, f, reg, a).0, Act1(name, c, reg, a).0, r, rewritten || writes)
  {
    ActApart(name, f, c, reg, target, r, a);
    if rewritten { ActAgrees(name, f, c, reg, target, r, a); }
    match a
    case Rollback(op) =>
    case Execute(op, n) => SamePlan(name, f, c, r, reg[op]);
  }

  lemma {:induction false} RunFollows(
    name: string, d: Dir, e: Dir, reg: Registry, target: string, r: Request, acts: seq<Act>)
    requires WellFormed(name, reg, target) && Named(reg, acts) && r.operation !in reg && Follows(d, e, r, false)
    ensures Follows(DirAfter(name, d, reg, acts), DirAfter(name, e, reg, acts), r, Writes(name, d, reg, acts, r.digest))
  {
    if acts != [] {
      NamedFront(reg, acts);
      RunFollows(name, d, e, reg, target, r, Front(acts));
      var f, c := DirAfter(name, d, reg, Front(acts)), DirAfter(name, e, reg, Front(acts));
      ActFollows(name, f, c, reg, target, r, Last(acts), Writes(name, d, reg, Front(acts), r.digest));
    }
  }

  /** A follower is ambiguous when the other is, or shows the digest over the version file that was never rewritten. */
  lemma FollowerReads(
    name: string, f: Dir, c: Dir, reg: Registry, target: string, r: Request, rewritten: bool, key: string,
      digest: Digest)
    requires WellFormed(name, reg, target) && Filed(f, reg) && r.operation !in reg && Follows(f, c, r, rewritten)
    ensures Read(c, key, target, digest).verdict == FoundAmbiguous <==>
      Showing(f, digest) && (Garbled(f) || (!rewritten && digest == r.digest))
  {
    ReadsExactly(name, f, reg, target, key, digest);
    if f.current.Some? {
      var p := f.current.value;
      assert GoodPointer(f, reg, p) && Malformed(name, reg[p.operation]).None? && SoundVersion(f, reg, p.digest);
    }
  }

  /** No run shows the digest before it writes the digest's version file. */
  ghost predicate NeverShownUnwritten(name: string, d: Dir, reg: Registry, g: Digest) {
    forall acts {:trigger DirAfter(name, d, reg, acts)} | Named(reg, acts) ::
      Showing(DirAfter(name, d, reg, acts), g) ==> Writes(name, d, reg, acts, g)
  }

  lemma GarbledReads(name: string, f: Dir, reg: Registry, target: string)
    requires WellFormed(name, reg, target) && Filed(f, reg) && Garbled(f)
    ensures Read(f, "", target, f.current.value.digest).verdict == FoundAmbiguous
  {
    ReadsExactly(name, f, reg, target, "", f.current.value.digest);
  }

  lemma CrashFollows(name: string, d: Dir, target: string, r: Request, n: nat)
    requires Fresh(name, d, target, r) && 1 <= n < 3
    ensures Follows(d, Executed(name, d, r, n).0, r, false)
  {
    CrashApart(name, d, r, n);
  }

  lemma CrashStaysCertain(name: string, d: Dir, reg: Registry, target: string, r: Request, n: nat)
    requires WellFormed(name, reg, target) && Filed(d, reg) && Fresh(name, d, target, r) && r.operation !in reg
    requires 1 <= n < 3
    requires NeverAmbiguous(name, d, reg, target) && NeverShownUnwritten(name, d, reg, r.digest)
    ensures NeverAmbiguous(name, Executed(name, d, r, n).0, reg, target)
  {
    var e := Executed(name, d, r, n).0;
    CrashFollows(name, d, target, r, n);
    forall acts, key, digest | Named(reg, acts)
      ensures Read(DirAfter(name, e, reg, acts), key, target, digest).verdict != FoundAmbiguous
    {
      var f, written := DirAfter(name, d, reg, acts), Writes(name, d, reg, acts, r.digest);
      RunFiled(name, d, reg, target, acts);
      RunFollows(name, d, e, reg, target, r, acts);
      if Garbled(f) { GarbledReads(name, f, reg, target); }
      FollowerReads(name, f, DirAfter(name, e, reg, acts), reg, target, r, written, key, digest);
    }
  }

  lemma CrashTurnsAmbiguous(name: string, d: Dir, reg: Registry, target: string, r: Request, n: nat, acts: seq<Act>)
    requires WellFormed(name, reg, target) && Filed(d, reg) && Fresh(name, d, target, r) && r.operation !in reg
    requires 1 <= n < 3
    requires Named(reg, acts)
    requires
      var f := DirAfter(name, d, reg, acts);
      Garbled(f) || (Showing(f, r.digest) && !Writes(name, d, reg, acts, r.digest))
    ensures !NeverAmbiguous(name, Executed(name, d, r, n).0, reg, target)
  {
    var e, f := Executed(name, d, r, n).0, DirAfter(name, d, reg, acts);
    CrashFollows(name, d, target, r, n);
    RunFiled(name, d, reg, target, acts);
    RunFollows(name, d, e, reg, target, r, acts);
    var g, written := f.current.value.digest, Writes(name, d, reg, acts, r.digest);
    FollowerReads(name, f, DirAfter(name, e, reg, acts), reg, target, r, written, "", g);
    assert Read(DirAfter(name, e, reg, acts), "", target, g).verdict == FoundAmbiguous;
  }

  lemma AmbiguousIsGarbled(name: string, d: Dir, reg: Registry, target: string) returns (acts: seq<Act>)
    requires WellFormed(name, reg, target) && Filed(d, reg) && !NeverAmbiguous(name, d, reg, target)
    ensures Named(reg, acts) && Garbled(DirAfter(name, d, reg, acts))
  {
    var key, digest;
    acts, key, digest :| Named(reg, acts)
      && Read(DirAfter(name, d, reg, acts), key, target, digest).verdict == FoundAmbiguous;
    RunFiled(name, d, reg, target, acts);
    ReadsExactly(name, DirAfter(name, d, reg, acts), reg, target, key, digest);
  }

  /**
   A new operation dies before its swap, over any directory that runs can leave. No later run ever meets an
   ambiguous readback exactly when none would have without it, and, unless nothing was written, no run shows the
   operation's digest before it writes that digest's version file anew.
   */
  lemma NeverAmbiguousExactly(name: string, d: Dir, reg: Registry, target: string, r: Request, n: nat)
    requires WellFormed(name, reg, target) && Filed(d, reg) && Fresh(name, d, target, r) && r.operation !in reg && n < 3
    ensures NeverAmbiguous(name, Executed(name, d, r, n).0, reg, target) <==>
      NeverAmbiguous(name, d, reg, target) && (n == 0 || NeverShownUnwritten(name, d, reg, r.digest))
  {
    if n == 0 {
      CrashApart(name, d, r, n);
    } else if !NeverAmbiguous(name, d, reg, target) {
      var acts := AmbiguousIsGarbled(name, d, reg, target);
      CrashTurnsAmbiguous(name, d, reg, target, r, n, acts);
    } else if !NeverShownUnwritten(name, d, reg, r.digest) {
      var acts :| Named(reg, acts) && Showing(DirAfter(name, d, reg, acts), r.digest)
        && !Writes(name, d, reg, acts, r.digest);
      CrashTurnsAmbiguous(name, d, reg, target, r, n, acts);
    } else {
      CrashStaysCertain(name, d, reg, target, r, n);
    }
  }
}
