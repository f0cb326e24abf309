/**
 The reference file injector (reference_adapter.py). Each target has its own directory of version
 files named by effect digest, receipts named by operation, and the current pointer. Every atomic
 JSON write is one step, so a process can die before any of them.
 */
module FileStore {
  import opened Prelude
  import opened Json

  datatype Version = Version(target: string, operation: string, digest: Digest, payload: Value)

  datatype Pointer = Pointer(target: string, operation: string, digest: Digest, versionFile: Digest)

  datatype Receipt = Receipt(
    target: string, operation: string, digest: Digest, previous: Option<Pointer>, versionFile: Digest)

  datatype Dir = Dir(versions: map<Digest, Version>, receipts: map<string, Receipt>, current: Option<Pointer>)

  const NEW_DIR := Dir(map[], map[], None)

  datatype Request = Request(target: string, operation: string, digest: Digest, payload: Value)

  datatype Fault =
    | BadTarget | BadOperation | MissingDigest | BadPayload | NotJson
    | Reused | NotCurrent | UnknownReceipt | NewerOrMissingCurrent | Died

  predicate SafeChar(c: char) {
    'A' <= c <= 'Z' || 'a' <= c <= 'z' || '0' <= c <= '9' || c in {'.', '_', '-'}
  }

  predicate Safe(s: string) {
    s != "" && forall i | 0 <= i < |s| :: SafeChar(s[i])
  }

  /** `_target_key`: the part after the injector's own prefix. */
  function TargetKey(name: string, target: string): Option<string> {
    var n := |name| + 1;
    if n <= |target| && target[..n] == name + ":" && Safe(target[n..]) then Some(target[n..]) else None
  }

  // ---- execute ----

  function VersionOf(r: Request): Version { Version(r.target, r.operation, r.digest, Plain(r.payload)) }

  function PointerOf(r: Request): Pointer { Pointer(r.target, r.operation, r.digest, r.digest) }

  function ReceiptOf(r: Request, previous: Option<Pointer>): Receipt {
    Receipt(r.target, r.operation, r.digest, previous, r.digest)
  }

  /** What the request itself can be refused for. */
  function Malformed(name: string, r: Request): Option<Fault> {
    if TargetKey(name, r.target).None? then Some(BadTarget)
    else if !Safe(r.operation) then Some(BadOperation)
    else if r.digest == "" then Some(MissingDigest)
    else if !Plain(r.payload).Dict? then Some(BadPayload)
    else None
  }

  datatype Plan = Raise(fault: Fault) | Replay(receipt: Receipt) | Swap(receipt: Receipt)

  /** What `execute` decides before it writes. */
  function PlanFor(name: string, d: Dir, r: Request): Plan {
    var malformed := Malformed(name, r);
    if malformed.Some? then Raise(malformed.value)
    else if r.operation in d.receipts then
      var receipt := d.receipts[r.operation];
      if receipt.digest != r.digest || receipt.target != r.target then Raise(Reused)
      else if d.current.None? || d.current.value.digest != r.digest then Raise(NotCurrent)
      else Replay(receipt)
    else if !Dumpable(Plain(r.payload)) then Raise(NotJson)
    else Swap(ReceiptOf(r, d.current))
  }

  /** The directory after the first n of the three writes: version, then receipt, then current pointer. */
  function Written(d: Dir, r: Request, n: nat): Dir {
    Dir(
      if n >= 1 then d.versions[r.digest := VersionOf(r)] else d.versions,
      if n >= 2 then d.receipts[r.operation := ReceiptOf(r, d.current)] else d.receipts,
      if n >= 3 then Some(PointerOf(r)) else d.current)
  }

  /** `execute` in a process that dies after n writes, or finishes when n is at least three. */
  function Executed(name: string, d: Dir, r: Request, n: nat): (Dir, Result<Receipt, Fault>) {
    match PlanFor(name, d, r)
    case Raise(fault) => (d, Error(fault))
    case Replay(receipt) => (d, Ok(receipt))
    case Swap(receipt) => (Written(d, r, n), if n >= 3 then Ok(receipt) else Error(Died))
  }

  // ---- readback ----

  datatype Verdict =
    | FoundVerified(observed: Value) | FoundFailed | FoundAmbiguous

  datatype Readback = Readback(verdict: Verdict, evidence: string)

  function Observed(p: Pointer, payload: Value): Value {
    Dict(map[
      "target" := Str(p.target), "operation_id" := Str(p.operation),
      "effect_digest" := Str(p.digest), "payload" := payload])
  }

  function Read(d: Dir, key: string, target: string, digest: Digest): Readback {
    var ref := "reference-file:" + key + ":";
    if d.current.None? then Readback(FoundFailed, ref + "missing")
    else
      var current := d.current.value;
      if current.target != target then Readback(FoundAmbiguous, ref + "target-mismatch")
      else if current.digest != digest then Readback(FoundFailed, ref + "different-current")
      else if current.versionFile == "" then Readback(FoundAmbiguous, ref + "invalid-pointer")
      else if current.versionFile !in d.versions then Readback(FoundAmbiguous, ref + "version-missing")
      else
        var version := d.versions[current.versionFile];
        if version.digest != digest then Readback(FoundAmbiguous, ref + "version-mismatch")
        else if version.target != current.target || version.operation != current.operation
        then Readback(FoundAmbiguous, ref + "version-identity-mismatch")
        else Readback(FoundVerified(Observed(current, version.payload)), ref + digest)
  }

  // ---- rollback ----

  function RolledBack(d: Dir, operation: string): (Dir, Result<Option<Pointer>, Fault>) {
    if !Safe(operation) then (d, Error(BadOperation))
    else if operation !in d.receipts then (d, Error(UnknownReceipt))
    else
      var receipt := d.receipts[operation];
      if d.current.None? || d.current.value.digest != receipt.digest then (d, Error(NewerOrMissingCurrent))
      else (d.(current := receipt.previous), Ok(receipt.previous))
  }

  // ---- the undo stack a directory stands for ----

  type Registry = map<string, Request>

  /** The operations of one target: an operation is one request, and the handler can write it. */
  ghost predicate WellFormed(name: string, reg: Registry, target: string) {
    && TargetKey(name, target).Some?
    && (forall op | op in reg ::
          reg[op].operation == op && reg[op].target == target && Malformed(name, reg[op]).None?
          && Dumpable(Plain(reg[op].payload)))
  }

  /** No two of them share a digest. */
  ghost predicate Distinct(reg: Registry) {
    forall a, b | a in reg && b in reg && reg[a].digest == reg[b].digest :: a == b
  }

  ghost predicate OneDigest(name: string, reg: Registry, target: string) {
    WellFormed(name, reg, target) && Distinct(reg)
  }

  ghost predicate SoundReceipt(d: Dir, reg: Registry, op: string)
    requires op in d.receipts
  {
    op in reg && d.receipts[op] == ReceiptOf(reg[op], d.receipts[op].previous)
  }

  ghost predicate SoundVersion(d: Dir, reg: Registry, g: Digest)
    requires g in d.versions
  {
    d.versions[g].operation in reg && d.versions[g] == VersionOf(reg[d.versions[g].operation])
      && d.versions[g].digest == g
  }

  ghost predicate Sound(d: Dir, reg: Registry) {
    && (forall op {:trigger SoundReceipt(d, reg, op)} | op in d.receipts :: SoundReceipt(d, reg, op))
    && (forall g {:trigger SoundVersion(d, reg, g)} | g in d.versions :: SoundVersion(d, reg, g))
  }

  function Top(reg: Registry, stack: seq<string>): Option<Pointer>
    requires stack != [] ==> Last(stack) in reg
  {
    if stack == [] then None else Some(PointerOf(reg[Last(stack)]))
  }

  /** The i-th effect from the bottom: its receipt points to the one below, and its version file is its own. */
  ghost predicate Layer(d: Dir, reg: Registry, stack: seq<string>, i: int)
    requires 0 <= i < |stack|
  {
    var op := stack[i];
    && op in reg && op in d.receipts && reg[op].digest in d.versions
    && d.versions[reg[op].digest] == VersionOf(reg[op])
    && (i > 0 ==> stack[i - 1] in reg)
    && d.receipts[op].previous == if i == 0 then None else Some(PointerOf(reg[stack[i - 1]]))
  }

  ghost predicate Holds(d: Dir, reg: Registry, stack: seq<string>) {
    && Sound(d, reg)
    && (forall i {:trigger Layer(d, reg, stack, i)} | 0 <= i < |stack| :: Layer(d, reg, stack, i))
    && (stack != [] ==> Last(stack) in reg)
    && d.current == Top(reg, stack)
  }

  // ---- single steps ----

  /** op is a registered operation that nothing else shares a digest with. */
  ghost predicate Own(reg: Registry, op: string) {
    op in reg && reg[op].operation == op && forall a | a in reg && reg[a].digest == reg[op].digest :: a == op
  }

  lemma WrittenSound(d: Dir, reg: Registry, op: string, n: nat)
    requires Sound(d, reg) && Own(reg, op) && op !in d.receipts
    ensures Sound(Written(d, reg[op], n), reg)
  {
    var e := Written(d, reg[op], n);
    forall x | x in e.receipts ensures SoundReceipt(e, reg, x) {
      if x in d.receipts { assert SoundReceipt(d, reg, x); }
    }
    forall g | g in e.versions ensures SoundVersion(e, reg, g) {
      if g in d.versions { assert SoundVersion(d, reg, g); }
    }
  }

  lemma WrittenKeepsLayer(d: Dir, reg: Registry, stack: seq<string>, i: nat, op: string, n: nat)
    requires i < |stack| && Layer(d, reg, stack, i) && Own(reg, op) && op !in d.receipts
    ensures Layer(Written(d, reg[op], n), reg, stack, i)
  {
  }

  lemma PartialWriteKeeps(d: Dir, reg: Registry, stack: seq<string>, op: string, n: nat)
    requires Holds(d, reg, stack) && Own(reg, op) && op !in d.receipts && n < 3
    ensures Holds(Written(d, reg[op], n), reg, stack)
  {
    WrittenSound(d, reg, op, n);
    var e := Written(d, reg[op], n);
    forall i | 0 <= i < |stack| ensures Layer(e, reg, stack, i) {
      assert Layer(d, reg, stack, i);
      WrittenKeepsLayer(d, reg, stack, i, op, n);
    }
  }

  lemma FullWritePushes(d: Dir, reg: Registry, stack: seq<string>, op: string, n: nat)
    requires Holds(d, reg, stack) && Own(reg, op) && op !in d.receipts && n >= 3
    ensures Holds(Written(d, reg[op], n), reg, stack + [op])
  {
    WrittenSound(d, reg, op, n);
    var e, s := Written(d, reg[op], n), stack + [op];
    forall i | 0 <= i < |s| ensures Layer(e, reg, s, i) {
      if i < |stack| {
        assert Layer(d, reg, stack, i);
        WrittenKeepsLayer(d, reg, stack, i, op, n);
        assert Layer(e, reg, stack, i);
      }
    }
  }

  /** Dying before the current-pointer swap leaves the stack as it was. */
  lemma CrashKeepsStack(name: string, d: Dir, reg: Registry, target: string, stack: seq<string>, op: string, n: nat)
    requires OneDigest(name, reg, target) && Holds(d, reg, stack) && op in reg
    requires n < 3 || op in d.receipts
    ensures Holds(Executed(name, d, reg[op], n).0, reg, stack)
  {
    if op !in d.receipts { PartialWriteKeeps(d, reg, stack, op, n); }
  }

  /** Running to the end pushes. */
  lemma ExecutePushes(name: string, d: Dir, reg: Registry, target: string, stack: seq<string>, op: string, n: nat)
    requires OneDigest(name, reg, target) && Holds(d, reg, stack) && op in reg
    requires n >= 3 && op !in d.receipts
    ensures Holds(Executed(name, d, reg[op], n).0, reg, stack + [op])
    ensures Executed(name, d, reg[op], n).1.Ok?
  {
    FullWritePushes(d, reg, stack, op, n);
  }

  /** Executing an operation that already has a receipt changes nothing, and answers only when it is the top. */
  lemma ReplayIsTopOnly(name: string, d: Dir, reg: Registry, target: string, stack: seq<string>, op: string, n: nat)
    requires OneDigest(name, reg, target) && Holds(d, reg, stack) && op in d.receipts
    ensures op in reg && Executed(name, d, reg[op], n).0 == d
    ensures Executed(name, d, reg[op], n).1 ==
            if stack != [] && Last(stack) == op then Ok(d.receipts[op]) else Error(NotCurrent)
  {
    assert SoundReceipt(d, reg, op);
  }

  /** Rolling back the top pops; rolling back anything else fails and changes nothing. */
  lemma RollbackPopsTopOnly(name: string, d: Dir, reg: Registry, target: string, stack: seq<string>, op: string)
    requires OneDigest(name, reg, target) && Holds(d, reg, stack)
    ensures RolledBack(d, op).1.Ok? <==> stack != [] && Last(stack) == op
    ensures RolledBack(d, op).1.Ok? ==> Holds(RolledBack(d, op).0, reg, Front(stack))
    ensures RolledBack(d, op).1.Error? ==> RolledBack(d, op).0 == d
  {
    var e := RolledBack(d, op).0;
    if op in d.receipts { assert SoundReceipt(d, reg, op); }
    if stack != [] { assert Layer(d, reg, stack, |stack| - 1); }
    if RolledBack(d, op).1.Ok? {
      forall x | x in e.receipts ensures SoundReceipt(e, reg, x) { assert SoundReceipt(d, reg, x); }
      forall g | g in e.versions ensures SoundVersion(e, reg, g) { assert SoundVersion(d, reg, g); }
      forall i | 0 <= i < |Front(stack)| ensures Layer(e, reg, Front(stack), i) { assert Layer(d, reg, stack, i); }
      if |stack| > 1 { assert Layer(d, reg, stack, |stack| - 2); }
    }
  }

  /**
   The target always reads back: the top effect as VERIFIED with what it wrote, any other as FAILED, none as
   AMBIGUOUS.
   */
  lemma ReadbackShowsTop(
    name: string, d: Dir, reg: Registry, target: string, stack: seq<string>, key: string, digest: Digest)
    requires OneDigest(name, reg, target) && Holds(d, reg, stack)
    ensures stack != [] ==> Last(stack) in reg
    ensures
      Read(d, key, target, digest).verdict ==
        if stack != [] && reg[Last(stack)].digest == digest
        then FoundVerified(Observed(PointerOf(reg[Last(stack)]), Plain(reg[Last(stack)].payload)))
        else FoundFailed
  {
    if stack != [] { assert Layer(d, reg, stack, |stack| - 1); }
  }

  // ---- whole runs against an abstract undo stack ----

  datatype Act = Execute(operation: string, writes: nat) | Rollback(operation: string)

  /** The applied operations, and the operations that left a receipt, oldest first. */
  datatype Undo = Undo(stack: seq<string>, log: seq<string>)

  /** What an undo stack does, and whether it succeeds. */
  function Do(u: Undo, a: Act): (Undo, bool) {
    var isTop := u.stack != [] && Last(u.stack) == a.operation;
    match a
    case Execute(op, n) =>
      if op in u.log then (u, isTop)
      else (Undo(if n >= 3 then u.stack + [op] else u.stack, if n >= 2 then u.log + [op] else u.log), n >= 3)
    case Rollback(op) =>
      if isTop then (u.(stack := Front(u.stack)), true) else (u, false)
  }

  function Act1(name: string, d: Dir, reg: Registry, a: Act): (Dir, bool)
    requires a.operation in reg
  {
    match a
    case Execute(op, n) => var (e, r) := Executed(name, d, reg[op], n); (e, r.Ok?)
    case Rollback(op) => var (e, r) := RolledBack(d, op); (e, r.Ok?)
  }

  type Receipts = map<string, Receipt>

  /** Each receipt's previous effect has an older receipt, so following receipts back always ends. */
  ghost predicate Older(receipts: Receipts, log: seq<string>, i: int)
    requires 0 <= i < |log|
  {
    log[i] in receipts
    && (receipts[log[i]].previous.Some? ==> receipts[log[i]].previous.value.operation in log[..i])
  }

  ghost predicate Logged(receipts: Receipts, log: seq<string>) {
    && (forall op :: op in log <==> op in receipts)
    && (forall i {:trigger Older(receipts, log, i)} | 0 <= i < |log| :: Older(receipts, log, i))
  }

  ghost predicate Refines(d: Dir, reg: Registry, u: Undo) {
    Holds(d, reg, u.stack) && Logged(d.receipts, u.log)
  }

  lemma LogGrows(receipts: Receipts, log: seq<string>, op: string, r: Receipt)
    requires Logged(receipts, log) && op !in log
    requires r.previous.Some? ==> r.previous.value.operation in log
    ensures Logged(receipts[op := r], log + [op])
  {
    var grown, more := log + [op], receipts[op := r];
    forall i | 0 <= i < |grown| ensures Older(more, grown, i) {
      if i < |log| {
        assert Older(receipts, log, i) && grown[..i] == log[..i];
      } else {
        assert grown[..i] == log;
      }
    }
  }

  lemma ActKeepsLog(name: string, d: Dir, reg: Registry, target: string, u: Undo, a: Act)
    requires OneDigest(name, reg, target) && Refines(d, reg, u) && a.operation in reg
    ensures Logged(Act1(name, d, reg, a).0.receipts, Do(u, a).0.log)
  {
    if a.Execute? && a.operation !in d.receipts && a.writes >= 2 {
      if u.stack != [] { assert Layer(d, reg, u.stack, |u.stack| - 1); }
      LogGrows(d.receipts, u.log, a.operation, ReceiptOf(reg[a.operation], d.current));
    }
  }

  /** One step of the file store is one step of the undo stack, with the same success. */
  lemma ActRefines(name: string, d: Dir, reg: Registry, target: string, u: Undo, a: Act)
    requires OneDigest(name, reg, target) && Refines(d, reg, u) && a.operation in reg
    ensures Refines(Act1(name, d, reg, a).0, reg, Do(u, a).0)
    ensures Act1(name, d, reg, a).1 == Do(u, a).1
  {
    ActKeepsLog(name, d, reg, target, u, a);
    match a
    case Rollback(op) => RollbackPopsTopOnly(name, d, reg, target, u.stack, op);
    case Execute(op, n) =>
      if op in d.receipts {
        ReplayIsTopOnly(name, d, reg, target, u.stack, op, n);
      } else if n >= 3 {
        ExecutePushes(name, d, reg, target, u.stack, op, n);
      } else {
        CrashKeepsStack(name, d, reg, target, u.stack, op, n);
      }
  }

  function DirAfter(name: string, d: Dir, reg: Registry, acts: seq<Act>): Dir
    requires forall i | 0 <= i < |acts| :: acts[i].operation in reg
  {
    if acts == [] then d else Act1(name, DirAfter(name, d, reg, Front(acts)), reg, Last(acts)).0
  }

  function UndoAfter(u: Undo, acts: seq<Act>): Undo {
    if acts == [] then u else Do(UndoAfter(u, Front(acts)), Last(acts)).0
  }

  /** Over every run of complete and crashed executions and rollbacks, the file store refines the undo stack. */
  lemma {:induction false} RefinesUndoStack(
    name: string, d: Dir, reg: Registry, target: string, u: Undo, acts: seq<Act>)
    requires OneDigest(name, reg, target) && Refines(d, reg, u)
    requires forall i | 0 <= i < |acts| :: acts[i].operation in reg
    ensures Refines(DirAfter(name, d, reg, acts), reg, UndoAfter(u, acts))
  {
    if acts != [] {
      RefinesUndoStack(name, d, reg, target, u, Front(acts));
      ActRefines(name, DirAfter(name, d, reg, Front(acts)), reg, target, UndoAfter(u, Front(acts)), Last(acts));
    }
  }

  lemma NewDirRefines(reg: Registry)
    ensures Refines(NEW_DIR, reg, Undo([], []))
  {
  }

  // ---- pushes and rollbacks cancel ----

  function Pushes(ops: seq<string>): seq<Act> {
    if ops == [] then [] else Pushes(Front(ops)) + [Execute(Last(ops), 3)]
  }

  function Pops(ops: seq<string>): seq<Act> {
    if ops == [] then [] else [Rollback(Last(ops))] + Pops(Front(ops))
  }

  lemma {:induction false} UndoAppend(u: Undo, a: seq<Act>, b: seq<Act>)
    ensures UndoAfter(u, a + b) == UndoAfter(UndoAfter(u, a), b)
  {
    if b == [] {
      assert a + b == a;
    } else {
      assert Front(a + b) == a + Front(b);
      UndoAppend(u, a, Front(b));
    }
  }

  ghost predicate Fresh(u: Undo, ops: seq<string>) {
    && (forall i | 0 <= i < |ops| :: ops[i] !in u.log)
    && (forall i, j | 0 <= i < j < |ops| :: ops[i] != ops[j])
  }

  lemma {:induction false} PushesPush(u: Undo, ops: seq<string>)
    requires Fresh(u, ops)
    ensures UndoAfter(u, Pushes(ops)) == Undo(u.stack + ops, u.log + ops)
  {
    if ops == [] {
      assert u.stack + ops == u.stack && u.log + ops == u.log;
    } else {
      PushesPush(u, Front(ops));
      assert Front(Pushes(ops)) == Pushes(Front(ops));
      assert Last(ops) !in Front(ops);
      assert u.stack + Front(ops) + [Last(ops)] == u.stack + ops;
      assert u.log + Front(ops) + [Last(ops)] == u.log + ops;
    }
  }

  lemma {:induction false} PopsPop(u: Undo, stack: seq<string>, ops: seq<string>)
    requires u.stack == stack + ops
    ensures UndoAfter(u, Pops(ops)) == Undo(stack, u.log)
    decreases |ops|
  {
    if ops == [] {
      assert stack + ops == stack;
    } else {
      var v := Do(u, Rollback(Last(ops))).0;
      assert v.stack == stack + Front(ops);
      PopsPop(v, stack, Front(ops));
      UndoAppend(u, [Rollback(Last(ops))], Pops(Front(ops)));
      assert UndoAfter(u, [Rollback(Last(ops))]) == v by { assert Front([Rollback(Last(ops))]) == []; }
    }
  }

  lemma {:induction false} ActsNamed(ops: seq<string>, reg: Registry)
    requires forall i | 0 <= i < |ops| :: ops[i] in reg
    ensures forall i | 0 <= i < |Pushes(ops)| :: Pushes(ops)[i].operation in reg
    ensures forall i | 0 <= i < |Pops(ops)| :: Pops(ops)[i].operation in reg
  {
    if ops != [] { ActsNamed(Front(ops), reg); }
  }

  /**
   n executions followed by their n rollbacks in reverse restore what the target shows, from any state,
   including a target with nothing applied: the same pointer or none, and the same answer to every readback.
   */
  lemma RollbacksRestore(name: string, d: Dir, reg: Registry, target: string, u: Undo, ops: seq<string>)
    requires OneDigest(name, reg, target) && Refines(d, reg, u) && Fresh(u, ops)
    requires forall i | 0 <= i < |ops| :: ops[i] in reg
    ensures forall i | 0 <= i < |Pushes(ops) + Pops(ops)| :: (Pushes(ops) + Pops(ops))[i].operation in reg
    ensures
      var e := DirAfter(name, d, reg, Pushes(ops) + Pops(ops));
      && e.current == d.current
      && forall key, digest :: Read(e, key, target, digest).verdict == Read(d, key, target, digest).verdict
  {
    ActsNamed(ops, reg);
    var acts := Pushes(ops) + Pops(ops);
    assert forall i | 0 <= i < |acts| :: acts[i].operation in reg;
    RefinesUndoStack(name, d, reg, target, u, acts);
    UndoAppend(u, Pushes(ops), Pops(ops));
    PushesPush(u, ops);
    PopsPop(UndoAfter(u, Pushes(ops)), u.stack, ops);
    var e := DirAfter(name, d, reg, acts);
    forall key, digest ensures Read(e, key, target, digest).verdict == Read(d, key, target, digest).verdict {
      ReadbackShowsTop(name, d, reg, target, u.stack, key, digest);
      ReadbackShowsTop(name, e, reg, target, u.stack, key, digest);
    }
  }

  // ---- receipts form a well-founded chain ----

  /** The pointer n receipts back from an operation's own receipt. */
  function Back(d: Dir, op: string, n: nat): Option<Pointer>
    requires op in d.receipts
  {
    if n == 0 then d.receipts[op].previous
    else
      var p := Back(d, op, n - 1);
      if p.None? || p.value.operation !in d.receipts then None else d.receipts[p.value.operation].previous
  }

  lemma {:induction false} BackIsOlder(d: Dir, log: seq<string>, i: nat, n: nat)
    requires Logged(d.receipts, log) && i < |log| && Older(d.receipts, log, i)
    ensures Back(d, log[i], n).Some? ==> n < i && Back(d, log[i], n).value.operation in log[..i - n]
  {
    if n > 0 {
      BackIsOlder(d, log, i, n - 1);
      var p := Back(d, log[i], n - 1);
      if p.Some? {
        var k :| 0 <= k < i - (n - 1) && log[k] == p.value.operation;
        assert Older(d.receipts, log, k);
      }
    }
  }

  /**
   From any receipt of a reachable directory, crashed and rolled back ones included, the chain reaches "nothing
   applied".
   */
  lemma ReceiptsEnd(d: Dir, reg: Registry, u: Undo, op: string)
    requires Refines(d, reg, u) && op in d.receipts
    ensures Back(d, op, |u.log|).None?
  {
    var i :| 0 <= i < |u.log| && u.log[i] == op;
    assert Older(d.receipts, u.log, i);
    BackIsOlder(d, u.log, i, |u.log|);
  }

  // ---- the store as mutable state ----

  type Dirs = map<string, Dir>

  /** A target without files reads as a new directory. */
  function DirAt(dirs: Dirs, key: string): Dir {
    if key in dirs then dirs[key] else NEW_DIR
  }

  /** The directories after one of them became d; nothing is recorded for a directory that did not change. */
  function Placed(dirs: Dirs, key: string, d: Dir): (r: Dirs)
    ensures DirAt(r, key) == d && forall other | other != key :: DirAt(r, other) == DirAt(dirs, other)
  {
    if d == DirAt(dirs, key) then dirs else dirs[key := d]
  }

  lemma PlacedWritten(dirs: Dirs, key: string, r: Request, n: nat)
    ensures n >= 1 ==>
      Placed(dirs, key, Written(DirAt(dirs, key), r, n)) == dirs[key := Written(DirAt(dirs, key), r, n)]
    ensures n == 0 ==> Placed(dirs, key, Written(DirAt(dirs, key), r, n)) == dirs
  {
    var d := Written(DirAt(dirs, key), r, n);
    if n >= 1 && d == DirAt(dirs, key) {
      assert r.digest in d.versions;
      assert key in dirs && dirs[key := d] == dirs;
    }
  }

  class ReferenceFileInjector {
    const name: string
    const version: string
    var dirs: Dirs

    constructor (name: string, version: string)
      ensures this.name == name && this.version == version && dirs == map[]
    {
      this.name, this.version, dirs := name, version, map[];
    }

    /** Atomic replacements, one file each. */
    method PutVersion(key: string, v: Version)
      modifies this`dirs
      ensures
        var d := old(DirAt(dirs, key));
        dirs == old(dirs)[key := d.(versions := d.versions[v.digest := v])]
    {
      var d := DirAt(dirs, key);
      dirs := dirs[key := d.(versions := d.versions[v.digest := v])];
    }

    method PutReceipt(key: string, r: Receipt)
      modifies this`dirs
      ensures
        var d := old(DirAt(dirs, key));
        dirs == old(dirs)[key := d.(receipts := d.receipts[r.operation := r])]
    {
      var d := DirAt(dirs, key);
      dirs := dirs[key := d.(receipts := d.receipts[r.operation := r])];
    }

    method PutCurrent(key: string, p: Option<Pointer>)
      modifies this`dirs
      ensures dirs == old(dirs)[key := old(DirAt(dirs, key)).(current := p)]
    {
      dirs := dirs[key := DirAt(dirs, key).(current := p)];
    }

    /** `writes` is how many atomic writes happen before the process dies; three or more is never. */
    method Execute(r: Request, writes: nat) returns (reply: Result<Receipt, Fault>)
      modifies this`dirs
      ensures
        match TargetKey(name, r.target)
        case None => reply == Error(BadTarget) && dirs == old(dirs)
        case Some(key) =>
          var (d, answer) := Executed(name, DirAt(old(dirs), key), r, writes);
          reply == answer && dirs == Placed(old(dirs), key, d)
    {
      var targetKey := TargetKey(name, r.target);
      if targetKey.None? {
        return Error(BadTarget);
      }
      var key := targetKey.value;
      var malformed := Malformed(name, r);
      if malformed.Some? {
        return Error(malformed.value);
      }
      var d := DirAt(dirs, key);
      if r.operation in d.receipts {
        var receipt := d.receipts[r.operation];
        if receipt.digest != r.digest || receipt.target != r.target {
          return Error(Reused);
        }
        if d.current.None? || d.current.value.digest != r.digest {
          return Error(NotCurrent);
        }
        return Ok(receipt);
      }
      var previous := d.current;
      if !Dumpable(Plain(r.payload)) {
        return Error(NotJson);
      }
      PlacedWritten(dirs, key, r, writes);
      if writes == 0 {
        return Error(Died);
      }
      PutVersion(key, VersionOf(r));
      if writes == 1 {
        return Error(Died);
      }
      PutReceipt(key, ReceiptOf(r, previous));
      if writes == 2 {
        return Error(Died);
      }
      PutCurrent(key, Some(PointerOf(r)));
      return Ok(ReceiptOf(r, previous));
    }

    method ReadbackTarget(target: string, digest: Digest) returns (r: Result<Readback, Fault>)
      ensures r == match TargetKey(name, target)
                   case None => Error(BadTarget)
                   case Some(key) => Ok(Read(DirAt(dirs, key), key, target, digest))
    {
      var key := TargetKey(name, target);
      if key.None? {
        return Error(BadTarget);
      }
      return Ok(Read(DirAt(dirs, key.value), key.value, target, digest));
    }

    method RollbackOperation(target: string, operation: string) returns (r: Result<Option<Pointer>, Fault>)
      modifies this`dirs
      ensures
        match TargetKey(name, target)
        case None => r == Error(BadTarget) && dirs == old(dirs)
        case Some(key) =>
          var (d, answer) := RolledBack(DirAt(old(dirs), key), operation);
          r == answer && dirs == Placed(old(dirs), key, d)
    {
      var key := TargetKey(name, target);
      if key.None? {
        return Error(BadTarget);
      }
      if !Safe(operation) {
        return Error(BadOperation);
      }
      var d := DirAt(dirs, key.value);
      if operation !in d.receipts {
        return Error(UnknownReceipt);
      }
      var receipt := d.receipts[operation];
      if d.current.None? || d.current.value.digest != receipt.digest {
        return Error(NewerOrMissingCurrent);
      }
      PutCurrent(key.value, receipt.previous);
      return Ok(receipt.previous);
    }
  }
}
