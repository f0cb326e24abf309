/** What every step of the governed effect protocol keeps. */
module ExecutionInvariants {
  import opened Prelude
  import opened Json
  import opened Operations
  import opened Bindings
  import opened Execution
  import L = LifecycleTables
  import FS = FileStore
  import SD = SharedDigests

  // ---- rebuilding the binding ----

  lemma SelectorRoundTrip(s: Context)
    ensures Freeze(SelectorValue(s)) == Proxy(map k | k in s :: Str(s[k]))
    ensures Plain(SelectorValue(s)) == SelectorValue(s) && Dumpable(SelectorValue(s))
  {
    assert forall k | k in s :: Freeze(Str(s[k])) == Str(s[k]);
  }

  lemma FrozenField(v: Value, name: string)
    requires v.Dict? && Field(v, name).Some?
    ensures Field(Freeze(v), name) == Some(Freeze(Field(v, name).value))
    ensures Field(v, name).value.Str? ==> TextField(Freeze(v), name) == Some(Field(v, name).value.s)
  {
  }

  lemma FrozenSelector(v: Value, name: string, s: Context)
    requires v.Dict? && Field(v, name) == Some(SelectorValue(s))
    ensures SelectorField(Freeze(v), name) == Some(s)
  {
    FrozenField(v, name);
    SelectorRoundTrip(s);
    var f: Value := Proxy(map k | k in s :: Str(s[k]));
    assert (map k | k in f.fields :: f.fields[k].s) == s;
  }

  lemma PayloadTexts(b: InjectionBinding, context: Context, effect: Value)
    requires b.Executable()
    ensures
      var v := OperationPayload(b, context, effect);
      && Field(v, "binding_id") == Some(Str(b.id))
      && Field(v, "promotion_id") == Some(Str(b.promotionId.value))
      && Field(v, "correction_id") == Some(Str(b.correctionId))
      && Field(v, "selector_digest") == Some(Str(SelectorDigest(b.selector)))
      && Field(v, "adapter") == Some(Str(b.adapter.value))
      && Field(v, "adapter_version") == Some(Str(b.adapterVersion.value))
  {
  }

  lemma PayloadValues(b: InjectionBinding, context: Context, effect: Value)
    requires b.Executable()
    ensures
      var v := OperationPayload(b, context, effect);
      && Field(v, "correction_revision") == Some(Int(b.correctionRevision))
      && Field(v, "selector") == Some(SelectorValue(b.selector))
      && Field(v, "activation_scope") == Some(SelectorValue(b.activationScope))
      && Field(v, "context") == Some(SelectorValue(context))
      && Field(v, "effect_payload") == Some(Plain(effect))
  {
  }

  /** The fields of a stored operation, as the binding is rebuilt from them and the outcome is checked against them. */
  ghost predicate Carries(p: Value, b: InjectionBinding)
    requires b.Executable()
  {
    && TextField(p, "binding_id") == Some(b.id)
    && TextField(p, "promotion_id") == b.promotionId
    && TextField(p, "correction_id") == Some(b.correctionId)
    && TextField(p, "selector_digest") == Some(SelectorDigest(b.selector))
    && TextField(p, "adapter") == b.adapter
    && TextField(p, "adapter_version") == b.adapterVersion
    && Field(p, "correction_revision") == Some(Int(b.correctionRevision))
    && SelectorField(p, "selector") == Some(b.selector)
    && SelectorField(p, "activation_scope") == Some(b.activationScope)
  }

  lemma FrozenTexts(v: Value, b: InjectionBinding, context: Context, effect: Value)
    requires b.Executable() && v == OperationPayload(b, context, effect)
    ensures
      var p := Freeze(v);
      && TextField(p, "binding_id") == Some(b.id)
      && TextField(p, "promotion_id") == b.promotionId
      && TextField(p, "correction_id") == Some(b.correctionId)
      && TextField(p, "selector_digest") == Some(SelectorDigest(b.selector))
      && TextField(p, "adapter") == b.adapter
      && TextField(p, "adapter_version") == b.adapterVersion
  {
    PayloadTexts(b, context, effect);
    FrozenField(v, "binding_id");
    FrozenField(v, "promotion_id");
    FrozenField(v, "correction_id");
    FrozenField(v, "selector_digest");
    FrozenField(v, "adapter");
    FrozenField(v, "adapter_version");
  }

  lemma PayloadCarries(b: InjectionBinding, context: Context, effect: Value)
    requires b.Executable()
    ensures Carries(Freeze(OperationPayload(b, context, effect)), b)
  {
    var v := OperationPayload(b, context, effect);
    FrozenTexts(v, b, context, effect);
    PayloadValues(b, context, effect);
    FrozenField(v, "correction_revision");
    FrozenSelector(v, "selector", b.selector);
    FrozenSelector(v, "activation_scope", b.activationScope);
  }

  lemma CarriedBinding(p: Value, b: InjectionBinding)
    requires b.Executable() && Carries(p, b) && Constructible(b)
    ensures BindingFromOperation(p) == Some(b.(priority := 0, active := true))
  {
  }

  /** The binding rebuilt from a stored operation is the one it was made for, but for priority and activity. */
  lemma RebuiltBinding(b: InjectionBinding, context: Context, effect: Value)
    requires Constructible(b) && b.Executable()
    ensures BindingFromOperation(Freeze(OperationPayload(b, context, effect))) ==
      Some(b.(priority := 0, active := true))
  {
    PayloadCarries(b, context, effect);
    CarriedBinding(Freeze(OperationPayload(b, context, effect)), b);
  }

  ghost predicate AllPlain(fields: Fields) {
    forall k {:trigger fields[k]} | k in fields :: Plain(fields[k]) == fields[k]
  }

  lemma PlainAdds(fields: Fields, k: string, v: Value)
    requires AllPlain(fields) && Plain(v) == v
    ensures AllPlain(fields[k := v])
  {
  }

  lemma AllPlainIsPlain(fields: Fields)
    requires AllPlain(fields)
    ensures Plain(Dict(fields)) == Dict(fields)
  {
    assert (map k | k in fields :: Plain(fields[k])) == fields;
  }

  lemma PlainPayload(b: InjectionBinding, context: Context, effect: Value)
    requires b.Executable()
    ensures Plain(OperationPayload(b, context, effect)) == OperationPayload(b, context, effect)
  {
    SelectorRoundTrip(b.selector);
    SelectorRoundTrip(b.activationScope);
    SelectorRoundTrip(context);
    PlainIdempotent(effect);
    var f0: Fields := map["binding_id" := Str(b.id)];
    PlainAdds(f0, "promotion_id", Str(b.promotionId.value));
    var f1 := f0["promotion_id" := Str(b.promotionId.value)];
    PlainAdds(f1, "correction_id", Str(b.correctionId));
    var f2 := f1["correction_id" := Str(b.correctionId)];
    PlainAdds(f2, "correction_revision", Int(b.correctionRevision));
    var f3 := f2["correction_revision" := Int(b.correctionRevision)];
    PlainAdds(f3, "selector", SelectorValue(b.selector));
    var f4 := f3["selector" := SelectorValue(b.selector)];
    PlainAdds(f4, "selector_digest", Str(SelectorDigest(b.selector)));
    var f5 := f4["selector_digest" := Str(SelectorDigest(b.selector))];
    PlainAdds(f5, "activation_scope", SelectorValue(b.activationScope));
    var f6 := f5["activation_scope" := SelectorValue(b.activationScope)];
    PlainAdds(f6, "adapter", Str(b.adapter.value));
    var f7 := f6["adapter" := Str(b.adapter.value)];
    PlainAdds(f7, "adapter_version", Str(b.adapterVersion.value));
    var f8 := f7["adapter_version" := Str(b.adapterVersion.value)];
    PlainAdds(f8, "authority_ref", Null);
    var f9 := f8["authority_ref" := Null];
    PlainAdds(f9, "context", SelectorValue(context));
    var f10 := f9["context" := SelectorValue(context)];
    PlainAdds(f10, "effect_payload", Plain(effect));
    AllPlainIsPlain(f10["effect_payload" := Plain(effect)]);
  }

  // ---- the invariant ----

  /** The payload is one the coordinator builds: for this binding, in some context, with some effect. */
  ghost predicate Shaped(p: Value, b: InjectionBinding)
    requires b.Executable()
  {
    && SelectorField(p, "context").Some? && Field(Plain(p), "effect_payload").Some?
    && Plain(p) == OperationPayload(b, SelectorField(p, "context").value, Field(Plain(p), "effect_payload").value)
  }

  /** The operation was made for a binding with this adapter, and that binding's row still says so. */
  ghost predicate Governed(a: Adapter, t: L.Tables, i: Intent) {
    && BindingFromOperation(i.payload).Some?
    && var b := BindingFromOperation(i.payload).value;
       && b.Executable() && Carries(i.payload, b)
       && b.adapter == Some(a.name) && b.adapterVersion == Some(a.version) && i.kind == Kind(a)
       && Shaped(i.payload, b)
       && Lineage(t, i, OutcomeFor(i, b, ""))
  }

  ghost predicate AllGoverned(a: Adapter, t: L.Tables, j: Journal) {
    forall id {:trigger j.records[id]} | id in j.records :: Governed(a, t, j.records[id].intent)
  }

  /** The requests one target can receive. */
  function RegistryOf(j: Journal, a: Adapter, target: string): FS.Registry {
    map id | id in j.records && j.records[id].intent.target == target
             && FS.Malformed(a.name, RequestOf(j.records[id].intent)).None?
      :: RequestOf(j.records[id].intent)
  }

  /** Every file is one that some operation on the target wrote; only attempted operations left receipts. */
  ghost predicate FiledOf(j: Journal, a: Adapter, target: string, d: FS.Dir) {
    && SD.Filed(d, RegistryOf(j, a, target))
    && (forall op {:trigger d.receipts[op]} | op in d.receipts :: op in j.records && j.records[op].events != [])
  }

  ghost predicate AllFiled(j: Journal, a: Adapter, dirs: FS.Dirs) {
    forall target {:trigger FS.TargetKey(a.name, target)} | FS.TargetKey(a.name, target).Some? ::
      FiledOf(j, a, target, FS.DirAt(dirs, FS.TargetKey(a.name, target).value))
  }

  /** What a readback of the operation's own effect shows. */
  function Seen(i: Intent): Value {
    Plain(FS.Observed(FS.PointerOf(RequestOf(i)), Plain(RequestOf(i).payload)))
  }

  function SeenAt(a: Adapter, i: Intent): string {
    var key := FS.TargetKey(a.name, i.target);
    "reference-file:" + (if key.Some? then key.value else "") + ":" + i.digest
  }

  /** The readback digest is that of an attempted operation's own effect, on this target and with this digest. */
  ghost predicate ShownBy(j: Journal, i: Intent, x: string, readback: string) {
    && x in j.records && j.records[x].events != []
    && j.records[x].intent.target == i.target && j.records[x].intent.digest == i.digest
    && Dumpable(Seen(j.records[x].intent)) && readback == DigestOf(Seen(j.records[x].intent))
  }

  /** Where the effect was seen, and what was seen there. */
  ghost predicate Witnessed(a: Adapter, j: Journal, i: Intent, e: Event) {
    && FS.TargetKey(a.name, i.target).Some?
    && e.evidence == Some(SeenAt(a, i)) && e.readback.Some? && exists x :: ShownBy(j, i, x, e.readback.value)
  }

  /** A history the guarded functions write; a VERIFIED operation ends with its witness. */
  ghost predicate WellRecorded(a: Adapter, j: Journal, r: Record) {
    && Word(Postgres, States(r.events))
    && (CurrentState(r.events) == Verified ==> r.events != [] && Witnessed(a, j, r.intent, Last(r.events)))
  }

  ghost predicate AllWell(a: Adapter, j: Journal) {
    forall id {:trigger j.records[id]} | id in j.records :: WellRecorded(a, j, j.records[id])
  }

  /** The outcome is the one an undisturbed run records for the operation. */
  ghost predicate ExactOutcome(a: Adapter, r: Record, o: Outcome) {
    && CurrentState(r.events) == Verified
    && BindingFromOperation(r.intent.payload).Some? && BindingFromOperation(r.intent.payload).value.Executable()
    && o == OutcomeFor(r.intent, BindingFromOperation(r.intent.payload).value, SeenAt(a, r.intent))
  }

  ghost predicate AllOutcomesExact(a: Adapter, j: Journal, outcomes: map<string, Outcome>) {
    forall id {:trigger outcomes[id]}
      | id in outcomes :: id in j.records && ExactOutcome(a, j.records[id], outcomes[id])
  }

  /** What holds in every reachable world, whatever effects operations share. */
  ghost predicate Inv(w: World, a: Adapter) {
    && Kept(w.journal)
    && AllGoverned(a, w.tables, w.journal)
    && AllFiled(w.journal, a, w.dirs)
    && AllWell(a, w.journal)
    && AllOutcomesExact(a, w.journal, w.outcomes)
  }

  /** On one target, one effect digest belongs to one operation. */
  ghost predicate DistinctEffects(j: Journal) {
    forall x, y {:trigger j.records[x], j.records[y]} | x in j.records && y in j.records
      && j.records[x].intent.target == j.records[y].intent.target
      && j.records[x].intent.digest == j.records[y].intent.digest ::
      x == y
  }

  /** No other operation on its target has its digest. */
  ghost predicate Unshared(j: Journal, id: string)
    requires id in j.records
  {
    forall x {:trigger j.records[x]}
      | x in j.records && x != id && j.records[x].intent.target == j.records[id].intent.target ::
      j.records[x].intent.digest != j.records[id].intent.digest
  }

  // ---- journal growth ----

  /** The same operations; histories only extended, and final ones untouched. */
  ghost predicate Extends(j: Journal, k: Journal) {
    && j.records.Keys == k.records.Keys
    && forall id {:trigger j.records[id]} {:trigger k.records[id]} | id in j.records ::
         && k.records[id].intent == j.records[id].intent
         && (j.records[id].events != [] ==> k.records[id].events != [])
         && (CurrentState(j.records[id].events) == Verified ==> k.records[id] == j.records[id])
  }

  lemma AppendExtends(j: Journal, id: string, call: Call)
    ensures Extends(j, Append(Postgres, j, id, call).0)
  {
  }

  lemma ExtendsRegistry(j: Journal, k: Journal, a: Adapter, target: string)
    requires Extends(j, k)
    ensures RegistryOf(k, a, target) == RegistryOf(j, a, target)
  {
  }

  lemma ExtendsFiled(j: Journal, k: Journal, a: Adapter, dirs: FS.Dirs)
    requires Extends(j, k) && AllFiled(j, a, dirs)
    ensures AllFiled(k, a, dirs)
  {
    forall target | FS.TargetKey(a.name, target).Some?
      ensures FiledOf(k, a, target, FS.DirAt(dirs, FS.TargetKey(a.name, target).value))
    {
      assert FiledOf(j, a, target, FS.DirAt(dirs, FS.TargetKey(a.name, target).value));
      ExtendsRegistry(j, k, a, target);
    }
  }

  lemma ExtendsOutcomes(a: Adapter, j: Journal, k: Journal, outcomes: map<string, Outcome>)
    requires Extends(j, k) && AllOutcomesExact(a, j, outcomes)
    ensures AllOutcomesExact(a, k, outcomes)
  {
  }

  lemma ShownByStays(j: Journal, k: Journal, i: Intent, x: string, readback: string)
    requires Extends(j, k) && ShownBy(j, i, x, readback)
    ensures ShownBy(k, i, x, readback)
  {
  }

  lemma WitnessStays(a: Adapter, j: Journal, k: Journal, i: Intent, e: Event)
    requires Extends(j, k) && Witnessed(a, j, i, e)
    ensures Witnessed(a, k, i, e)
  {
    var x :| ShownBy(j, i, x, e.readback.value);
    ShownByStays(j, k, i, x, e.readback.value);
  }

  /** A call that verifies says where the effect was seen, and what some attempted operation's effect looks like. */
  ghost predicate Honest(a: Adapter, j: Journal, i: Intent, call: Call) {
    call.Reconcile? && call.verified ==> Witnessed(a, j, i, Recorded(call))
  }

  lemma AppendWellRecorded(a: Adapter, j: Journal, id: string, call: Call)
    requires AllWell(a, j) && id in j.records && Honest(a, j, j.records[id].intent, call)
    requires SqlRefusal(j.records[id].events, call).None?
    ensures
      var k := Append(Postgres, j, id, call).0;
      id in k.records && WellRecorded(a, k, k.records[id])
  {
    var r, k := j.records[id], Append(Postgres, j, id, call).0;
    assert WellRecorded(a, j, r);
    WordGrows(Postgres, r.events, call);
    AppendExtends(j, id, call);
    assert Last(k.records[id].events) == Recorded(call);
    if call.Reconcile? && call.verified { WitnessStays(a, j, k, r.intent, Recorded(call)); }
  }

  lemma AppendWell(a: Adapter, j: Journal, id: string, call: Call)
    requires AllWell(a, j) && id in j.records && Honest(a, j, j.records[id].intent, call)
    ensures AllWell(a, Append(Postgres, j, id, call).0)
  {
    var k := Append(Postgres, j, id, call).0;
    AppendExtends(j, id, call);
    forall x | x in k.records ensures WellRecorded(a, k, k.records[x]) {
      if x == id && SqlRefusal(j.records[id].events, call).None? {
        AppendWellRecorded(a, j, id, call);
      } else {
        WellStays(a, j, k, x);
      }
    }
  }

  lemma WellStays(a: Adapter, j: Journal, k: Journal, x: string)
    requires AllWell(a, j) && Extends(j, k) && x in j.records && x in k.records && k.records[x] == j.records[x]
    ensures WellRecorded(a, k, k.records[x])
  {
    var r := j.records[x];
    assert WellRecorded(a, j, r);
    if CurrentState(r.events) == Verified { WitnessStays(a, j, k, r.intent, Last(r.events)); }
  }

  lemma AppendKeepsInv(w: World, a: Adapter, id: string, call: Call)
    requires Inv(w, a) && id in w.journal.records && Honest(a, w.journal, w.journal.records[id].intent, call)
    ensures Inv(Append1(w, id, call).0, a)
    ensures Extends(w.journal, Append1(w, id, call).0.journal)
  {
    var k := Append(Postgres, w.journal, id, call).0;
    AppendKeeps(Postgres, w.journal, id, call);
    AppendExtends(w.journal, id, call);
    ExtendsFiled(w.journal, k, a, w.dirs);
    AppendWell(a, w.journal, id, call);
    ExtendsOutcomes(a, w.journal, k, w.outcomes);
  }
}
