/** The session preflight (session_preflight.py): a read-only gate in front of a new session. */
module Preflight {
  import opened Prelude
  import opened Strings
  import opened Json
  import opened Operations
  import opened Bindings
  import opened Execution
  import opened ExecutionInvariants
  import opened ExecutionSteps
  import opened ExecutionTheorems
  import L = LifecycleTables
  import LT = LifecycleTheorems
  import opened ExecutionDisturbances
  import opened ExecutionCrashes
  import opened ExecutionRecovery
  import FS = FileStore
  import SD = SharedDigests

  /** The durable state, and the payload column of correction_revisions. */
  datatype Store = Store(world: World, payloads: map<L.RevisionKey, Value>)

  datatype SessionPreflight = SessionPreflight(
    session: string, binding: string, promotion: string, correction: string, revision: int,
    effect: Digest, evidence: string, message: string, messageDigest: Digest)

  datatype Refusal =
    | BadSession | BadContext | BadRow | Conflicting | NoBinding | WrongAdapter | NotCurrent
    | NoCorrection | PayloadDigestMismatch | NoInstruction
    | NoOperation | WrongTarget | WrongInjector | Unverified
    | EffectMismatch | ContextMismatch | EffectDigestMismatch
    | ReadbackFailed | FileMismatch | NotOneVerification | VerificationMismatch | OutcomeMismatch
    | RevokedMeanwhile

  predicate SessionChar(c: char) { FS.SafeChar(c) || c == ':' }

  predicate SessionId(s: string) {
    1 <= |s| <= 128 && forall i | 0 <= i < |s| :: SessionChar(s[i])
  }

  predicate HostContext(context: Context) {
    context != map[] && forall k | k in context :: k != "" && context[k] != ""
  }

  // ---- the bindings the store offers (postgres_execution.py:245-284) ----

  function SelectorOf(j: L.Jsonb): Context {
    if j.Object? then map k | k in j.fields && j.fields[k].Some? :: j.fields[k].value else map[]
  }

  predicate Offered(t: L.Tables, now: L.Time, context: Context, id: string) {
    && L.Effective(t, now, id)
    && t.bindings[id].adapterVersion.Some?
    && t.bindings[id].selector.Object?
    && forall k | k in t.bindings[id].selector.fields ::
         k in context && t.bindings[id].selector.fields[k] == Some(context[k])
  }

  function RowBinding(t: L.Tables, id: string): InjectionBinding
    requires id in t.bindings && t.bindings[id].promotion in t.promotions
  {
    var row := t.bindings[id];
    var grant := t.promotions[row.promotion].grant;
    InjectionBinding(
      id, grant.subject.correction, grant.subject.revision, SelectorOf(row.selector), SelectorOf(grant.scope),
      row.priority, true, Some(row.promotion), Some(row.adapter), row.adapterVersion)
  }

  /** bs are the offered rows, each once, in some order. */
  ghost predicate Answers(t: L.Tables, now: L.Time, context: Context, bs: seq<InjectionBinding>) {
    && (forall b | b in bs :: Offered(t, now, context, b.id) && b == RowBinding(t, b.id))
    && (forall id {:trigger Offered(t, now, context, id)}
         | Offered(t, now, context, id) :: multiset(bs)[RowBinding(t, id)] == 1)
  }

  /** On the view's rows the resolver never needs its revision tie-break: it decides exactly when one row is on top. */
  lemma OfferedNeverTie(run: seq<L.Step>, now: L.Time, context: Context, bs: seq<InjectionBinding>)
    requires Answers(L.After(L.EMPTY, run), now, context, bs)
    ensures Resolve(bs, context).Ok? <==> |Tied(bs, context)| <= 1
  {
    forall a, b | a in bs && b in bs && a.correctionId == b.correctionId
      ensures a.correctionRevision == b.correctionRevision {
      LT.OnePromotionPerCorrection(run, now, a.id, b.id);
    }
    TieBreakUnused(bs, context);
  }

  /** A row is offered exactly when it is effective, versioned, and the context has every pair of its selector. */
  lemma OfferedExactly(t: L.Tables, now: L.Time, context: Context, id: string)
    ensures Offered(t, now, context, id) <==>
      L.Effective(t, now, id) && t.bindings[id].adapterVersion.Some? && LT.Holds(context, t.bindings[id].selector)
  {
    if L.Effective(t, now, id) && LT.Holds(context, t.bindings[id].selector) {
      var selector := t.bindings[id].selector;
      forall k | k in selector.fields ensures k in context && selector.fields[k] == Some(context[k]) {
        assert (k, selector.fields[k]) in selector.fields.Items;
      }
    }
  }

  /** Then its binding fits the context, and has the pairs of its row's selector and no other. */
  lemma OfferedFits(t: L.Tables, now: L.Time, context: Context, id: string)
    requires Offered(t, now, context, id)
    ensures Fits(RowBinding(t, id), context)
    ensures forall k, v :: (k, v) in RowBinding(t, id).selector.Items <==>
      (k, Some(v)) in t.bindings[id].selector.fields.Items
  {
    var fields, s := t.bindings[id].selector.fields, RowBinding(t, id).selector;
    forall p | p in s.Items ensures p in context.Items {
      assert p.0 in fields && fields[p.0] == Some(context[p.0]);
    }
  }

  // ---- loading ----

  /** The selected binding, checked against the adapter and the tables. */
  function Selected(st: Store, a: Adapter, bs: seq<InjectionBinding>, context: Context, session: string)
    : (r: Result<InjectionBinding, Refusal>)
    ensures r.Ok? ==> r.value.Executable()
  {
    if !SessionId(session) then Error(BadSession)
    else if !HostContext(context) then Error(BadContext)
    else if !Constructed(bs) then Error(BadRow)
    else
      match Resolve(bs, context)
      case Error(_) => Error(Conflicting)
      case Ok(None) => Error(NoBinding)
      case Ok(Some(b)) =>
        if !b.Executable() then Error(NoBinding)
        else if b.adapter != Some(a.name) || b.adapterVersion != Some(a.version) then Error(WrongAdapter)
        else if !IsCurrent(st.world.tables, st.world.now, b) then Error(NotCurrent)
        else Ok(b)
  }

  /** `correction_for_active_binding`, and the checks on the correction it returns. */
  function Instruction(st: Store, b: InjectionBinding): Result<(Value, string), Refusal> {
    var key := L.RevisionKey(b.correctionId, b.correctionRevision);
    var t := st.world.tables;
    if key !in t.revisions || key !in st.payloads || b.promotionId.None? || b.promotionId.value !in t.promotions
       || t.revisions[key].digest != t.promotions[b.promotionId.value].grant.digest then Error(NoCorrection)
    else
      var payload := st.payloads[key];
      if !Dumpable(Plain(payload)) || DigestOf(Plain(payload)) != t.revisions[key].digest
        then Error(PayloadDigestMismatch)
      else
        match TextField(payload, "session_instruction")
        case None => Error(NoInstruction)
        case Some(text) => if White(text) || |text| > 10000 then Error(NoInstruction) else Ok((payload, text))
  }

  /**
   The instruction is that of the stored payload of exactly the binding's revision, whose digest is the one the
   revision has and its promotion was granted for; it is a text that says something, of at most 10000 characters.
   */
  lemma InstructionExactly(st: Store, b: InjectionBinding, payload: Value, text: string)
    ensures Instruction(st, b) == Ok((payload, text)) <==>
      var t, key := st.world.tables, L.RevisionKey(b.correctionId, b.correctionRevision);
      && (key, payload) in st.payloads.Items && Dumpable(Plain(payload))
      && key in t.revisions && t.revisions[key].digest == DigestOf(Plain(payload))
      && b.promotionId.Some? && b.promotionId.value in t.promotions
      && t.promotions[b.promotionId.value].grant.digest == DigestOf(Plain(payload))
      && Field(payload, "session_instruction") == Some(Str(text))
      && Visible(text) && |text| <= 10000
  {
    assert White(text) <==> !Visible(text);
  }

  /** The recorded effect is the approved correction, for this binding. */
  predicate RecordsEffect(p: Value, b: InjectionBinding, correction: Value)
    requires b.Executable()
  {
    && Field(p, "binding_id") == Some(Str(b.id))
    && Field(p, "promotion_id") == Some(Str(b.promotionId.value))
    && Field(p, "correction_id") == Some(Str(b.correctionId))
    && Field(p, "correction_revision") == Some(Int(b.correctionRevision))
    && Field(p, "selector") == Some(SelectorValue(b.selector))
    && Field(p, "selector_digest") == Some(Str(SelectorDigest(b.selector)))
    && Field(p, "activation_scope") == Some(SelectorValue(b.activationScope))
    && Field(p, "adapter") == Some(Str(b.adapter.value))
    && Field(p, "adapter_version") == Some(Str(b.adapterVersion.value))
    && Field(p, "effect_payload") == Some(Plain(correction))
  }

  /** The checks on the journal's operation. */
  function OperationRefusal(
    st: Store, a: Adapter, b: InjectionBinding, correction: Value, context: Context, target: string, id: string)
    : Option<Refusal>
    requires b.Executable()
  {
    if id !in st.world.journal.records then Some(NoOperation)
    else
      var i := st.world.journal.records[id].intent;
      var p := Plain(i.payload);
      if i.target != target then Some(WrongTarget)
      else if i.kind != Kind(a) then Some(WrongInjector)
      else if CurrentStateOf(st.world, id) != Verified then Some(Unverified)
      else if !RecordsEffect(p, b, correction) then Some(EffectMismatch)
      else if Field(p, "context") != Some(SelectorValue(context)) then Some(ContextMismatch)
      else if !Dumpable(p) || EffectDigest(i.target, i.kind, p) != i.digest then Some(EffectDigestMismatch)
      else None
  }

  /** What the file must show. */
  predicate Shows(observed: Value, i: Intent, correction: Value) {
    var o := Plain(observed);
    && Field(o, "target") == Some(Str(i.target))
    && Field(o, "operation_id") == Some(Str(i.id))
    && Field(o, "effect_digest") == Some(Str(i.digest))
    && Field(o, "payload") == Some(Plain(correction))
  }

  predicate OutcomeMatches(o: Outcome, b: InjectionBinding, i: Intent, evidence: Option<string>) {
    && o.binding == b.id && Some(o.promotion) == b.promotionId && o.correction == b.correctionId
    && o.revision == b.correctionRevision && o.scope == SelectorDigest(b.selector)
    && o.effect == i.digest && Some(o.evidence) == evidence
  }

  /** The checks on file, verification event and outcome. */
  function FileRefusal(
    st: Store, a: Adapter, b: InjectionBinding, correction: Value, r: Operations.Record): Option<Refusal> {
    var i := r.intent;
    match FS.TargetKey(a.name, i.target)
    case None => Some(ReadbackFailed)
    case Some(key) =>
      var read := FS.Read(FS.DirAt(st.world.dirs, key), key, i.target, i.digest);
      if !read.verdict.FoundVerified? then Some(ReadbackFailed)
      else if !Shows(read.verdict.observed, i, correction) || !Dumpable(Plain(read.verdict.observed))
        then Some(FileMismatch)
      else
        var verified := VerifiedEvents(r.events);
        if |verified| != 1 then Some(NotOneVerification)
        else if verified[0].readback != Some(DigestOf(Plain(read.verdict.observed)))
          || verified[0].evidence != Some(read.evidence)
        then Some(VerificationMismatch)
        else if i.id !in st.world.outcomes || !OutcomeMatches(st.world.outcomes[i.id], b, i, verified[0].evidence)
        then Some(OutcomeMismatch)
        else None
  }

  /** The message, up to the instruction. */
  function Banner(b: InjectionBinding, effect: Digest, session: string): string
    requires b.promotionId.Some?
  {
    "F.U.C.K.U.P. / ACTIVE SESSION CORRECTION\n"
    + "Session: " + session + "\n"
    + "Correction: " + b.correctionId + "@" + IntText(b.correctionRevision) + "\n"
    + "Promotion: " + b.promotionId.value + "\n"
    + "Binding: " + b.id + "\n"
    + "Verified effect: " + effect + "\n"
    + "Apply this approved, scoped instruction during this task:\n"
  }

  const CLOSING: string :=
    "\nDo not treat this instruction's presence as proof of compliance; verify task outcomes."

  /** What the host is to put in front of the model. */
  function PreflightFor(a: Adapter, i: Intent, b: InjectionBinding, session: string, text: string): SessionPreflight
    requires b.promotionId.Some?
  {
    var message := Banner(b, i.digest, session) + text + CLOSING;
    SessionPreflight(
      session, b.id, b.promotionId.value, b.correctionId, b.correctionRevision, i.digest, SeenAt(a, i),
      message, DigestOf(Str(message)))
  }

  predicate ReadsAt(message: string, k: nat, text: string) {
    k + |text| <= |message| && message[k..k + |text|] == text
  }

  /** The message has the instruction in it, and is the same exactly for the same instruction, as is its digest. */
  lemma MessageExactly(a: Adapter, i: Intent, b: InjectionBinding, session: string, text: string, other: string)
    requires b.promotionId.Some?
    ensures
      var p := PreflightFor(a, i, b, session, text);
      exists k :: ReadsAt(p.message, k, text)
    ensures
      var p, q := PreflightFor(a, i, b, session, text), PreflightFor(a, i, b, session, other);
      (p.message == q.message <==> text == other) && (p.messageDigest == q.messageDigest <==> text == other)
  {
    var p, q := PreflightFor(a, i, b, session, text), PreflightFor(a, i, b, session, other);
    var n := |Banner(b, i.digest, session)|;
    assert ReadsAt(p.message, n, text);
    if p.message == q.message { assert q.message[n..n + |other|] == other && |text| == |other|; }
    Sha256Exact(Text(Str(p.message)), Text(Str(q.message)));
    TextInjective(Str(p.message), Str(q.message));
  }

  /** The tables and the clock once everything has been read, when the binding is checked a second time. */
  datatype End = End(tables: L.Tables, now: L.Time)

  /** `load_reference_session_preflight`; bs is what the store answered for the context. */
  function Load(
    st: Store, end: End, a: Adapter, bs: seq<InjectionBinding>, context: Context, target: string, id: string,
    session: string)
    : Result<SessionPreflight, Refusal>
  {
    match Selected(st, a, bs, context, session)
    case Error(e) => Error(e)
    case Ok(b) =>
      match Instruction(st, b)
      case Error(e) => Error(e)
      case Ok((correction, text)) =>
        match OperationRefusal(st, a, b, correction, context, target, id)
        case Some(e) => Error(e)
        case None =>
          var r := st.world.journal.records[id];
          match FileRefusal(st, a, b, correction, r)
          case Some(e) => Error(e)
          case None =>
            if !IsCurrent(end.tables, end.now, b) then Error(RevokedMeanwhile)
            else Ok(PreflightFor(a, r.intent, b, session, text))
  }

  // ---- what a load means ----

  /**
   The operation is VERIFIED by its own event, with its outcome, and the current pointer is on it, over its own
   version file.
   */
  ghost predicate InPlace(w: World, a: Adapter, id: string) {
    && id in w.journal.records && id in w.outcomes
    && var r := w.journal.records[id];
       && PointerNames(w, a, r.intent) && !SD.Garbled(TargetDir(w, a, r.intent))
       && Dumpable(Seen(r.intent)) && r.events != [] && Last(r.events) == OwnEvent(a, r.intent)
  }

  /** The operation carries exactly this binding, context and correction. */
  ghost predicate Carrying(i: Intent, b: InjectionBinding, context: Context, correction: Value)
    requires b.Executable()
  {
    Plain(i.payload) == OperationPayload(b, context, correction)
  }

  lemma SelectorValueInjective(s: Context, t: Context)
    requires SelectorValue(s) == SelectorValue(t)
    ensures s == t
  {
    var f, g := SelectorValue(s).fields, SelectorValue(t).fields;
    assert s.Keys == f.Keys == g.Keys == t.Keys;
    forall k | k in s ensures s[k] == t[k] { assert f[k] == g[k]; }
  }

  /** Field by field, a coordinator's payload that matches is the coordinator's payload for this binding. */
  lemma MatchingPayload(
    b0: InjectionBinding, context0: Context, effect0: Value, b: InjectionBinding, context: Context, correction: Value)
    requires b0.Executable() && b.Executable()
    ensures
      var p := OperationPayload(b0, context0, effect0);
      RecordsEffect(p, b, correction) && Field(p, "context") == Some(SelectorValue(context)) <==>
      p == OperationPayload(b, context, correction)
  {
    PayloadTexts(b0, context0, effect0);
    PayloadValues(b0, context0, effect0);
    PayloadTexts(b, context, correction);
    PayloadValues(b, context, correction);
    var p := OperationPayload(b0, context0, effect0);
    if RecordsEffect(p, b, correction) && Field(p, "context") == Some(SelectorValue(context)) {
      SelectorValueInjective(b0.selector, b.selector);
      SelectorValueInjective(b0.activationScope, b.activationScope);
      SelectorValueInjective(context0, context);
      SamePayload(b0, context0, effect0, b, correction);
    }
  }

  lemma SamePayload(b0: InjectionBinding, context: Context, effect0: Value, b: InjectionBinding, correction: Value)
    requires b0.Executable() && b.Executable()
    requires b0.id == b.id && b0.promotionId == b.promotionId && b0.correctionId == b.correctionId
    requires b0.correctionRevision == b.correctionRevision && b0.selector == b.selector
    requires b0.activationScope == b.activationScope && b0.adapter == b.adapter && b0.adapterVersion == b.adapterVersion
    requires Plain(effect0) == Plain(correction)
    ensures OperationPayload(b0, context, effect0) == OperationPayload(b, context, correction)
  {
  }

  /** The journal's part of the gate: a VERIFIED operation on the target carrying exactly this effect. */
  lemma OperationGate(
    st: Store, a: Adapter, b: InjectionBinding, correction: Value, context: Context, target: string, id: string)
    requires Kept(st.world.journal) && AllGoverned(a, st.world.tables, st.world.journal) && b.Executable()
    ensures
      OperationRefusal(st, a, b, correction, context, target, id).None? <==>
        && id in st.world.journal.records && st.world.journal.records[id].intent.target == target
        && CurrentStateOf(st.world, id) == Verified
        && Carrying(st.world.journal.records[id].intent, b, context, correction)
  {
    if id in st.world.journal.records {
      var i := st.world.journal.records[id].intent;
      assert GoodRecord(st.world.journal, id);
      PlainIdempotent(i.payload);
      assert Governed(a, st.world.tables, i);
      var b0 := BindingFromOperation(i.payload).value;
      MatchingPayload(b0, SelectorField(i.payload, "context").value, Field(Plain(i.payload), "effect_payload").value, b,
        context, correction);
    }
  }

  lemma SameBinding(
    b0: InjectionBinding, context0: Context, effect0: Value, b: InjectionBinding, context: Context, effect: Value)
    requires b0.Executable() && b.Executable()
    requires OperationPayload(b0, context0, effect0) == OperationPayload(b, context, effect)
    ensures b0.id == b.id && b0.promotionId == b.promotionId && b0.correctionId == b.correctionId
    ensures b0.correctionRevision == b.correctionRevision && b0.selector == b.selector
  {
    PayloadTexts(b0, context0, effect0);
    PayloadValues(b0, context0, effect0);
    PayloadTexts(b, context, effect);
    PayloadValues(b, context, effect);
    SelectorValueInjective(b0.selector, b.selector);
  }

  lemma EffectShown(i: Intent, observed: Value, b: InjectionBinding, context: Context, correction: Value)
    requires b.Executable() && Carrying(i, b, context, correction) && Plain(observed) == Seen(i)
    ensures Shows(observed, i, correction)
  {
    PayloadValues(b, context, correction);
    PlainIdempotent(correction);
    ObservedFields(FS.PointerOf(RequestOf(i)), Plain(RequestOf(i).payload));
  }

  lemma OtherNotShown(i: Intent, k: Intent, observed: Value, correction: Value)
    requires Plain(observed) == Seen(k) && i.id != k.id
    ensures !Shows(observed, i, correction)
  {
    ObservedFields(FS.PointerOf(RequestOf(k)), Plain(RequestOf(k).payload));
  }

  lemma ObservedFields(p: FS.Pointer, payload: Value)
    ensures
      var o := Plain(FS.Observed(p, payload));
      && Field(o, "target") == Some(Str(p.target))
      && Field(o, "operation_id") == Some(Str(p.operation))
      && Field(o, "effect_digest") == Some(Str(p.digest))
      && Field(o, "payload") == Some(Plain(payload))
  {
  }

  lemma ExactMatches(w: World, a: Adapter, id: string, b: InjectionBinding, context: Context, correction: Value)
    requires Inv(w, a) && id in w.outcomes && id in w.journal.records
    requires b.Executable() && Carrying(w.journal.records[id].intent, b, context, correction)
    ensures OutcomeMatches(w.outcomes[id], b, w.journal.records[id].intent,
      Some(SeenAt(a, w.journal.records[id].intent)))
  {
    var i := w.journal.records[id].intent;
    assert ExactOutcome(a, w.journal.records[id], w.outcomes[id]);
    assert Governed(a, w.tables, i);
    var b0 := BindingFromOperation(i.payload).value;
    SameBinding(b0, SelectorField(i.payload, "context").value, Field(Plain(i.payload), "effect_payload").value, b,
      context, correction);
  }

  lemma FileDecides(st: Store, a: Adapter, b: InjectionBinding, correction: Value, r: Operations.Record, shown: Value)
    requires FS.TargetKey(a.name, r.intent.target).Some? && r.events != []
    requires VerifiedEvents(r.events) == [Last(r.events)]
    requires ReadbackOf(st.world, a, r.intent).verdict == FS.FoundVerified(shown) && Dumpable(Plain(shown))
    ensures
      var e, read := Last(r.events), ReadbackOf(st.world, a, r.intent);
      FileRefusal(st, a, b, correction, r).None? <==>
        && Shows(shown, r.intent, correction)
        && e.readback == Some(DigestOf(Plain(shown))) && e.evidence == Some(read.evidence)
        && r.intent.id in st.world.outcomes
        && OutcomeMatches(st.world.outcomes[r.intent.id], b, r.intent, e.evidence)
  {
  }

  lemma UnseenRefused(st: Store, a: Adapter, b: InjectionBinding, correction: Value, r: Operations.Record)
    requires FS.TargetKey(a.name, r.intent.target).Some? && !ReadbackOf(st.world, a, r.intent).verdict.FoundVerified?
    ensures FileRefusal(st, a, b, correction, r).Some?
  {
  }

  lemma NamedShows(w: World, a: Adapter, id: string)
    requires Inv(w, a) && id in w.journal.records && PointerNames(w, a, w.journal.records[id].intent)
    ensures SD.Showing(TargetDir(w, a, w.journal.records[id].intent), w.journal.records[id].intent.digest)
  {
    var i := w.journal.records[id].intent;
    var d, reg := TargetDir(w, a, i), RegistryOf(w.journal, a, i.target);
    OwnId(w.journal, id);
    assert FiledOf(w.journal, a, i.target, d);
    assert SD.GoodPointer(d, reg, d.current.value);
  }

  lemma OwnEventMeans(a: Adapter, i: Intent, e: Event)
    requires Dumpable(Seen(i)) && e.state == Verified && e.evidence == Some(SeenAt(a, i))
    ensures e == OwnEvent(a, i) <==> e.readback == Some(DigestOf(Seen(i)))
  {
  }

  lemma NamedGate(st: Store, a: Adapter, b: InjectionBinding, correction: Value, context: Context, id: string)
    requires Inv(st.world, a) && b.Executable()
    requires id in st.world.journal.records && CurrentStateOf(st.world, id) == Verified
    requires PointerNames(st.world, a, st.world.journal.records[id].intent)
    requires ReadbackOf(st.world, a, st.world.journal.records[id].intent).verdict.FoundVerified?
    requires Carrying(st.world.journal.records[id].intent, b, context, correction)
    ensures
      var r := st.world.journal.records[id];
      && Dumpable(Seen(r.intent)) && r.events != []
      && (FileRefusal(st, a, b, correction, r).None? <==>
           id in st.world.outcomes && Last(r.events) == OwnEvent(a, r.intent))
  {
    var w, r := st.world, st.world.journal.records[id];
    VerifiedMeans(w, a, id);
    ReadShows(w, a, r.intent);
    var shown := ReadbackOf(w, a, r.intent).verdict.observed;
    EffectShown(r.intent, shown, b, context, correction);
    FileDecides(st, a, b, correction, r, shown);
    OwnEventMeans(a, r.intent, Last(r.events));
    if id in w.outcomes { ExactMatches(w, a, id, b, context, correction); }
  }

  lemma OtherGate(st: Store, a: Adapter, b: InjectionBinding, correction: Value, id: string)
    requires Inv(st.world, a)
    requires id in st.world.journal.records && CurrentStateOf(st.world, id) == Verified
    requires !PointerNames(st.world, a, st.world.journal.records[id].intent)
    requires ReadbackOf(st.world, a, st.world.journal.records[id].intent).verdict.FoundVerified?
    ensures FileRefusal(st, a, b, correction, st.world.journal.records[id]).Some?
  {
    var w, r := st.world, st.world.journal.records[id];
    VerifiedMeans(w, a, id);
    ReadShows(w, a, r.intent);
    var z := TargetDir(w, a, r.intent).current.value.operation;
    OwnId(w.journal, z);
    var shown := ReadbackOf(w, a, r.intent).verdict.observed;
    OtherNotShown(r.intent, w.journal.records[z].intent, shown, correction);
    FileDecides(st, a, b, correction, r, shown);
  }

  /** The file's part of the gate, in every reachable world: the operation is still in place. */
  lemma FileGate(st: Store, a: Adapter, b: InjectionBinding, correction: Value, context: Context, id: string)
    requires Inv(st.world, a) && b.Executable()
    requires id in st.world.journal.records && CurrentStateOf(st.world, id) == Verified
    requires Carrying(st.world.journal.records[id].intent, b, context, correction)
    ensures FileRefusal(st, a, b, correction, st.world.journal.records[id]).None? <==> InPlace(st.world, a, id)
  {
    var w, r := st.world, st.world.journal.records[id];
    VerifiedMeans(w, a, id);
    ReadShows(w, a, r.intent);
    if !ReadbackOf(w, a, r.intent).verdict.FoundVerified? {
      UnseenRefused(st, a, b, correction, r);
      if PointerNames(w, a, r.intent) { NamedShows(w, a, id); }
    } else if PointerNames(w, a, r.intent) {
      NamedGate(st, a, b, correction, context, id);
    } else {
      OtherGate(st, a, b, correction, id);
    }
  }

  /**
   What the host must have, in its own terms: an approved correction that was executed, verified and is still in
   place.
   */
  ghost predicate Approved(
    st: Store, end: End, a: Adapter, bs: seq<InjectionBinding>, context: Context, target: string, id: string,
    session: string,
    b: InjectionBinding, correction: Value, text: string)
  {
    && SessionId(session) && HostContext(context) && Constructed(bs)
    && Resolve(bs, context) == Ok(Some(b))
    && b.Executable() && b.adapter == Some(a.name) && b.adapterVersion == Some(a.version)
    && IsCurrent(st.world.tables, st.world.now, b)
    && Instruction(st, b) == Ok((correction, text))
    && InPlace(st.world, a, id) && st.world.journal.records[id].intent.target == target
    && Carrying(st.world.journal.records[id].intent, b, context, correction)
    && IsCurrent(end.tables, end.now, b)
  }

  lemma SelectedExactly(
    st: Store, a: Adapter, bs: seq<InjectionBinding>, context: Context, session: string, b: InjectionBinding)
    ensures
      Selected(st, a, bs, context, session) == Ok(b) <==>
        && SessionId(session) && HostContext(context) && Constructed(bs)
        && Resolve(bs, context) == Ok(Some(b))
        && b.Executable() && b.adapter == Some(a.name) && b.adapterVersion == Some(a.version)
        && IsCurrent(st.world.tables, st.world.now, b)
  {
    var choice := Resolve(bs, context);
    match choice
    case Error(_) =>
    case Ok(None) =>
    case Ok(Some(c)) => assert choice == Ok(Some(b)) <==> c == b;
  }

  /**
   The preflight loads exactly when everything the host relies on is in place, and its message is then the
   approved one.
   */
  lemma LoadsExactly(
    st: Store, end: End, a: Adapter, bs: seq<InjectionBinding>, context: Context, target: string, id: string,
    session: string,
    p: SessionPreflight)
    requires Inv(st.world, a)
    ensures
      Load(st, end, a, bs, context, target, id, session) == Ok(p) <==>
        exists b, correction, text ::
          && Approved(st, end, a, bs, context, target, id, session, b, correction, text)
          && p == PreflightFor(a, st.world.journal.records[id].intent, b, session, text)
  {
    var selected := Selected(st, a, bs, context, session);
    if selected.Ok? && Instruction(st, selected.value).Ok? {
      var b := selected.value;
      var (correction, text) := Instruction(st, b).value;
      GateExactly(st, end, a, bs, context, target, id, session, b, correction, text, p);
    }
    forall b, correction, text | Approved(st, end, a, bs, context, target, id, session, b, correction, text)
      ensures Load(st, end, a, bs, context, target, id, session) ==
              Ok(PreflightFor(a, st.world.journal.records[id].intent, b, session, text))
    {
      SelectedExactly(st, a, bs, context, session, b);
      GateExactly(
        st, end, a, bs, context, target, id, session, b, correction, text,
        PreflightFor(a, st.world.journal.records[id].intent, b, session, text));
    }
  }

  lemma LoadDecides(
    st: Store, end: End, a: Adapter, bs: seq<InjectionBinding>, context: Context, target: string, id: string,
    session: string,
    b: InjectionBinding, correction: Value, text: string)
    requires Selected(st, a, bs, context, session) == Ok(b) && Instruction(st, b) == Ok((correction, text))
    ensures
      b.Executable() && Load(st, end, a, bs, context, target, id, session) ==
        match OperationRefusal(st, a, b, correction, context, target, id)
        case Some(e) => Error(e)
        case None =>
          match FileRefusal(st, a, b, correction, st.world.journal.records[id])
          case Some(e) => Error(e)
          case None =>
            if !IsCurrent(end.tables, end.now, b) then Error(RevokedMeanwhile)
            else Ok(PreflightFor(a, st.world.journal.records[id].intent, b, session, text))
  {
  }

  lemma GateExactly(
    st: Store, end: End, a: Adapter, bs: seq<InjectionBinding>, context: Context, target: string, id: string,
    session: string,
    b: InjectionBinding, correction: Value, text: string, p: SessionPreflight)
    requires Inv(st.world, a)
    requires Selected(st, a, bs, context, session) == Ok(b) && Instruction(st, b) == Ok((correction, text))
    ensures
      Load(st, end, a, bs, context, target, id, session) == Ok(p) <==>
        && Approved(st, end, a, bs, context, target, id, session, b, correction, text)
        && p == PreflightFor(a, st.world.journal.records[id].intent, b, session, text)
  {
    SelectedExactly(st, a, bs, context, session, b);
    LoadDecides(st, end, a, bs, context, target, id, session, b, correction, text);
    OperationGate(st, a, b, correction, context, target, id);
    if OperationRefusal(st, a, b, correction, context, target, id).None? {
      FileGate(st, a, b, correction, context, id);
    }
  }

  lemma PreparedCarrying(w: World, a: Adapter, job: Job, newId: string, b: InjectionBinding)
    requires Kept(w.journal) && b.Executable() && PreparedIn(w.journal, a, b, job, newId).1.Ok?
    ensures Carrying(PreparedIn(w.journal, a, b, job, newId).1.value.intent, b, job.context, job.effect)
  {
    PreparedPayload(w.journal, a, b, job, newId);
    PlainFreeze(OperationPayload(b, job.context, job.effect));
    PlainPayload(b, job.context, job.effect);
  }

  lemma ExecutedInPlace(w: World, a: Adapter, job: Job, newId: string, b: InjectionBinding)
    requires Inv(w, a) && Constructed(job.bindings) && Choose(w, a, job) == Ok(b) && FirstRun(w, a, b, job, newId)
    ensures
      var i := PreparedIn(w.journal, a, b, job, newId).1.value.intent;
      var v := Execute(w, a, job, newId, Smooth).0;
      && InPlace(v, a, i.id) && v.journal.records[i.id].intent == i
      && v.tables == w.tables && v.now == w.now && Inv(v, a)
  {
    var (j, prepared) := PreparedIn(w.journal, a, b, job, newId);
    var i, w1 := prepared.value.intent, w.(journal := j);
    FirstRunDelivered(w, a, job, newId, b);
    var r := Execute(w, a, job, newId, Smooth);
    DeliveredMeans(w, r.0, a, i, b, r.1);
    ExecuteLaunches(w, a, job, newId, Smooth, b);
    LaunchLocal(w1, a, b, i, Smooth);
    ExecuteKeepsInv(w, a, job, newId, Smooth);
  }

  /**
   Completeness over the protocol: once the approved correction was executed undisturbed, and while its binding
   stays current, the preflight loads for every valid session and context, with the approved instruction in its message.
   */
  lemma LoadsAfterExecution(
    w: World, payloads: map<L.RevisionKey, Value>, end: End, a: Adapter, job: Job, newId: string, session: string,
    b: InjectionBinding, text: string)
    requires Inv(w, a) && Constructed(job.bindings) && Choose(w, a, job) == Ok(b) && FirstRun(w, a, b, job, newId)
    requires Instruction(Store(w, payloads), b) == Ok((job.effect, text))
    requires SessionId(session) && HostContext(job.context) && IsCurrent(end.tables, end.now, b)
    ensures
      var i := PreparedIn(w.journal, a, b, job, newId).1.value.intent;
      var v := Execute(w, a, job, newId, Smooth).0;
      Load(Store(v, payloads), end, a, job.bindings, job.context, job.target, i.id, session) ==
        Ok(PreflightFor(a, i, b, session, text))
  {
    var i := PreparedIn(w.journal, a, b, job, newId).1.value.intent;
    var st := Store(Execute(w, a, job, newId, Smooth).0, payloads);
    ExecutedInPlace(w, a, job, newId, b);
    PreparedCarrying(w, a, job, newId, b);
    PreparedPayload(w.journal, a, b, job, newId);
    ChoiceMeans(w, a, job, b);
    ChoiceResolves(w, a, job, b);
    SameInstruction(w, st.world, payloads, b);
    SelectedExactly(st, a, job.bindings, job.context, session, b);
    GateExactly(
      st, end, a, job.bindings, job.context, job.target, i.id, session, b, job.effect, text,
      PreflightFor(a, i, b, session, text));
  }

  lemma ChoiceResolves(w: World, a: Adapter, job: Job, b: InjectionBinding)
    requires Choose(w, a, job) == Ok(b)
    ensures Resolve(job.bindings, job.context) == Ok(Some(b))
  {
  }

  lemma SameInstruction(w: World, v: World, payloads: map<L.RevisionKey, Value>, b: InjectionBinding)
    requires v.tables == w.tables
    ensures Instruction(Store(v, payloads), b) == Instruction(Store(w, payloads), b)
  {
  }

  // ---- right before dispatch ----

  /** `verify_dispatch_currentness`. */
  predicate DispatchRefused(
    t: L.Tables, now: L.Time, bs: seq<InjectionBinding>, context: Context, p: SessionPreflight) {
    match Resolve(bs, context)
    case Ok(Some(b)) =>
      || !b.Executable() || !IsCurrent(t, now, b)
      || b.id != p.binding || b.promotionId.value != p.promotion
      || b.correctionId != p.correction || b.correctionRevision != p.revision
    case _ => true
  }

  /** The preflight names this binding, its promotion and its revision. */
  predicate Names(p: SessionPreflight, b: InjectionBinding) {
    && p.binding == b.id && Some(p.promotion) == b.promotionId
    && p.correction == b.correctionId && p.revision == b.correctionRevision
  }

  /** The binding wins the context, can be executed and is current. */
  ghost predicate Rules(
    t: L.Tables, now: L.Time, bs: seq<InjectionBinding>, context: Context, b: InjectionBinding) {
    && Winner(multiset(bs), context, b) && b.adapter.Some? && b.adapterVersion.Some? && IsCurrent(t, now, b)
  }

  /**
   The dispatch goes on exactly when some binding the store now answers wins the context, can be executed, is
   current, and is the one the preflight names.
   */
  lemma DispatchesExactly(
    t: L.Tables, now: L.Time, bs: seq<InjectionBinding>, context: Context, p: SessionPreflight)
    ensures !DispatchRefused(t, now, bs, context, p) <==>
      exists b :: Rules(t, now, bs, context, b) && Names(p, b)
  {
    if !DispatchRefused(t, now, bs, context, p) {
      var b := Resolve(bs, context).value.value;
      ResolvesTheWinner(bs, context, b);
      assert Names(p, b);
    }
    if b :| Rules(t, now, bs, context, b) && Names(p, b) {
      ResolvesTheWinner(bs, context, b);
    }
  }

  /** A binding that outranks the preflight's refuses it, though the preflight's own binding is still current. */
  lemma ReplacedIsRefused(
    t: L.Tables, now: L.Time, bs: seq<InjectionBinding>, context: Context, p: SessionPreflight, b: InjectionBinding)
    requires Winner(multiset(bs), context, b) && !Names(p, b)
    ensures DispatchRefused(t, now, bs, context, p)
  {
    ResolvesTheWinner(bs, context, b);
  }

  /** Nothing changed since the second check: the last one passes, whatever order the store answers in. */
  lemma DispatchesWhileUnchanged(
    st: Store, end: End, a: Adapter, bs: seq<InjectionBinding>, cs: seq<InjectionBinding>, context: Context,
    target: string, id: string, session: string)
    requires Load(st, end, a, bs, context, target, id, session).Ok? && multiset(cs) == multiset(bs)
    ensures !DispatchRefused(end.tables, end.now, cs, context, Load(st, end, a, bs, context, target, id, session).value)
  {
    PreflightNames(st, end, a, bs, context, target, id, session);
    var b := Selected(st, a, bs, context, session).value;
    SelectedExactly(st, a, bs, context, session, b);
    OrderIndependent(bs, cs, context);
  }

  lemma PreflightNames(
    st: Store, end: End, a: Adapter, bs: seq<InjectionBinding>, context: Context, target: string, id: string,
    session: string)
    requires Load(st, end, a, bs, context, target, id, session).Ok?
    ensures
      var p := Load(st, end, a, bs, context, target, id, session).value;
      && Selected(st, a, bs, context, session).Ok?
      && var b := Selected(st, a, bs, context, session).value;
         p.binding == b.id && p.promotion == b.promotionId.value && p.correction == b.correctionId
         && p.revision == b.correctionRevision && IsCurrent(end.tables, end.now, b)
  {
  }

  /** Once its binding has left the effective view, a preflight is refused for ever, whatever the tables do next. */
  lemma RevokedForGood(
    run: seq<L.Step>, i: nat, j: nat, now: L.Time, later: L.Time, bs: seq<InjectionBinding>, context: Context,
    p: SessionPreflight)
    requires i <= j <= |run| && now <= later
    requires LT.Withdrawn(L.After(L.EMPTY, run[..i]), now, p.binding)
    ensures DispatchRefused(L.After(L.EMPTY, run[..j]), later, bs, context, p)
  {
    LT.NoResurrection(run, i, j, now, later, p.binding);
  }
}
