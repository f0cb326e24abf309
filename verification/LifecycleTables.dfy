/**
 The correction, promotion and binding tables of migrations 0001, 0003 and 0005,
 each guarded function together with its triggers as one atomic step on the tables.
 A step that raises leaves the tables as they were (the transaction is rolled back).
 */
module LifecycleTables {
  import opened Prelude

  type Id = string
  type Time = int

  datatype Status =
    | Proposed | Qualifying | Qualified | Promoted
    | Active | Superseded | Revoked | Rejected

  predicate Terminal(s: Status) {
    s.Superseded? || s.Revoked? || s.Rejected?
  }

  /** A jsonb value as the selector guards see it: a flat object whose non-string values are None, or not an object. */
  datatype Jsonb = Object(fields: map<string, Option<string>>) | NotObject

  datatype Correction = Correction(incident: Id, currentRevision: nat, status: Status)

  datatype RevisionKey = RevisionKey(correction: Id, revision: int)

  datatype Revision = Revision(
    digest: string, reversible: bool, supersedes: Option<RevisionKey>, rootCause: Option<Id>)

  datatype Qualification = Qualification(subject: RevisionKey, digest: string, pass: bool)

  datatype Policy = Policy(name: string, version: string, allow: bool)

  /** The part of a promotion that must equal its authorization artifact, field by field. */
  datatype Grant = Grant(
    subject: RevisionKey, digest: string, qualification: Id, policy: Policy,
    scope: Jsonb, rollback: map<string, string>, approvedBy: string)

  datatype Authorization = Authorization(grant: Grant, irreversibleAcknowledged: bool)

  datatype Promotion = Promotion(
    grant: Grant, authorization: Id, activatedAt: Time, revokedAt: Option<Time>)

  datatype Binding = Binding(
    promotion: Id, adapter: string, adapterVersion: Option<string>, selector: Jsonb,
    selectorDigest: string, priority: int, expiresAt: Option<Time>, active: bool)

  /** The unique text key of an outbox row. */
  datatype OutboxKey =
    | SupersededKey(target: RevisionKey)
    | PromotedKey(promotion: Id)
    | RevokedKey(promotion: Id)

  datatype OutboxRow = OutboxRow(key: OutboxKey, source: RevisionKey)

  datatype Tables = Tables(
    incidents: set<Id>,
    rootCauses: map<Id, Id>,
    corrections: map<Id, Correction>,
    revisions: map<RevisionKey, Revision>,
    qualifications: map<Id, Qualification>,
    authorizations: map<Id, Authorization>,
    promotions: map<Id, Promotion>,
    bindings: map<Id, Binding>,
    outbox: seq<OutboxRow>)

  const EMPTY := Tables({}, map[], map[], map[], map[], map[], map[], map[], [])

  datatype Fault =
    | UniqueViolation
    | ForeignKeyViolation
    | CheckViolation
    | UnknownCorrection
    | TerminalCorrection
    | NotNextRevision
    | ForeignRootCause
    | SelfSupersession
    | ForeignSupersession
    | StaleSupersession
    | SupersessionCycle
    | InvalidScope
    | InvalidRollback
    | PolicyDenied
    | CausalityDenied
    | StaleRevision
    | IrreversibleUnacknowledged
    | QualificationMissing
    | DigestMismatch
    | UnknownPromotion
    | PromotionInactive
    | SelectorOutsideScope
    | ExpiryNotFuture
    | UnknownBinding
    | NothingToRestrict
    | ExpiryExtended
    | RevocationTooEarly

  // ---- selectors (0003:3-29) ----

  predicate SelectorValid(j: Jsonb) {
    && j.Object?
    && j.fields != map[]
    && forall k | k in j.fields ::
         !Blank(k) && j.fields[k].Some? && !Blank(j.fields[k].value)
  }

  /** `p_selector @> p_scope` with both sides valid selectors. */
  predicate SelectorWithinScope(selector: Jsonb, scope: Jsonb) {
    && SelectorValid(selector)
    && SelectorValid(scope)
    && forall k | k in scope.fields :: k in selector.fields && selector.fields[k] == scope.fields[k]
  }

  // ---- outbox (0001:180-192): idempotency_key is UNIQUE ----

  predicate HasKey(outbox: seq<OutboxRow>, key: OutboxKey) {
    exists i | 0 <= i < |outbox| :: outbox[i].key == key
  }

  // ---- ordinary runtime inserts ----

  function InsertIncident(t: Tables, id: Id): Result<Tables, Fault> {
    if id in t.incidents then Error(UniqueViolation)
    else Ok(t.(incidents := t.incidents + {id}))
  }

  function InsertRootCause(t: Tables, id: Id, incident: Id): Result<Tables, Fault> {
    if id in t.rootCauses then Error(UniqueViolation)
    else if incident !in t.incidents then Error(ForeignKeyViolation)
    else Ok(t.(rootCauses := t.rootCauses[id := incident]))
  }

  function InsertCorrection(t: Tables, id: Id, incident: Id): Result<Tables, Fault> {
    if id in t.corrections then Error(UniqueViolation)
    else if incident !in t.incidents then Error(ForeignKeyViolation)
    else Ok(t.(corrections := t.corrections[id := Correction(incident, 0, Proposed)]))
  }

  function InsertQualification(t: Tables, id: Id, q: Qualification): Result<Tables, Fault> {
    if id in t.qualifications then Error(UniqueViolation)
    else if q.subject !in t.revisions || t.revisions[q.subject].digest != q.digest then Error(ForeignKeyViolation)
    else Ok(t.(qualifications := t.qualifications[id := q]))
  }

  // ---- correction revisions: the validate and apply triggers (0001:281-403) ----

  /** The validate trigger up to, and not including, the recursive cycle query. */
  function ValidateRevision(t: Tables, key: RevisionKey, row: Revision): Option<Fault> {
    if key.correction !in t.corrections then Some(UnknownCorrection)
    else
      var c := t.corrections[key.correction];
      if Terminal(c.status) then Some(TerminalCorrection)
      else if key.revision != c.currentRevision + 1 then Some(NotNextRevision)
      else if row.rootCause.Some?
              && (row.rootCause.value !in t.rootCauses || t.rootCauses[row.rootCause.value] != c.incident)
      then Some(ForeignRootCause)
      else if row.supersedes.None? then None
      else
        var target := row.supersedes.value;
        if target.correction == key.correction then Some(SelfSupersession)
        else if target.correction !in t.corrections || t.corrections[target.correction].incident != c.incident
        then Some(ForeignSupersession)
        else if target.revision != t.corrections[target.correction].currentRevision then Some(StaleSupersession)
        else None
  }

  function Deactivated(bindings: map<Id, Binding>, promotions: map<Id, Promotion>, hit: RevisionKey): map<Id, Binding> {
    map b | b in bindings ::
      if bindings[b].promotion in promotions && promotions[bindings[b].promotion].grant.subject == hit
      then bindings[b].(active := false)
      else bindings[b]
  }

  /** The row itself and the correction's own projection. */
  function AppendRevision(t: Tables, key: RevisionKey, row: Revision): Tables
    requires key.correction in t.corrections && key.revision >= 0
  {
    var c := t.corrections[key.correction];
    t.(revisions := t.revisions[key := row],
       corrections := t.corrections[key.correction := c.(currentRevision := key.revision, status := Proposed)])
  }

  /** The superseded correction's projection, its bindings, and the outbox row. */
  function ApplySupersession(t: Tables, target: RevisionKey, source: RevisionKey): Tables
    requires target.correction in t.corrections
  {
    var c := t.corrections[target.correction];
    t.(corrections := t.corrections[target.correction := c.(status := Superseded)],
       bindings := Deactivated(t.bindings, t.promotions, target),
       outbox := t.outbox + [OutboxRow(SupersededKey(target), source)])
  }

  /**
   What an insert into correction_revisions does when the cycle query is left out.
   LifecycleDb.Database.InsertCorrectionRevision runs the query and is proved to agree with this.
   */
  function InsertRevision(t: Tables, key: RevisionKey, row: Revision): Result<Tables, Fault> {
    var fault := ValidateRevision(t, key, row);
    if fault.Some? then Error(fault.value)
    else if key in t.revisions then Error(UniqueViolation)
    else
      var appended := AppendRevision(t, key, row);
      if row.supersedes.None? then Ok(appended)
      else
        var target := row.supersedes.value;
        if target !in appended.revisions then Error(ForeignKeyViolation)
        else if HasKey(t.outbox, SupersededKey(target)) then Error(UniqueViolation)
        else Ok(ApplySupersession(appended, target, key))
  }

  // ---- promotion (0003:91-308) ----

  datatype PromotionRequest = PromotionRequest(
    authorization: Id, promotion: Id, grant: Grant,
    rootCauseSupported: bool, ambiguous: bool, irreversibleAcknowledged: bool)

  /** The guards authorize_and_promote evaluates before it writes. */
  function ValidateGrant(t: Tables, r: PromotionRequest): Option<Fault> {
    var g := r.grant;
    var c := g.subject.correction;
    if !SelectorValid(g.scope) then Some(InvalidScope)
    else if g.rollback == map[] then Some(InvalidRollback)
    else if !g.policy.allow then Some(PolicyDenied)
    else if !r.rootCauseSupported || r.ambiguous then Some(CausalityDenied)
    else if c !in t.corrections || RevisionKey(c, t.corrections[c].currentRevision) !in t.revisions
      then Some(UnknownCorrection)
    else if g.subject.revision != t.corrections[c].currentRevision then Some(StaleRevision)
    else if Terminal(t.corrections[c].status) then Some(TerminalCorrection)
    else if !t.revisions[g.subject].reversible && !r.irreversibleAcknowledged then Some(IrreversibleUnacknowledged)
    else if g.qualification !in t.qualifications
            || t.qualifications[g.qualification] != Qualification(g.subject, g.digest, true)
    then Some(QualificationMissing)
    else if Blank(g.policy.name) || Blank(g.policy.version) || Blank(g.approvedBy) then Some(CheckViolation)
    else None
  }

  /** The promotion trigger's own guards, evaluated again on the row being inserted. */
  function ValidatePromotion(t: Tables, p: Promotion): Option<Fault> {
    var c := p.grant.subject.correction;
    if p.authorization !in t.authorizations || t.authorizations[p.authorization].grant != p.grant
      then Some(UnknownPromotion)
    else if c !in t.corrections || RevisionKey(c, t.corrections[c].currentRevision) !in t.revisions
      then Some(UnknownCorrection)
    else if p.grant.subject.revision != t.corrections[c].currentRevision then Some(StaleRevision)
    else if p.grant.digest != t.revisions[p.grant.subject].digest then Some(DigestMismatch)
    else if Terminal(t.corrections[c].status) then Some(TerminalCorrection)
    else None
  }

  predicate PromotionClashes(t: Tables, id: Id, p: Promotion) {
    || id in t.promotions
    || exists q | q in t.promotions ::
         t.promotions[q].grant.subject == p.grant.subject || t.promotions[q].authorization == p.authorization
  }

  /** The promotion row, its correction's projection and its outbox row. */
  function ApplyPromotion(t: Tables, id: Id, p: Promotion): Tables
    requires p.grant.subject.correction in t.corrections
  {
    var c := p.grant.subject.correction;
    t.(promotions := t.promotions[id := p],
       corrections := t.corrections[c := t.corrections[c].(status := Active)],
       outbox := t.outbox + [OutboxRow(PromotedKey(id), p.grant.subject)])
  }

  function AuthorizeAndPromote(t: Tables, now: Time, r: PromotionRequest): Result<Tables, Fault> {
    var fault := ValidateGrant(t, r);
    if fault.Some? then Error(fault.value)
    else if r.authorization in t.authorizations then Error(UniqueViolation)
    else
      var t1 :=
        t.(authorizations := t.authorizations[r.authorization := Authorization(r.grant, r.irreversibleAcknowledged)]);
      var p := Promotion(r.grant, r.authorization, now, None);
      var fault1 := ValidatePromotion(t1, p);
      if fault1.Some? then Error(fault1.value)
      else if PromotionClashes(t1, r.promotion, p) || HasKey(t.outbox, PromotedKey(r.promotion))
        then Error(UniqueViolation)
      else
        Ok(ApplyPromotion(t1, r.promotion, p))
  }

  // ---- revocation (0003:448-465 with the triggers of 0001:441-522) ----

  /**
   The revocation mark, the promotion's bindings, the correction if the promoted revision is current, and the
   outbox row.
   */
  function ApplyRevocation(t: Tables, id: Id, at: Time): Tables
    requires id in t.promotions
  {
    var p := t.promotions[id];
    var s := p.grant.subject;
    t.(promotions := t.promotions[id := p.(revokedAt := Some(at))],
       bindings := map b | b in t.bindings ::
         if t.bindings[b].promotion == id then t.bindings[b].(active := false) else t.bindings[b],
       corrections :=
         if s.correction in t.corrections && t.corrections[s.correction].currentRevision == s.revision
         then t.corrections[s.correction := t.corrections[s.correction].(status := Revoked)]
         else t.corrections,
       outbox := t.outbox + [OutboxRow(RevokedKey(id), s)])
  }

  function RevokePromotion(t: Tables, id: Id, at: Time): Result<Tables, Fault> {
    if id !in t.promotions || t.promotions[id].revokedAt.Some? then Error(UnknownPromotion)
    else
      var p := t.promotions[id];
      if at < p.activatedAt then Error(RevocationTooEarly)
      else if HasKey(t.outbox, RevokedKey(id)) then Error(UniqueViolation)
      else Ok(ApplyRevocation(t, id, at))
  }

  // ---- bindings (0003:310-446, 0005:7-44) ----

  function CreateBinding(t: Tables, now: Time, id: Id, b: Binding): Result<Tables, Fault>
    requires b.active
  {
    if b.adapterVersion.Some? && Blank(b.adapterVersion.value) then Error(CheckViolation)
    else if Blank(b.adapter) || Blank(b.selectorDigest) then Error(CheckViolation)
    else if b.promotion !in t.promotions || t.promotions[b.promotion].authorization !in t.authorizations
            || t.promotions[b.promotion].grant.subject.correction !in t.corrections
    then Error(UnknownPromotion)
    else
      var p := t.promotions[b.promotion];
      var c := t.corrections[p.grant.subject.correction];
      var scope := t.authorizations[p.authorization].grant.scope;
      if p.revokedAt.Some? || c.status != Active || p.grant.subject.revision != c.currentRevision
        then Error(PromotionInactive)
      else if !SelectorWithinScope(b.selector, scope) then Error(SelectorOutsideScope)
      else if b.expiresAt.Some? && b.expiresAt.value <= now then Error(ExpiryNotFuture)
      else if id in t.bindings
              || (exists o | o in t.bindings ::
                    && t.bindings[o].promotion == b.promotion
                    && t.bindings[o].adapter == b.adapter
                    && t.bindings[o].selectorDigest == b.selectorDigest)
      then Error(UniqueViolation)
      else Ok(t.(bindings := t.bindings[id := b]))
  }

  function RestrictBinding(t: Tables, id: Id, deactivate: bool, expiry: Option<Time>): Result<Tables, Fault> {
    if id !in t.bindings then Error(UnknownBinding)
    else
      var b := t.bindings[id];
      if !deactivate && expiry.None? then Error(NothingToRestrict)
      else if expiry.Some? && b.expiresAt.Some? && expiry.value > b.expiresAt.value then Error(ExpiryExtended)
      else
        Ok(t.(bindings := t.bindings[id := b.(
          active := if deactivate then false else b.active,
          expiresAt := if expiry.None? then b.expiresAt else expiry)]))
  }

  // ---- the effective-binding view (0005:46-70) ----

  predicate Effective(t: Tables, now: Time, id: Id) {
    && id in t.bindings
    && var b := t.bindings[id];
       && b.promotion in t.promotions
       && var p := t.promotions[b.promotion];
          && p.grant.subject.correction in t.corrections
          && var c := t.corrections[p.grant.subject.correction];
             && b.active
             && p.revokedAt.None?
             && (b.expiresAt.None? || b.expiresAt.value > now)
             && c.currentRevision == p.grant.subject.revision
             && c.status == Active
  }

  // ---- runs ----

  datatype Op =
    | OpIncident(id: Id)
    | OpRootCause(id: Id, incident: Id)
    | OpCorrection(id: Id, incident: Id)
    | OpRevision(key: RevisionKey, row: Revision)
    | OpQualification(id: Id, qualification: Qualification)
    | OpPromote(request: PromotionRequest)
    | OpRevoke(id: Id, at: Time)
    | OpBind(id: Id, binding: Binding)
    | OpRestrict(id: Id, deactivate: bool, expiry: Option<Time>)

  datatype Step = Step(now: Time, op: Op)

  function Attempt(t: Tables, s: Step): Result<Tables, Fault> {
    match s.op
    case OpIncident(id) => InsertIncident(t, id)
    case OpRootCause(id, incident) => InsertRootCause(t, id, incident)
    case OpCorrection(id, incident) => InsertCorrection(t, id, incident)
    case OpRevision(key, row) => InsertRevision(t, key, row)
    case OpQualification(id, q) => InsertQualification(t, id, q)
    case OpPromote(r) => AuthorizeAndPromote(t, s.now, r)
    case OpRevoke(id, at) => RevokePromotion(t, id, at)
    case OpBind(id, b) => CreateBinding(t, s.now, id, b.(active := true))
    case OpRestrict(id, deactivate, expiry) => RestrictBinding(t, id, deactivate, expiry)
  }

  /** One guarded call: its new tables, or the old ones when it raised. */
  function Next(t: Tables, s: Step): Tables {
    match Attempt(t, s)
    case Ok(t') => t'
    case Error(_) => t
  }

  function After(t: Tables, run: seq<Step>): Tables {
    if run == [] then t else Next(After(t, Front(run)), Last(run))
  }
}
