/** What each guarded call grants and withdraws: exactly when it succeeds, and how the effective view changes. */
module LifecycleGrants {
  import opened Prelude
  import opened LifecycleTables
  import opened LifecycleInvariants
  import opened LifecycleTheorems

  /** A text with something other than spaces in it. */
  predicate Says(s: string) { exists i :: 0 <= i < |s| && s[i] != ' ' }

  function SubjectOf(t: Tables, b: Id): RevisionKey
    requires b in t.bindings && t.bindings[b].promotion in t.promotions
  {
    t.promotions[t.bindings[b].promotion].grant.subject
  }

  // ---- how a call changes the view ----

  /** The call takes the binding out of the view at this time. */
  predicate Removes(t: Tables, op: Op, at: Time, b: Id)
    requires b in t.bindings && t.bindings[b].promotion in t.promotions
  {
    match op
    case OpRevision(key, row) =>
      || SubjectOf(t, b).correction == key.correction
      || (row.supersedes.Some? && SubjectOf(t, b).correction == row.supersedes.value.correction)
    case OpRevoke(id, _) => t.bindings[b].promotion == id
    case OpRestrict(id, deactivate, expiry) => b == id && (deactivate || (expiry.Some? && expiry.value <= at))
    case _ => false
  }

  /** The call puts the binding into the view at this time. */
  predicate Adds(op: Op, at: Time, b: Id) {
    op.OpBind? && op.id == b && (op.binding.expiresAt.None? || at < op.binding.expiresAt.value)
  }

  lemma AppendView(t: Tables, key: RevisionKey, row: Revision, at: Time, b: Id)
    requires key.correction in t.corrections && key.revision >= 0
    requires b in t.bindings && t.bindings[b].promotion in t.promotions
    ensures Effective(AppendRevision(t, key, row), at, b) <==>
      Effective(t, at, b) && SubjectOf(t, b).correction != key.correction
  {
  }

  lemma SupersessionView(t: Tables, target: RevisionKey, source: RevisionKey, at: Time, b: Id)
    requires target.correction in t.corrections && t.corrections[target.correction].currentRevision == target.revision
    requires b in t.bindings && t.bindings[b].promotion in t.promotions
    ensures Effective(ApplySupersession(t, target, source), at, b) <==>
      Effective(t, at, b) && SubjectOf(t, b).correction != target.correction
  {
  }

  lemma RevisionView(t: Tables, s: Step, at: Time, b: Id)
    requires Inv(t) && s.op.OpRevision? && Attempt(t, s).Ok?
    ensures Effective(Next(t, s), at, b) <==> Effective(t, at, b) && !Removes(t, s.op, at, b)
  {
    var key, row := s.op.key, s.op.row;
    if b in t.bindings {
      assert LawfulBinding(t.bindings[b], t.promotions);
      AppendView(t, key, row, at, b);
      if row.supersedes.Some? { SupersessionView(AppendRevision(t, key, row), row.supersedes.value, key, at, b); }
    }
  }

  lemma RevocationView(t: Tables, s: Step, at: Time, b: Id)
    requires Inv(t) && s.op.OpRevoke? && Attempt(t, s).Ok?
    ensures Effective(Next(t, s), at, b) <==> Effective(t, at, b) && !Removes(t, s.op, at, b)
  {
    var u := Next(t, s);
    if b in t.bindings {
      assert LawfulBinding(t.bindings[b], t.promotions);
      var p := t.bindings[b].promotion;
      if p != s.op.id && t.promotions[p].grant.subject == t.promotions[s.op.id].grant.subject { assert false; }
      assert p in u.promotions && u.promotions[p].grant == t.promotions[p].grant;
    }
  }

  /** Everything the view reads of one binding. */
  lemma SameView(t: Tables, u: Tables, at: Time, b: Id)
    requires u.bindings == t.bindings
    requires b in t.bindings ==>
      var p := t.bindings[b].promotion;
      && p in t.promotions && p in u.promotions && u.promotions[p] == t.promotions[p]
      && t.promotions[p].grant.subject.correction in t.corrections
      && t.promotions[p].grant.subject.correction in u.corrections
      && u.corrections[t.promotions[p].grant.subject.correction]
           == t.corrections[t.promotions[p].grant.subject.correction]
    ensures Effective(u, at, b) <==> Effective(t, at, b)
  {
  }

  lemma BindingStands(t: Tables, b: Id)
    requires Inv(t) && b in t.bindings
    ensures t.bindings[b].promotion in t.promotions && SubjectOf(t, b).correction in t.corrections
  {
    assert LawfulBinding(t.bindings[b], t.promotions);
    assert Lawful(t.promotions[t.bindings[b].promotion], t.authorizations, t.qualifications, t.revisions);
  }

  lemma PromotionView(t: Tables, s: Step, at: Time, b: Id)
    requires Inv(t) && s.op.OpPromote? && Attempt(t, s).Ok?
    ensures Effective(Next(t, s), at, b) <==> Effective(t, at, b)
  {
    if b in t.bindings {
      BindingStands(t, b);
      var r := s.op.request;
      var c := r.grant.subject.correction;
      if SubjectOf(t, b).correction != c {
        SameView(t, Next(t, s), at, b);
      } else if SubjectOf(t, b).revision == t.corrections[c].currentRevision {
        PromotedElsewhere(t, r, b);
      }
    }
  }

  /** A revision is promoted once. */
  lemma PromotedElsewhere(t: Tables, r: PromotionRequest, b: Id)
    requires b in t.bindings && t.bindings[b].promotion in t.promotions && SubjectOf(t, b) == r.grant.subject
    ensures forall now :: AuthorizeAndPromote(t, now, r).Error?
  {
  }

  lemma BindingView(t: Tables, s: Step, at: Time, b: Id)
    requires Inv(t) && s.op.OpBind? && Attempt(t, s).Ok?
    ensures Effective(Next(t, s), at, b) <==> Effective(t, at, b) || Adds(s.op, at, b)
  {
  }

  lemma RestrictionView(t: Tables, s: Step, at: Time, b: Id)
    requires Inv(t) && s.op.OpRestrict? && Attempt(t, s).Ok?
    ensures Effective(Next(t, s), at, b) <==> Effective(t, at, b) && !Removes(t, s.op, at, b)
  {
  }

  lemma OtherView(t: Tables, s: Step, at: Time, b: Id)
    requires Inv(t) && (s.op.OpIncident? || s.op.OpRootCause? || s.op.OpCorrection? || s.op.OpQualification?)
    ensures Effective(Next(t, s), at, b) <==> Effective(t, at, b)
  {
    if b in t.bindings {
      BindingStands(t, b);
      SameView(t, Next(t, s), at, b);
    }
  }

  /**
   The effective view changes by exactly this, at every clock: a revision withdraws the bindings of its own
   correction and of the one it supersedes, a revocation those of its promotion, a restriction its one binding from
   its expiry on or for good, and only a new binding enters it. A call that raises changes nothing.
   */
  lemma ViewChangesExactly(t: Tables, s: Step, at: Time, b: Id)
    requires Inv(t)
    ensures b in t.bindings ==> t.bindings[b].promotion in t.promotions
    ensures Effective(Next(t, s), at, b) <==>
      if Attempt(t, s).Error? then Effective(t, at, b)
      else (Effective(t, at, b) && !Removes(t, s.op, at, b)) || Adds(s.op, at, b)
  {
    if b in t.bindings { assert LawfulBinding(t.bindings[b], t.promotions); }
    if Attempt(t, s).Ok? {
      match s.op
      case OpRevision(_, _) => RevisionView(t, s, at, b);
      case OpRevoke(_, _) => RevocationView(t, s, at, b);
      case OpPromote(_) => PromotionView(t, s, at, b);
      case OpBind(_, _) => BindingView(t, s, at, b);
      case OpRestrict(_, _, _) => RestrictionView(t, s, at, b);
      case _ => OtherView(t, s, at, b);
    }
  }

  // ---- bindings ----

  /** The texts a binding must have. */
  predicate Worded(b: Binding) {
    Says(b.adapter) && Says(b.selectorDigest) && (b.adapterVersion.Some? ==> Says(b.adapterVersion.value))
  }

  /** The promotion is unrevoked, of the current revision of an ACTIVE correction. */
  predicate InForce(t: Tables, p: Id) {
    && p in t.promotions && t.promotions[p].revokedAt.None?
    && var s := t.promotions[p].grant.subject;
       s.correction in t.corrections && t.corrections[s.correction] == Correction(
         t.corrections[s.correction].incident, t.corrections[s.correction].currentRevision, Active)
       && t.corrections[s.correction].currentRevision == s.revision
  }

  /** No binding of the same promotion, adapter and selector digest. */
  ghost predicate Unclaimed(t: Tables, b: Binding) {
    forall o | o in t.bindings ::
      (t.bindings[o].promotion, t.bindings[o].adapter, t.bindings[o].selectorDigest)
        != (b.promotion, b.adapter, b.selectorDigest)
  }

  lemma WordedExactly(b: Binding)
    ensures Worded(b) <==>
      !((b.adapterVersion.Some? && Blank(b.adapterVersion.value)) || Blank(b.adapter) || Blank(b.selectorDigest))
  {
  }

  lemma PromotionsStand(t: Tables, p: Id)
    requires Inv(t) && p in t.promotions
    ensures
      var q := t.promotions[p];
      && q.authorization in t.authorizations && t.authorizations[q.authorization].grant == q.grant
      && q.grant.subject.correction in t.corrections && Proper(q.grant.scope)
  {
    assert Lawful(t.promotions[p], t.authorizations, t.qualifications, t.revisions);
    ProperExactly(t.promotions[p].grant.scope);
  }

  /**
   A binding is created exactly when its texts are there, its id and its claim are new, every context its selector
   lets through is within the authorized scope, and its row would be in the effective view at once; and creating it
   adds that row and nothing else.
   */
  lemma BindsExactly(t: Tables, now: Time, id: Id, b: Binding)
    requires Inv(t) && b.active
    ensures CreateBinding(t, now, id, b).Ok? <==>
      && Worded(b) && id !in t.bindings && Unclaimed(t, b)
      && Effective(t.(bindings := t.bindings[id := b]), now, id)
      && Narrows(b.selector, t.promotions[b.promotion].grant.scope)
    ensures CreateBinding(t, now, id, b).Ok? ==>
      CreateBinding(t, now, id, b).value == t.(bindings := t.bindings[id := b])
  {
    WordedExactly(b);
    if b.promotion in t.promotions {
      PromotionsStand(t, b.promotion);
      ScopeLaw(b.selector, t.promotions[b.promotion].grant.scope);
    }
  }

  /**
   With its texts there and its promotion in force, a binding is refused for its scope exactly when its selector is
   not a proper one, or lets through a context that the authorized scope does not.
   */
  lemma OutsideScopeExactly(t: Tables, now: Time, id: Id, b: Binding)
    requires Inv(t) && b.active
    ensures CreateBinding(t, now, id, b) == Error(SelectorOutsideScope) <==>
      && Worded(b) && InForce(t, b.promotion)
      && (!Proper(b.selector)
          || exists context :: Holds(context, b.selector) && !Holds(context, t.promotions[b.promotion].grant.scope))
  {
    WordedExactly(b);
    if b.promotion in t.promotions {
      PromotionsStand(t, b.promotion);
      ScopeLaw(b.selector, t.promotions[b.promotion].grant.scope);
    }
  }

  /** What a binding is refused for when nothing but its promotion, its expiry or its id is wrong. */
  lemma BindingRefusals(t: Tables, now: Time, id: Id, b: Binding)
    requires Inv(t) && b.active && Worded(b)
    ensures b.promotion !in t.promotions ==> CreateBinding(t, now, id, b) == Error(UnknownPromotion)
    ensures b.promotion in t.promotions && !InForce(t, b.promotion) ==>
      CreateBinding(t, now, id, b) == Error(PromotionInactive)
    ensures InForce(t, b.promotion) && Narrows(b.selector, t.promotions[b.promotion].grant.scope) ==>
      CreateBinding(t, now, id, b) ==
        if b.expiresAt.Some? && b.expiresAt.value <= now then Error(ExpiryNotFuture)
        else if id in t.bindings || !Unclaimed(t, b) then Error(UniqueViolation)
        else Ok(t.(bindings := t.bindings[id := b]))
  {
    WordedExactly(b);
    if b.promotion in t.promotions {
      PromotionsStand(t, b.promotion);
      ScopeLaw(b.selector, t.promotions[b.promotion].grant.scope);
    }
  }

  /**
   A restriction succeeds exactly for a known binding, when it deactivates or names an expiry, and that is no later
   than the one it has; it then changes that row alone, and in it only what it was asked for.
   */
  lemma RestrictsExactly(t: Tables, id: Id, deactivate: bool, expiry: Option<Time>)
    ensures RestrictBinding(t, id, deactivate, expiry).Ok? <==>
      && id in t.bindings && (deactivate || expiry.Some?)
      && (expiry.Some? && t.bindings[id].expiresAt.Some? ==> expiry.value <= t.bindings[id].expiresAt.value)
    ensures RestrictBinding(t, id, deactivate, expiry).Ok? ==>
      var u, b := RestrictBinding(t, id, deactivate, expiry).value, t.bindings[id];
      && u == t.(bindings := u.bindings) && u.bindings == t.bindings[id := u.bindings[id]]
      && u.bindings[id] == Binding(b.promotion, b.adapter, b.adapterVersion, b.selector, b.selectorDigest, b.priority,
           (if expiry.Some? then expiry else b.expiresAt), b.active && !deactivate)
  {
  }

  /** After a restriction the binding is out for good: at every later clock, or from its expiry on, over every run. */
  lemma RestrictedForGood(run: seq<Step>, i: nat, later: Time, id: Id, deactivate: bool, expiry: Option<Time>)
    requires i < |run| && run[i].op == OpRestrict(id, deactivate, expiry)
    requires Attempt(After(EMPTY, run[..i]), run[i]).Ok?
    requires deactivate || (expiry.Some? && expiry.value <= later)
    ensures !Effective(After(EMPTY, run), later, id)
  {
    var t := After(EMPTY, run[..i]);
    assert Front(run[..i + 1]) == run[..i];
    ReachableInv(run[..i]);
    ViewChangesExactly(t, run[i], later, id);
    assert run[..|run|] == run;
    NoResurrection(run, i + 1, |run|, later, later, id);
  }

  // ---- promotions ----

  /** The correction stands at this revision and nothing ended it. */
  predicate StandsAt(t: Tables, s: RevisionKey) {
    && s.correction in t.corrections && t.corrections[s.correction].currentRevision == s.revision && s.revision >= 1
    && t.corrections[s.correction].status !in {Superseded, Revoked, Rejected}
  }

  /** What the request itself must say. */
  ghost predicate Admissible(r: PromotionRequest) {
    && Proper(r.grant.scope) && r.grant.rollback.Items != {} && r.grant.policy.allow
    && r.rootCauseSupported && !r.ambiguous
    && Says(r.grant.policy.name) && Says(r.grant.policy.version) && Says(r.grant.approvedBy)
  }

  lemma QualifiedDigest(t: Tables, g: Grant)
    requires Inv(t) && g.qualification in t.qualifications
    requires t.qualifications[g.qualification] == Qualification(g.subject, g.digest, true)
    ensures g.subject in t.revisions && t.revisions[g.subject].digest == g.digest
  {
  }

  /** Under the invariant, a live current revision has a promotion exactly when its correction is ACTIVE. */
  lemma PromotedExactly(t: Tables, s: RevisionKey)
    requires Inv(t) && StandsAt(t, s)
    ensures t.corrections[s.correction].status == Active <==>
      exists p :: p in t.promotions && t.promotions[p].grant.subject == s
  {
    if t.corrections[s.correction].status == Active {
      assert LivePromotion(t.promotions, t.corrections, s.correction);
    }
  }

  /** The request, the revision and its evidence are in order. */
  ghost predicate Supported(t: Tables, r: PromotionRequest) {
    var g := r.grant;
    && Admissible(r) && StandsAt(t, g.subject) && g.qualification in t.qualifications
    && t.qualifications[g.qualification] == Qualification(g.subject, g.digest, true)
    && g.subject in t.revisions && (t.revisions[g.subject].reversible || r.irreversibleAcknowledged)
  }

  lemma SupportedExactly(t: Tables, r: PromotionRequest)
    requires Inv(t)
    ensures ValidateGrant(t, r).None? <==> Supported(t, r)
  {
    ProperExactly(r.grant.scope);
    ItemsEmpty(r.grant.rollback);
  }

  lemma GrantedExactly(t: Tables, now: Time, r: PromotionRequest)
    requires Inv(t) && Supported(t, r)
    ensures AuthorizeAndPromote(t, now, r).Ok? <==>
      && t.corrections[r.grant.subject.correction].status != Active
      && r.authorization !in t.authorizations && r.promotion !in t.promotions
  {
    SupportedExactly(t, r);
    QualifiedDigest(t, r.grant);
    PromotedExactly(t, r.grant.subject);
    FreshAuthorization(t, r.authorization);
    assert HasKey(t.outbox, PromotedKey(r.promotion)) ==> r.promotion in t.promotions;
  }

  /**
   A promotion is granted exactly when the request is admissible, its revision is the one its correction stands at
   and not yet ACTIVE, a PASS is recorded on exactly that revision and digest, an irreversible one is acknowledged,
   and both ids are new.
   */
  lemma PromotesExactly(t: Tables, now: Time, r: PromotionRequest)
    requires Inv(t)
    ensures AuthorizeAndPromote(t, now, r).Ok? <==>
      && Supported(t, r) && t.corrections[r.grant.subject.correction].status != Active
      && r.authorization !in t.authorizations && r.promotion !in t.promotions
  {
    SupportedExactly(t, r);
    if Supported(t, r) { GrantedExactly(t, now, r); }
  }

  lemma ItemsEmpty(m: map<string, string>)
    ensures m.Items == {} <==> m == map[]
  {
    if m != map[] {
      var k :| k in m;
      assert (k, m[k]) in m.Items;
    }
  }

  lemma FreshAuthorization(t: Tables, id: Id)
    requires Inv(t)
    ensures id !in t.authorizations ==> forall p | p in t.promotions :: t.promotions[p].authorization != id
  {
    forall p | p in t.promotions ensures t.promotions[p].authorization in t.authorizations {
      assert Lawful(t.promotions[p], t.authorizations, t.qualifications, t.revisions);
    }
  }

  /** A granted promotion adds its authorization, its row and one outbox row, and makes its correction ACTIVE. */
  lemma PromotesOnly(t: Tables, now: Time, r: PromotionRequest)
    requires Inv(t) && AuthorizeAndPromote(t, now, r).Ok?
    ensures
      var u, g := AuthorizeAndPromote(t, now, r).value, r.grant;
      var c := g.subject.correction;
      && u == t.(authorizations := u.authorizations, promotions := u.promotions, corrections := u.corrections,
                 outbox := t.outbox + [OutboxRow(PromotedKey(r.promotion), g.subject)])
      && u.authorizations == t.authorizations[r.authorization := Authorization(g, r.irreversibleAcknowledged)]
      && u.promotions == t.promotions[r.promotion := Promotion(g, r.authorization, now, None)]
      && c in t.corrections && u.corrections == t.corrections[c := Correction(
           t.corrections[c].incident, t.corrections[c].currentRevision, Active)]
  {
  }

  /** A revocation marks its promotion, ends its correction if that revision is still current, and no other. */
  lemma RevokesOnly(t: Tables, id: Id, at: Time)
    requires Inv(t) && RevokePromotion(t, id, at).Ok?
    ensures id in t.promotions
    ensures
      var u, p := RevokePromotion(t, id, at).value, t.promotions[id];
      var s := p.grant.subject;
      && u == t.(promotions := u.promotions, bindings := u.bindings, corrections := u.corrections,
                 outbox := t.outbox + [OutboxRow(RevokedKey(id), s)])
      && u.promotions == t.promotions[id := Promotion(p.grant, p.authorization, p.activatedAt, Some(at))]
      && u.bindings.Keys == t.bindings.Keys && s.correction in t.corrections
      && (forall b | b in t.bindings ::
            u.bindings[b] == if t.bindings[b].promotion == id then t.bindings[b].(active := false) else t.bindings[b])
      && u.corrections == if s.revision < t.corrections[s.correction].currentRevision then t.corrections
           else t.corrections[s.correction := Correction(
                  t.corrections[s.correction].incident, s.revision, Revoked)]
  {
    assert Lawful(t.promotions[id], t.authorizations, t.qualifications, t.revisions);
  }

  // ---- revisions ----

  /** A correction of the incident, at its current revision and never superseded. */
  ghost predicate Supersedable(t: Tables, target: RevisionKey, incident: Id) {
    && target.correction in t.corrections && t.corrections[target.correction].incident == incident
    && t.corrections[target.correction].currentRevision == target.revision && target.revision >= 1
    && forall d :: !Supersedes(t, d, target.correction)
  }

  lemma SupersededRow(t: Tables, target: RevisionKey)
    requires Inv(t) && target.correction in t.corrections
    requires t.corrections[target.correction].currentRevision == target.revision
    ensures HasKey(t.outbox, SupersededKey(target)) <==> exists d :: Supersedes(t, d, target.correction)
  {
    if HasKey(t.outbox, SupersededKey(target)) {
      var i :| 0 <= i < |t.outbox| && t.outbox[i].key == SupersededKey(target);
      var s := t.outbox[i].source;
      assert EdgeAt(t, RevisionKey(s.correction, s.revision), RevisionKey(target.correction, target.revision));
      assert Supersedes(t, s.correction, target.correction);
    } else if exists d :: Supersedes(t, d, target.correction) {
      var d :| Supersedes(t, d, target.correction);
      var i := EdgeRow(t, d, target.correction);
      assert t.outbox[i].key == SupersededKey(target);
    }
  }

  /**
   A revision is accepted exactly when it is its correction's next, that correction is not ended, its root cause is
   of the same incident, and what it supersedes is the current revision of another correction of that incident that
   no revision ever superseded.
   */
  lemma RevisesExactly(t: Tables, key: RevisionKey, row: Revision)
    requires Inv(t)
    ensures InsertRevision(t, key, row).Ok? <==>
      && key.correction in t.corrections
      && var c := t.corrections[key.correction];
         && c.status !in {Superseded, Revoked, Rejected} && key.revision == c.currentRevision + 1
         && (row.rootCause.Some? ==> (row.rootCause.value, c.incident) in t.rootCauses.Items)
         && (row.supersedes.Some? ==>
               row.supersedes.value.correction != key.correction && Supersedable(t, row.supersedes.value, c.incident))
  {
    if ValidateRevision(t, key, row).None? && row.supersedes.Some? { SupersededRow(t, row.supersedes.value); }
    if row.supersedes.Some? && key.correction in t.corrections
       && Supersedable(t, row.supersedes.value, t.corrections[key.correction].incident) {
      SupersededRow(t, row.supersedes.value);
    }
  }

  /** An accepted revision adds its row, moves its correction to it, and ends the correction it supersedes. */
  lemma RevisesOnly(t: Tables, key: RevisionKey, row: Revision)
    requires Inv(t) && InsertRevision(t, key, row).Ok?
    ensures key.correction in t.corrections && key.revision >= 1
    ensures
      var u, c := InsertRevision(t, key, row).value, t.corrections[key.correction];
      var own := t.corrections[key.correction := Correction(c.incident, key.revision, Proposed)];
      && u == t.(revisions := t.revisions[key := row], corrections := u.corrections, bindings := u.bindings,
                 outbox := u.outbox)
      && if row.supersedes.None? then u.corrections == own && u.bindings == t.bindings && u.outbox == t.outbox
         else
           var target := row.supersedes.value;
           && target.correction in t.corrections
           && u.corrections == own[target.correction := Correction(c.incident, target.revision, Superseded)]
           && u.outbox == t.outbox + [OutboxRow(SupersededKey(target), key)]
  {
  }

  // ---- the other inserts ----

  /** An incident, root cause, correction or qualification is added exactly under a new id and for what exists. */
  lemma InsertsExactly(t: Tables, id: Id, incident: Id, q: Qualification)
    ensures InsertIncident(t, id) ==
      if id !in t.incidents then Ok(t.(incidents := t.incidents + {id})) else Error(UniqueViolation)
    ensures InsertRootCause(t, id, incident).Ok? <==> id !in t.rootCauses && incident in t.incidents
    ensures InsertRootCause(t, id, incident).Ok? ==>
      InsertRootCause(t, id, incident).value == t.(rootCauses := t.rootCauses[id := incident])
    ensures InsertCorrection(t, id, incident).Ok? <==> id !in t.corrections && incident in t.incidents
    ensures InsertCorrection(t, id, incident).Ok? ==>
      var entry := Correction(incident, 0, Proposed);
      InsertCorrection(t, id, incident).value == t.(corrections := t.corrections[id := entry])
    ensures InsertQualification(t, id, q).Ok? <==>
      id !in t.qualifications && q.subject in t.revisions && t.revisions[q.subject].digest == q.digest
    ensures InsertQualification(t, id, q).Ok? ==>
      InsertQualification(t, id, q).value == t.(qualifications := t.qualifications[id := q])
  {
  }
}
