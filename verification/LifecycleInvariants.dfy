/** What every guarded call keeps, for every table state a run can reach. */
module LifecycleInvariants {
  import opened Prelude
  import opened LifecycleTables

  type Corrections = map<Id, Correction>
  type Revisions = map<RevisionKey, Revision>
  type Promotions = map<Id, Promotion>
  type Outbox = seq<OutboxRow>

  /** A correction's revisions are exactly 1 to its current revision. */
  ghost predicate RevisionsDense(cs: Corrections, rs: Revisions) {
    forall key :: key in rs <==>
      key.correction in cs && 1 <= key.revision <= cs[key.correction].currentRevision
  }

  ghost predicate QualificationsExact(qs: map<Id, Qualification>, rs: Revisions) {
    forall q | q in qs :: qs[q].subject in rs && rs[qs[q].subject].digest == qs[q].digest
  }

  /**
   The promotion names an existing revision by its digest, equals its authorization, and rests on a PASS for
   that digest.
   */
  ghost predicate Lawful(p: Promotion, az: map<Id, Authorization>, qs: map<Id, Qualification>, rs: Revisions) {
    && p.grant.subject in rs
    && rs[p.grant.subject].digest == p.grant.digest
    && p.authorization in az
    && az[p.authorization].grant == p.grant
    && p.grant.qualification in qs
    && qs[p.grant.qualification] == Qualification(p.grant.subject, p.grant.digest, true)
    && p.grant.policy.allow
    && SelectorValid(p.grant.scope)
    && (p.revokedAt.Some? ==> p.activatedAt <= p.revokedAt.value)
  }

  ghost predicate PromotionsLawful(
    ps: Promotions, az: map<Id, Authorization>, qs: map<Id, Qualification>, rs: Revisions) {
    forall p {:trigger Lawful(ps[p], az, qs, rs)} | p in ps :: Lawful(ps[p], az, qs, rs)
  }

  /** One promotion per revision. */
  ghost predicate PromotionsUnique(ps: Promotions) {
    forall p, q | p in ps && q in ps && ps[p].grant.subject == ps[q].grant.subject :: p == q
  }

  predicate IsCurrent(cs: Corrections, s: RevisionKey) {
    s.correction in cs && cs[s.correction].currentRevision == s.revision
  }

  /** A promoted current revision is ACTIVE while unrevoked, REVOKED only once revoked, or SUPERSEDED. */
  ghost predicate PromotedStatus(ps: Promotions, cs: Corrections) {
    forall p | p in ps && IsCurrent(cs, ps[p].grant.subject) ::
      var s := cs[ps[p].grant.subject.correction].status;
      || (s == Active && ps[p].revokedAt.None?)
      || (s == Revoked && ps[p].revokedAt.Some?)
      || s == Superseded
  }

  /** Some unrevoked promotion names the correction's current revision. */
  ghost predicate LivePromotion(ps: Promotions, cs: Corrections, c: Id) {
    exists p ::
      p in ps && ps[p].revokedAt.None? && ps[p].grant.subject.correction == c && IsCurrent(cs, ps[p].grant.subject)
  }

  /** ACTIVE is never set without an unrevoked promotion of the current revision. */
  ghost predicate ActiveStatus(ps: Promotions, cs: Corrections) {
    forall c {:trigger LivePromotion(ps, cs, c)} | c in cs && cs[c].status == Active :: LivePromotion(ps, cs, c)
  }

  /** The selector contains the authorized scope, and no binding of a revoked promotion is active. */
  ghost predicate LawfulBinding(b: Binding, ps: Promotions) {
    && b.promotion in ps
    && SelectorWithinScope(b.selector, ps[b.promotion].grant.scope)
    && (ps[b.promotion].revokedAt.Some? ==> !b.active)
  }

  ghost predicate BindingsLawful(bs: map<Id, Binding>, ps: Promotions) {
    forall b {:trigger LawfulBinding(bs[b], ps)} | b in bs :: LawfulBinding(bs[b], ps)
  }

  ghost predicate OutboxUnique(o: Outbox) {
    forall i, j | 0 <= i < j < |o| :: o[i].key != o[j].key
  }

  predicate IsEdge(row: OutboxRow) { row.key.SupersededKey? }

  /** The outbox is the log of the supersession edges. */
  ghost predicate RowsAreEdges(o: Outbox, rs: Revisions) {
    forall i | 0 <= i < |o| && IsEdge(o[i]) ::
      o[i].source in rs && rs[o[i].source].supersedes == Some(o[i].key.target)
  }

  ghost predicate EdgesAreRows(o: Outbox, rs: Revisions) {
    forall key | key in rs && rs[key].supersedes.Some? ::
      OutboxRow(SupersededKey(rs[key].supersedes.value), key) in o
  }

  /** A superseded correction is terminal and its current revision is frozen at the superseded one. */
  ghost predicate SupersededFrozen(o: Outbox, cs: Corrections) {
    forall i | 0 <= i < |o| && IsEdge(o[i]) ::
      IsCurrent(cs, o[i].key.target) && Terminal(cs[o[i].key.target.correction].status)
  }

  ghost predicate EverSuperseded(o: Outbox, c: Id) {
    exists i :: 0 <= i < |o| && IsEdge(o[i]) && o[i].key.target.correction == c
  }

  /** SUPERSEDED is never set without a logged edge. */
  ghost predicate SupersededStatus(o: Outbox, cs: Corrections) {
    forall c {:trigger EverSuperseded(o, c)} | c in cs && cs[c].status == Superseded :: EverSuperseded(o, c)
  }

  /** No correction supersedes another at or after the row that superseded it. */
  ghost predicate EdgesOrdered(o: Outbox) {
    forall i, j | 0 <= i <= j < |o| && IsEdge(o[i]) && IsEdge(o[j]) ::
      o[j].source.correction != o[i].key.target.correction
  }

  ghost predicate PromotionRows(o: Outbox, ps: Promotions) {
    forall i | 0 <= i < |o| ::
      match o[i].key
      case SupersededKey(_) => true
      case PromotedKey(p) => p in ps
      case RevokedKey(p) => p in ps && ps[p].revokedAt.Some?
  }

  ghost predicate AuthorityInv(t: Tables) {
    && RevisionsDense(t.corrections, t.revisions)
    && QualificationsExact(t.qualifications, t.revisions)
    && PromotionsLawful(t.promotions, t.authorizations, t.qualifications, t.revisions)
    && PromotionsUnique(t.promotions)
    && BindingsLawful(t.bindings, t.promotions)
  }

  ghost predicate StatusInv(t: Tables) {
    PromotedStatus(t.promotions, t.corrections) && ActiveStatus(t.promotions, t.corrections)
  }

  ghost predicate SupersessionInv(t: Tables) {
    && OutboxUnique(t.outbox)
    && RowsAreEdges(t.outbox, t.revisions)
    && EdgesAreRows(t.outbox, t.revisions)
    && SupersededFrozen(t.outbox, t.corrections)
    && EdgesOrdered(t.outbox)
    && PromotionRows(t.outbox, t.promotions)
    && SupersededStatus(t.outbox, t.corrections)
  }

  ghost predicate Inv(t: Tables) {
    AuthorityInv(t) && StatusInv(t) && SupersessionInv(t)
  }

  // ---- one correction's projection changes ----

  /** A correction that is still ACTIVE keeps the promotion that made it so. */
  lemma ActiveKept(ps: Promotions, cs: Corrections, c: Id, row: Correction)
    requires ActiveStatus(ps, cs) && row.status != Active
    ensures ActiveStatus(ps, cs[c := row])
  {
    var cs' := cs[c := row];
    forall d | d in cs' && cs'[d].status == Active ensures LivePromotion(ps, cs', d) {
      assert LivePromotion(ps, cs, d);
    }
  }

  lemma PromotedKept(ps: Promotions, cs: Corrections, c: Id, row: Correction)
    requires PromotedStatus(ps, cs)
    requires row.status == Superseded
      || forall p | p in ps :: ps[p].grant.subject != RevisionKey(c, row.currentRevision)
    ensures PromotedStatus(ps, cs[c := row])
  {
  }

  lemma SupersededExtends(o: Outbox, cs: Corrections, extra: Outbox)
    requires SupersededStatus(o, cs)
    ensures SupersededStatus(o + extra, cs)
  {
    forall d | d in cs && cs[d].status == Superseded ensures EverSuperseded(o + extra, d) {
      assert EverSuperseded(o, d);
      var i :| 0 <= i < |o| && IsEdge(o[i]) && o[i].key.target.correction == d;
      assert (o + extra)[i] == o[i];
    }
  }

  lemma SupersededKept(o: Outbox, cs: Corrections, c: Id, row: Correction)
    requires SupersededStatus(o, cs)
    requires row.status == Superseded ==> EverSuperseded(o, c)
    ensures SupersededStatus(o, cs[c := row])
  {
  }

  lemma FrozenKept(o: Outbox, cs: Corrections, c: Id, row: Correction)
    requires SupersededFrozen(o, cs)
    requires c in cs && Terminal(cs[c].status) ==>
      Terminal(row.status) && row.currentRevision == cs[c].currentRevision
    ensures SupersededFrozen(o, cs[c := row])
  {
  }

  /** No promotion names a revision that does not exist yet. */
  lemma NoPromotionAhead(
    ps: Promotions, az: map<Id, Authorization>, qs: map<Id, Qualification>, rs: Revisions, key: RevisionKey)
    requires PromotionsLawful(ps, az, qs, rs) && key !in rs
    ensures forall p | p in ps :: ps[p].grant.subject != key
  {
    forall p | p in ps ensures ps[p].grant.subject != key {
      assert Lawful(ps[p], az, qs, rs);
    }
  }

  // ---- the other tables ----

  lemma LawfulKept(
    ps: Promotions,
    az: map<Id, Authorization>, qs: map<Id, Qualification>, rs: Revisions,
    az': map<Id, Authorization>, qs': map<Id, Qualification>, rs': Revisions)
    requires PromotionsLawful(ps, az, qs, rs)
    requires forall k | k in az :: k in az' && az'[k] == az[k]
    requires forall k | k in qs :: k in qs' && qs'[k] == qs[k]
    requires forall k | k in rs :: k in rs' && rs'[k] == rs[k]
    ensures PromotionsLawful(ps, az', qs', rs')
  {
    forall p | p in ps ensures Lawful(ps[p], az', qs', rs') {
      assert Lawful(ps[p], az, qs, rs);
    }
  }

  lemma LawfulUpdated(
    ps: Promotions, id: Id, p: Promotion, az: map<Id, Authorization>, qs: map<Id, Qualification>, rs: Revisions)
    requires PromotionsLawful(ps, az, qs, rs) && Lawful(p, az, qs, rs)
    ensures PromotionsLawful(ps[id := p], az, qs, rs)
  {
  }

  lemma UniqueUpdated(ps: Promotions, id: Id, p: Promotion)
    requires PromotionsUnique(ps)
    requires forall q | q in ps && q != id :: ps[q].grant.subject != p.grant.subject
    ensures PromotionsUnique(ps[id := p])
  {
  }

  lemma RevisionsStayDense(cs: Corrections, rs: Revisions, key: RevisionKey, row: Revision, status: Status)
    requires RevisionsDense(cs, rs)
    requires key.correction in cs && key.revision == cs[key.correction].currentRevision + 1
    ensures
      RevisionsDense(
        cs[key.correction := cs[key.correction].(currentRevision := key.revision, status := status)],
        rs[key := row])
  {
  }

  lemma RowsStayEdges(o: Outbox, rs: Revisions, key: RevisionKey, row: Revision)
    requires RowsAreEdges(o, rs) && EdgesAreRows(o, rs) && key !in rs
    ensures RowsAreEdges(o, rs[key := row])
    ensures row.supersedes.None? ==> EdgesAreRows(o, rs[key := row])
    ensures row.supersedes.Some? ==>
      var o' := o + [OutboxRow(SupersededKey(row.supersedes.value), key)];
      RowsAreEdges(o', rs[key := row]) && EdgesAreRows(o', rs[key := row])
  {
  }

  lemma EdgesStay(o: Outbox, rs: Revisions, row: OutboxRow)
    requires RowsAreEdges(o, rs) && EdgesAreRows(o, rs) && !IsEdge(row)
    ensures RowsAreEdges(o + [row], rs) && EdgesAreRows(o + [row], rs)
  {
  }

  /** Appending a supersession by a correction nobody has superseded keeps the order of the edges. */
  lemma EdgesStayOrdered(o: Outbox, cs: Corrections, row: OutboxRow)
    requires EdgesOrdered(o) && SupersededFrozen(o, cs)
    requires IsEdge(row) ==>
      && row.source.correction in cs && !Terminal(cs[row.source.correction].status)
      && row.source.correction != row.key.target.correction
    ensures EdgesOrdered(o + [row])
  {
  }

  /** Bindings may be deactivated, and nothing else that their promotion's scope or revocation depends on may change. */
  ghost predicate BindingsOnlyRestricted(bs: map<Id, Binding>, bs': map<Id, Binding>) {
    forall b | b in bs' ::
      && b in bs && bs'[b].promotion == bs[b].promotion && bs'[b].selector == bs[b].selector
      && (bs'[b].active ==> bs[b].active)
  }

  lemma BindingsStayLawful(bs: map<Id, Binding>, ps: Promotions, bs': map<Id, Binding>, ps': Promotions)
    requires BindingsLawful(bs, ps) && BindingsOnlyRestricted(bs, bs')
    requires forall p | p in ps :: p in ps' && ps'[p].grant == ps[p].grant
    requires forall b | b in bs' && bs'[b].active && bs'[b].promotion in ps ::
      ps'[bs'[b].promotion].revokedAt == ps[bs'[b].promotion].revokedAt
    ensures BindingsLawful(bs', ps')
  {
    forall b | b in bs' ensures LawfulBinding(bs'[b], ps') {
      assert LawfulBinding(bs[b], ps);
    }
  }

  // ---- every step keeps the invariant ----

  lemma CorrectionKeepsInv(t: Tables, id: Id, incident: Id)
    requires Inv(t) && InsertCorrection(t, id, incident).Ok?
    ensures Inv(InsertCorrection(t, id, incident).value)
  {
    var row := Correction(incident, 0, Proposed);
    assert RevisionKey(id, 0) !in t.revisions;
    NoPromotionAhead(t.promotions, t.authorizations, t.qualifications, t.revisions, RevisionKey(id, 0));
    ActiveKept(t.promotions, t.corrections, id, row);
    PromotedKept(t.promotions, t.corrections, id, row);
    FrozenKept(t.outbox, t.corrections, id, row);
    SupersededKept(t.outbox, t.corrections, id, row);
  }

  lemma QualificationKeepsInv(t: Tables, id: Id, q: Qualification)
    requires Inv(t) && InsertQualification(t, id, q).Ok?
    ensures Inv(InsertQualification(t, id, q).value)
  {
    LawfulKept(t.promotions, t.authorizations, t.qualifications, t.revisions,
               t.authorizations, t.qualifications[id := q], t.revisions);
  }

  lemma AppendKeepsInv(t: Tables, key: RevisionKey, row: Revision)
    requires Inv(t) && ValidateRevision(t, key, row).None?
    ensures key !in t.revisions
    ensures AuthorityInv(AppendRevision(t, key, row)) && StatusInv(AppendRevision(t, key, row))
    ensures SupersededFrozen(t.outbox, AppendRevision(t, key, row).corrections)
    ensures SupersededStatus(t.outbox, AppendRevision(t, key, row).corrections)
  {
    var c := t.corrections[key.correction].(currentRevision := key.revision, status := Proposed);
    NoPromotionAhead(t.promotions, t.authorizations, t.qualifications, t.revisions, key);
    ActiveKept(t.promotions, t.corrections, key.correction, c);
    PromotedKept(t.promotions, t.corrections, key.correction, c);
    FrozenKept(t.outbox, t.corrections, key.correction, c);
    SupersededKept(t.outbox, t.corrections, key.correction, c);
    RevisionsStayDense(t.corrections, t.revisions, key, row, Proposed);
    LawfulKept(t.promotions, t.authorizations, t.qualifications, t.revisions,
               t.authorizations, t.qualifications, t.revisions[key := row]);
  }

  lemma SupersedeKeepsAuthority(t: Tables, target: RevisionKey, source: RevisionKey)
    requires AuthorityInv(t) && StatusInv(t) && target.correction in t.corrections
    ensures AuthorityInv(ApplySupersession(t, target, source)) && StatusInv(ApplySupersession(t, target, source))
  {
    var c := t.corrections[target.correction].(status := Superseded);
    ActiveKept(t.promotions, t.corrections, target.correction, c);
    PromotedKept(t.promotions, t.corrections, target.correction, c);
    var bs' := Deactivated(t.bindings, t.promotions, target);
    assert BindingsOnlyRestricted(t.bindings, bs');
    BindingsStayLawful(t.bindings, t.promotions, bs', t.promotions);
  }

  lemma SupersedeKeepsEdges(t: Tables, key: RevisionKey, row: Revision)
    requires Inv(t) && ValidateRevision(t, key, row).None? && row.supersedes.Some?
    requires !HasKey(t.outbox, SupersededKey(row.supersedes.value))
    ensures SupersessionInv(ApplySupersession(AppendRevision(t, key, row), row.supersedes.value, key))
  {
    AppendKeepsInv(t, key, row);
    var target := row.supersedes.value;
    var t1 := AppendRevision(t, key, row);
    var c := t1.corrections[target.correction].(status := Superseded);
    var last := [OutboxRow(SupersededKey(target), key)];
    FrozenKept(t1.outbox, t1.corrections, target.correction, c);
    assert (t1.outbox + last)[|t1.outbox|] == last[0];
    SupersededExtends(t1.outbox, t1.corrections, last);
    SupersededKept(t1.outbox + last, t1.corrections, target.correction, c);
    RowsStayEdges(t.outbox, t.revisions, key, row);
    EdgesStayOrdered(t.outbox, t.corrections, OutboxRow(SupersededKey(target), key));
  }

  lemma RevisionKeepsInv(t: Tables, key: RevisionKey, row: Revision)
    requires Inv(t) && InsertRevision(t, key, row).Ok?
    ensures Inv(InsertRevision(t, key, row).value)
  {
    if row.supersedes.None? {
      AppendKeepsInv(t, key, row);
      RowsStayEdges(t.outbox, t.revisions, key, row);
    } else {
      AppendKeepsInv(t, key, row);
      SupersedeKeepsAuthority(AppendRevision(t, key, row), row.supersedes.value, key);
      SupersedeKeepsEdges(t, key, row);
    }
  }

  lemma PromotionKeepsStatus(ps: Promotions, cs: Corrections, id: Id, p: Promotion)
    requires PromotedStatus(ps, cs) && ActiveStatus(ps, cs)
    requires IsCurrent(cs, p.grant.subject) && p.revokedAt.None? && id !in ps
    requires forall q | q in ps :: ps[q].grant.subject != p.grant.subject
    ensures
      var c := p.grant.subject.correction;
      var cs' := cs[c := cs[c].(status := Active)];
      PromotedStatus(ps[id := p], cs') && ActiveStatus(ps[id := p], cs')
  {
    var c := p.grant.subject.correction;
    var ps', cs' := ps[id := p], cs[c := cs[c].(status := Active)];
    forall d | d in cs' && cs'[d].status == Active ensures LivePromotion(ps', cs', d) {
      if d == c {
        assert ps'[id] == p;
      } else {
        assert LivePromotion(ps, cs, d);
        var q :| q in ps && ps[q].revokedAt.None? && ps[q].grant.subject.correction == d
          && IsCurrent(cs, ps[q].grant.subject);
        assert ps'[q] == ps[q];
      }
    }
  }

  lemma ApplyPromotionKeepsAuthority(t: Tables, id: Id, p: Promotion)
    requires AuthorityInv(t) && Lawful(p, t.authorizations, t.qualifications, t.revisions)
    requires IsCurrent(t.corrections, p.grant.subject) && p.revokedAt.None? && id !in t.promotions
    requires forall q | q in t.promotions :: t.promotions[q].grant.subject != p.grant.subject
    ensures AuthorityInv(ApplyPromotion(t, id, p))
  {
    LawfulUpdated(t.promotions, id, p, t.authorizations, t.qualifications, t.revisions);
    UniqueUpdated(t.promotions, id, p);
    assert BindingsOnlyRestricted(t.bindings, t.bindings);
    BindingsStayLawful(t.bindings, t.promotions, t.bindings, t.promotions[id := p]);
  }

  lemma PromotionKeepsAuthority(t: Tables, now: Time, r: PromotionRequest)
    requires AuthorityInv(t) && StatusInv(t) && AuthorizeAndPromote(t, now, r).Ok?
    ensures AuthorityInv(AuthorizeAndPromote(t, now, r).value) && StatusInv(AuthorizeAndPromote(t, now, r).value)
  {
    var t1 :=
      t.(authorizations := t.authorizations[r.authorization := Authorization(r.grant, r.irreversibleAcknowledged)]);
    LawfulKept(t.promotions, t.authorizations, t.qualifications, t.revisions, t1.authorizations, t.qualifications,
      t.revisions);
    var p := Promotion(r.grant, r.authorization, now, None);
    ApplyPromotionKeepsAuthority(t1, r.promotion, p);
    PromotionKeepsStatus(t.promotions, t.corrections, r.promotion, p);
  }

  lemma ApplyPromotionKeepsEdges(t: Tables, id: Id, p: Promotion)
    requires SupersessionInv(t) && p.grant.subject.correction in t.corrections
    requires !Terminal(t.corrections[p.grant.subject.correction].status)
    requires id !in t.promotions && !HasKey(t.outbox, PromotedKey(id))
    ensures SupersessionInv(ApplyPromotion(t, id, p))
  {
    var c := p.grant.subject.correction;
    var d := t.corrections[c].(status := Active);
    var row := OutboxRow(PromotedKey(id), p.grant.subject);
    FrozenKept(t.outbox, t.corrections, c, d);
    SupersededKept(t.outbox, t.corrections, c, d);
    SupersededExtends(t.outbox, t.corrections[c := d], [row]);
    EdgesStay(t.outbox, t.revisions, row);
  }

  lemma PromotionKeepsEdges(t: Tables, now: Time, r: PromotionRequest)
    requires SupersessionInv(t) && AuthorizeAndPromote(t, now, r).Ok?
    ensures SupersessionInv(AuthorizeAndPromote(t, now, r).value)
  {
    var t1 :=
      t.(authorizations := t.authorizations[r.authorization := Authorization(r.grant, r.irreversibleAcknowledged)]);
    ApplyPromotionKeepsEdges(t1, r.promotion, Promotion(r.grant, r.authorization, now, None));
  }

  lemma RevocationKeepsStatus(ps: Promotions, cs: Corrections, id: Id, at: Time)
    requires PromotedStatus(ps, cs) && ActiveStatus(ps, cs) && PromotionsUnique(ps) && id in ps
    requires ps[id].grant.subject.correction in cs
    ensures
      var s := ps[id].grant.subject;
      var cs' := if IsCurrent(cs, s) then cs[s.correction := cs[s.correction].(status := Revoked)] else cs;
      var ps' := ps[id := ps[id].(revokedAt := Some(at))];
      PromotedStatus(ps', cs') && ActiveStatus(ps', cs')
  {
    var s := ps[id].grant.subject;
    var cs' := if IsCurrent(cs, s) then cs[s.correction := cs[s.correction].(status := Revoked)] else cs;
    var ps' := ps[id := ps[id].(revokedAt := Some(at))];
    forall d | d in cs' && cs'[d].status == Active ensures LivePromotion(ps', cs', d) {
      assert LivePromotion(ps, cs, d);
      var q :| q in ps && ps[q].revokedAt.None? && ps[q].grant.subject.correction == d
        && IsCurrent(cs, ps[q].grant.subject);
      assert ps'[q] == ps[q];
    }
  }

  lemma ApplyRevocationKeepsAuthority(t: Tables, id: Id, at: Time)
    requires AuthorityInv(t) && id in t.promotions
    requires Lawful(t.promotions[id].(revokedAt := Some(at)), t.authorizations, t.qualifications, t.revisions)
    ensures AuthorityInv(ApplyRevocation(t, id, at))
  {
    var t' := ApplyRevocation(t, id, at);
    var p := t.promotions[id].(revokedAt := Some(at));
    LawfulUpdated(t.promotions, id, p, t.authorizations, t.qualifications, t.revisions);
    UniqueUpdated(t.promotions, id, p);
    assert BindingsOnlyRestricted(t.bindings, t'.bindings);
    BindingsStayLawful(t.bindings, t.promotions, t'.bindings, t'.promotions);
  }

  lemma RevocationKeepsAuthority(t: Tables, id: Id, at: Time)
    requires AuthorityInv(t) && StatusInv(t) && RevokePromotion(t, id, at).Ok?
    ensures AuthorityInv(RevokePromotion(t, id, at).value) && StatusInv(RevokePromotion(t, id, at).value)
  {
    assert Lawful(t.promotions[id], t.authorizations, t.qualifications, t.revisions);
    ApplyRevocationKeepsAuthority(t, id, at);
    RevocationKeepsStatus(t.promotions, t.corrections, id, at);
  }

  lemma RevocationKeepsEdges(t: Tables, id: Id, at: Time)
    requires SupersessionInv(t) && RevokePromotion(t, id, at).Ok?
    ensures SupersessionInv(RevokePromotion(t, id, at).value)
  {
    var s := t.promotions[id].grant.subject;
    var row := OutboxRow(RevokedKey(id), s);
    if IsCurrent(t.corrections, s) {
      FrozenKept(t.outbox, t.corrections, s.correction, t.corrections[s.correction].(status := Revoked));
      SupersededKept(t.outbox, t.corrections, s.correction, t.corrections[s.correction].(status := Revoked));
    }
    SupersededExtends(t.outbox, RevokePromotion(t, id, at).value.corrections, [row]);
    EdgesStay(t.outbox, t.revisions, row);
  }

  lemma BindingKeepsInv(t: Tables, now: Time, id: Id, b: Binding)
    requires Inv(t) && b.active && CreateBinding(t, now, id, b).Ok?
    ensures Inv(CreateBinding(t, now, id, b).value)
  {
    assert Lawful(t.promotions[b.promotion], t.authorizations, t.qualifications, t.revisions);
  }

  lemma RestrictionKeepsInv(t: Tables, id: Id, deactivate: bool, expiry: Option<Time>)
    requires Inv(t) && RestrictBinding(t, id, deactivate, expiry).Ok?
    ensures Inv(RestrictBinding(t, id, deactivate, expiry).value)
  {
    var t' := RestrictBinding(t, id, deactivate, expiry).value;
    assert BindingsOnlyRestricted(t.bindings, t'.bindings);
    BindingsStayLawful(t.bindings, t.promotions, t'.bindings, t.promotions);
  }

  lemma NextKeepsInv(t: Tables, s: Step)
    requires Inv(t)
    ensures Inv(Next(t, s))
  {
    if Attempt(t, s).Ok? {
      match s.op
      case OpIncident(_) =>
      case OpRootCause(_, _) =>
      case OpCorrection(id, incident) => CorrectionKeepsInv(t, id, incident);
      case OpRevision(key, row) => RevisionKeepsInv(t, key, row);
      case OpQualification(id, q) => QualificationKeepsInv(t, id, q);
      case OpPromote(r) => PromotionKeepsAuthority(t, s.now, r); PromotionKeepsEdges(t, s.now, r);
      case OpRevoke(id, at) => RevocationKeepsAuthority(t, id, at); RevocationKeepsEdges(t, id, at);
      case OpBind(id, b) => BindingKeepsInv(t, s.now, id, b.(active := true));
      case OpRestrict(id, deactivate, expiry) => RestrictionKeepsInv(t, id, deactivate, expiry);
    }
  }

  lemma {:induction false} ReachableInv(run: seq<Step>)
    ensures Inv(After(EMPTY, run))
  {
    if run != [] {
      ReachableInv(Front(run));
      NextKeepsInv(After(EMPTY, Front(run)), Last(run));
    }
  }
}
