/** The lifecycle tables as mutable state: the guarded functions update them in place. */
module LifecycleDb {
  import opened Prelude
  import opened LifecycleTables
  import opened LifecycleInvariants
  import opened LifecycleTheorems

  ghost predicate FoundBefore(t: Tables, start: Id, self: Id, n: nat) {
    exists m: nat :: m < n && QueryRow(t, start, m) == Some(self)
  }

  lemma FoundStep(t: Tables, start: Id, self: Id, n: nat)
    ensures FoundBefore(t, start, self, n + 1) <==>
      FoundBefore(t, start, self, n) || QueryRow(t, start, n) == Some(self)
  {
  }

  /** Once there is no row, the rows before it are all. */
  lemma FoundExactly(t: Tables, start: Id, self: Id, n: nat)
    requires QueryRow(t, start, n).None?
    ensures QueryFinds(t, start, self) <==> FoundBefore(t, start, self, n)
  {
    forall m: nat | n <= m ensures QueryRow(t, start, m).None? {
      EndsForGood(t, start, n, m);
    }
  }

  /**
   The recursive supersession query: every row it produces, then EXISTS over the rows.
   The loop ends because each row's edge is older than the one before it.
   */
  method CycleQuery(t: Tables, start: Id, self: Id) returns (found: bool)
    requires Inv(t)
    ensures found <==> QueryFinds(t, start, self)
  {
    var row := Some(start);
    found := false;
    ghost var n: nat := 0;
    while row.Some?
      invariant row == QueryRow(t, start, n)
      invariant found <==> FoundBefore(t, start, self, n)
      decreases if row.Some? then Depth(t, row.value) + 1 else 0
    {
      FoundStep(t, start, self, n);
      found := found || row.value == self;
      if CurrentTarget(t, row.value).Some? {
        DepthFalls(t, row.value);
      }
      n := n + 1;
      row := CurrentTarget(t, row.value);
    }
    FoundExactly(t, start, self, n);
  }

  lemma {:induction false} EndsForGood(t: Tables, start: Id, n: nat, m: nat)
    requires QueryRow(t, start, n).None? && n <= m
    ensures QueryRow(t, start, m).None?
    decreases m
  {
    if n < m {
      EndsForGood(t, start, n, m - 1);
    }
  }

  /** What NextKeepsInv gives a method that does not require the invariant. */
  lemma CallKeepsInv(t: Tables, s: Step)
    ensures Inv(t) ==> Inv(Next(t, s))
  {
    if Inv(t) { NextKeepsInv(t, s); }
  }

  /** The tables a call leaves behind. */
  function Kept(t: Tables, r: Result<Tables, Fault>): Tables {
    match r
    case Ok(u) => u
    case Error(_) => t
  }

  lemma AttemptKeepsInv(t: Tables, s: Step, r: Result<Tables, Fault>)
    requires Attempt(t, s) == r
    ensures Inv(t) ==> Inv(Kept(t, r))
  {
    CallKeepsInv(t, s);
    assert Next(t, s) == Kept(t, r);
  }

  /** The version column takes no part in the guards but its own. */
  lemma VersionWritten(t: Tables, now: Time, id: Id, b: Binding)
    requires b.active && b.adapterVersion.Some? && !Blank(b.adapterVersion.value)
    ensures CreateBinding(t, now, id, b) ==
            match CreateBinding(t, now, id, b.(adapterVersion := None))
            case Error(e) => Error(e)
            case Ok(_) => Ok(t.(bindings := t.bindings[id := b]))
  {
  }

  lemma RevisionKept(t: Tables, key: RevisionKey, row: Revision)
    ensures Inv(t) ==> Inv(Kept(t, InsertRevision(t, key, row)))
  {
    AttemptKeepsInv(t, Step(0, OpRevision(key, row)), InsertRevision(t, key, row));
  }

  lemma PromoteKeepsInv(t: Tables, now: Time, r: PromotionRequest)
    ensures Inv(t) ==> Inv(Kept(t, AuthorizeAndPromote(t, now, r)))
  {
    AttemptKeepsInv(t, Step(now, OpPromote(r)), AuthorizeAndPromote(t, now, r));
  }

  lemma BindKeepsInv(t: Tables, now: Time, id: Id, b: Binding)
    requires b.active
    ensures Inv(t) ==> Inv(Kept(t, CreateBinding(t, now, id, b)))
  {
    AttemptKeepsInv(t, Step(now, OpBind(id, b)), CreateBinding(t, now, id, b));
  }

  lemma EmptyInv()
    ensures Inv(EMPTY)
  {
  }

  class Database {
    var incidents: set<Id>
    var rootCauses: map<Id, Id>
    var corrections: map<Id, Correction>
    var revisions: map<RevisionKey, Revision>
    var qualifications: map<Id, Qualification>
    var authorizations: map<Id, Authorization>
    var promotions: map<Id, Promotion>
    var bindings: map<Id, Binding>
    var outbox: seq<OutboxRow>

    function Snapshot(): Tables
      reads this
    {
      Tables(incidents, rootCauses, corrections, revisions, qualifications, authorizations, promotions, bindings,
        outbox)
    }

    constructor ()
      ensures Snapshot() == EMPTY && Inv(Snapshot())
    {
      incidents, rootCauses, corrections, revisions := {}, map[], map[], map[];
      qualifications, authorizations, promotions, bindings, outbox := map[], map[], map[], map[], [];
      new;
      EmptyInv();
    }

    /** Abort the transaction. */
    method Rollback(t: Tables)
      modifies this
      ensures Snapshot() == t
    {
      incidents, rootCauses, corrections, revisions := t.incidents, t.rootCauses, t.corrections, t.revisions;
      qualifications, authorizations, promotions := t.qualifications, t.authorizations, t.promotions;
      bindings, outbox := t.bindings, t.outbox;
    }

    method InsertIncident(id: Id) returns (fault: Option<Fault>)
      modifies this`incidents
      ensures fault.None? <==> id !in old(incidents)
      ensures Snapshot() == Next(old(Snapshot()), Step(0, OpIncident(id)))
      ensures Inv(old(Snapshot())) ==> Inv(Snapshot())
    {
      CallKeepsInv(Snapshot(), Step(0, OpIncident(id)));
      if id in incidents {
        return Some(UniqueViolation);
      }
      incidents := incidents + {id};
      fault := None;
    }

    method InsertRootCause(id: Id, incident: Id) returns (fault: Option<Fault>)
      modifies this`rootCauses
      ensures fault.None? <==> id !in old(rootCauses) && incident in incidents
      ensures Snapshot() == Next(old(Snapshot()), Step(0, OpRootCause(id, incident)))
      ensures Inv(old(Snapshot())) ==> Inv(Snapshot())
    {
      CallKeepsInv(Snapshot(), Step(0, OpRootCause(id, incident)));
      if id in rootCauses {
        return Some(UniqueViolation);
      }
      if incident !in incidents {
        return Some(ForeignKeyViolation);
      }
      rootCauses := rootCauses[id := incident];
      fault := None;
    }

    method InsertCorrection(id: Id, incident: Id) returns (fault: Option<Fault>)
      modifies this`corrections
      ensures fault.None? <==> id !in old(corrections) && incident in incidents
      ensures Snapshot() == Next(old(Snapshot()), Step(0, OpCorrection(id, incident)))
      ensures Inv(old(Snapshot())) ==> Inv(Snapshot())
    {
      CallKeepsInv(Snapshot(), Step(0, OpCorrection(id, incident)));
      if id in corrections {
        return Some(UniqueViolation);
      }
      if incident !in incidents {
        return Some(ForeignKeyViolation);
      }
      corrections := corrections[id := Correction(incident, 0, Proposed)];
      fault := None;
    }

    /** The composite foreign key names a revision together with its digest. */
    method InsertQualification(id: Id, q: Qualification) returns (fault: Option<Fault>)
      modifies this`qualifications
      ensures fault.None? <==>
        id !in old(qualifications) && q.subject in revisions && revisions[q.subject].digest == q.digest
      ensures Snapshot() == Next(old(Snapshot()), Step(0, OpQualification(id, q)))
      ensures Inv(old(Snapshot())) ==> Inv(Snapshot())
    {
      CallKeepsInv(Snapshot(), Step(0, OpQualification(id, q)));
      if id in qualifications {
        return Some(UniqueViolation);
      }
      if q.subject !in revisions || revisions[q.subject].digest != q.digest {
        return Some(ForeignKeyViolation);
      }
      qualifications := qualifications[id := q];
      fault := None;
    }

    /** The row, and the correction's own projection. */
    method Append(key: RevisionKey, row: Revision)
      requires key.correction in corrections && key.revision >= 0
      modifies this`revisions, this`corrections
      ensures Snapshot() == AppendRevision(old(Snapshot()), key, row)
    {
      revisions := revisions[key := row];
      corrections := corrections[key.correction :=
        corrections[key.correction].(currentRevision := key.revision, status := Proposed)];
    }

    /** The superseding half of the apply trigger. */
    method Supersede(target: RevisionKey, source: RevisionKey)
      requires target.correction in corrections
      modifies this`corrections, this`bindings, this`outbox
      ensures Snapshot() == ApplySupersession(old(Snapshot()), target, source)
    {
      corrections := corrections[target.correction := corrections[target.correction].(status := Superseded)];
      bindings := Deactivated(bindings, promotions, target);
      outbox := outbox + [OutboxRow(SupersededKey(target), source)];
    }

    /** The row, the apply trigger, then the foreign key and the outbox's unique key, or nothing. */
    method InsertValidated(key: RevisionKey, row: Revision) returns (fault: Option<Fault>)
      requires ValidateRevision(Snapshot(), key, row).None? && key !in revisions
      modifies this
      ensures fault.None? <==> InsertRevision(old(Snapshot()), key, row).Ok?
      ensures fault.Some? ==> InsertRevision(old(Snapshot()), key, row) == Error(fault.value)
      ensures fault != Some(SupersessionCycle)
      ensures Snapshot() == Kept(old(Snapshot()), InsertRevision(old(Snapshot()), key, row))
    {
      fault := None;
      var saved := Snapshot();
      Append(key, row);
      if row.supersedes.Some? {
        var target := row.supersedes.value;
        if target !in revisions {
          fault := Some(ForeignKeyViolation);
        } else if HasKey(outbox, SupersededKey(target)) {
          fault := Some(UniqueViolation);
        } else {
          Supersede(target, key);
        }
      }
      if fault.Some? {
        Rollback(saved);
      }
    }

    /** The guard at the end of the validate trigger. */
    method CycleGuard(key: RevisionKey, row: Revision) returns (cycle: bool)
      requires Inv(Snapshot()) && ValidateRevision(Snapshot(), key, row).None?
      ensures !cycle
    {
      cycle := false;
      if row.supersedes.Some? {
        cycle := CycleQuery(Snapshot(), row.supersedes.value.correction, key.correction);
        CycleGuardNeverDecides(Snapshot(), key, row);
      }
    }

    /**
     Insert into correction_revisions: the validate trigger with its recursive query, then the rest.
     Although the query runs here, the result is that of the specification, which has no cycle guard.
     */
    method InsertCorrectionRevision(key: RevisionKey, row: Revision) returns (fault: Option<Fault>)
      requires Inv(Snapshot())
      modifies this
      ensures fault != Some(SupersessionCycle)
      ensures fault.None? <==> InsertRevision(old(Snapshot()), key, row).Ok?
      ensures fault.Some? ==> InsertRevision(old(Snapshot()), key, row) == Error(fault.value)
      ensures Snapshot() == match InsertRevision(old(Snapshot()), key, row)
                            case Ok(t) => t
                            case Error(_) => old(Snapshot())
      ensures Inv(Snapshot())
    {
      RevisionKept(Snapshot(), key, row);
      fault := ValidateRevision(Snapshot(), key, row);
      if fault.Some? {
        return;
      }
      var cycle := CycleGuard(key, row);
      if cycle {
        return Some(SupersessionCycle);
      }
      if key in revisions {
        return Some(UniqueViolation);
      }
      fault := InsertValidated(key, row);
    }

    /** authorize_and_promote: guards, authorization row, promotion trigger, promotion row, effects trigger. */
    method Promote(now: Time, r: PromotionRequest) returns (fault: Option<Fault>)
      modifies this
      ensures fault.None? <==> AuthorizeAndPromote(old(Snapshot()), now, r).Ok?
      ensures Snapshot() == match AuthorizeAndPromote(old(Snapshot()), now, r)
                            case Ok(t) => t
                            case Error(_) => old(Snapshot())
      ensures Inv(old(Snapshot())) ==> Inv(Snapshot())
    {
      PromoteKeepsInv(Snapshot(), now, r);
      fault := ValidateGrant(Snapshot(), r);
      if fault.Some? {
        return;
      }
      if r.authorization in authorizations {
        return Some(UniqueViolation);
      }
      var saved := Snapshot();
      authorizations := authorizations[r.authorization := Authorization(r.grant, r.irreversibleAcknowledged)];
      var p := Promotion(r.grant, r.authorization, now, None);
      fault := ValidatePromotion(Snapshot(), p);
      if fault.None? && (PromotionClashes(Snapshot(), r.promotion, p) || HasKey(outbox, PromotedKey(r.promotion))) {
        fault := Some(UniqueViolation);
      }
      if fault.Some? {
        Rollback(saved);
        return;
      }
      var c := r.grant.subject.correction;
      promotions := promotions[r.promotion := p];
      corrections := corrections[c := corrections[c].(status := Active)];
      outbox := outbox + [OutboxRow(PromotedKey(r.promotion), r.grant.subject)];
    }

    /** The revocation mark with its effects trigger. */
    method MarkRevoked(id: Id, at: Time)
      requires id in promotions
      modifies this`promotions, this`bindings, this`corrections, this`outbox
      ensures Snapshot() == ApplyRevocation(old(Snapshot()), id, at)
    {
      var s := promotions[id].grant.subject;
      promotions := promotions[id := promotions[id].(revokedAt := Some(at))];
      bindings := map b | b in bindings ::
        if bindings[b].promotion == id then bindings[b].(active := false) else bindings[b];
      if s.correction in corrections && corrections[s.correction].currentRevision == s.revision {
        corrections := corrections[s.correction := corrections[s.correction].(status := Revoked)];
      }
      outbox := outbox + [OutboxRow(RevokedKey(id), s)];
    }

    /** revoke_authorized_promotion with the protect trigger. */
    method Revoke(id: Id, at: Time) returns (fault: Option<Fault>)
      modifies this
      ensures fault.None? <==> RevokePromotion(old(Snapshot()), id, at).Ok?
      ensures Snapshot() == match RevokePromotion(old(Snapshot()), id, at)
                            case Ok(t) => t
                            case Error(_) => old(Snapshot())
      ensures Inv(old(Snapshot())) ==> Inv(Snapshot())
    {
      CallKeepsInv(Snapshot(), Step(at, OpRevoke(id, at)));
      if id !in promotions || promotions[id].revokedAt.Some? {
        return Some(UnknownPromotion);
      }
      if at < promotions[id].activatedAt {
        return Some(RevocationTooEarly);
      }
      if HasKey(outbox, RevokedKey(id)) {
        return Some(UniqueViolation);
      }
      MarkRevoked(id, at);
      fault := None;
    }

    /** create_authorized_binding: the row starts without an adapter version. */
    method Bind(now: Time, id: Id, b: Binding) returns (fault: Option<Fault>)
      requires b.active && b.adapterVersion.None?
      modifies this`bindings
      ensures fault.None? <==> CreateBinding(old(Snapshot()), now, id, b).Ok?
      ensures fault.Some? ==> CreateBinding(old(Snapshot()), now, id, b) == Error(fault.value)
      ensures Snapshot() == if fault.None? then old(Snapshot()).(bindings := old(bindings)[id := b])
        else old(Snapshot())
    {
      match CreateBinding(Snapshot(), now, id, b) {
        case Error(e) => fault := Some(e);
        case Ok(_) =>
          bindings := bindings[id := b];
          fault := None;
      }
    }

    /** The guarded insert, then the version written onto the new row. */
    method InsertVersioned(now: Time, id: Id, b: Binding) returns (fault: Option<Fault>)
      requires b.active && b.adapterVersion.Some?
      modifies this`bindings
      ensures fault.None? <==> CreateBinding(old(Snapshot()), now, id, b).Ok?
      ensures Snapshot() == match CreateBinding(old(Snapshot()), now, id, b)
                            case Ok(t) => t
                            case Error(_) => old(Snapshot())
    {
      if Blank(b.adapterVersion.value) {
        return Some(CheckViolation);
      }
      VersionWritten(Snapshot(), now, id, b);
      fault := Bind(now, id, b.(adapterVersion := None));
      if fault.None? {
        bindings := bindings[id := bindings[id].(adapterVersion := b.adapterVersion)];
      }
    }

    /** create_versioned_authorized_binding. */
    method BindVersioned(now: Time, id: Id, b: Binding) returns (fault: Option<Fault>)
      requires b.active && b.adapterVersion.Some?
      modifies this`bindings
      ensures fault.None? <==> CreateBinding(old(Snapshot()), now, id, b).Ok?
      ensures Snapshot() == match CreateBinding(old(Snapshot()), now, id, b)
                            case Ok(t) => t
                            case Error(_) => old(Snapshot())
      ensures Inv(old(Snapshot())) ==> Inv(Snapshot())
    {
      BindKeepsInv(Snapshot(), now, id, b);
      fault := InsertVersioned(now, id, b);
    }

    /** restrict_injection_binding: a binding can only become narrower in time. */
    method Restrict(id: Id, deactivate: bool, expiry: Option<Time>) returns (fault: Option<Fault>)
      modifies this`bindings
      ensures fault.None? <==> RestrictBinding(old(Snapshot()), id, deactivate, expiry).Ok?
      ensures Snapshot() == match RestrictBinding(old(Snapshot()), id, deactivate, expiry)
                            case Ok(t) => t
                            case Error(_) => old(Snapshot())
      ensures Inv(old(Snapshot())) ==> Inv(Snapshot())
    {
      CallKeepsInv(Snapshot(), Step(0, OpRestrict(id, deactivate, expiry)));
      if id !in bindings {
        return Some(UnknownBinding);
      }
      if !deactivate && expiry.None? {
        return Some(NothingToRestrict);
      }
      var b := bindings[id];
      if expiry.Some? && b.expiresAt.Some? && expiry.value > b.expiresAt.value {
        return Some(ExpiryExtended);
      }
      bindings := bindings[id := b.(
        active := if deactivate then false else b.active,
        expiresAt := if expiry.None? then b.expiresAt else expiry)];
      fault := None;
    }
  }
}
