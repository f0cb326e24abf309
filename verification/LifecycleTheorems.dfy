/** The lifecycle's promises over whole runs of guarded calls, from empty tables. */
module LifecycleTheorems {
  import opened Prelude
  import opened LifecycleTables
  import opened LifecycleInvariants

  // ---- no resurrection ----

  /** The binding row exists and the view does not show it. */
  predicate Withdrawn(t: Tables, now: Time, b: Id) {
    b in t.bindings && !Effective(t, now, b)
  }

  /** Why a withdrawn binding is out: five reasons, each of which no guarded call can undo. */
  lemma WithdrawnForGood(t: Tables, now: Time, b: Id)
    requires Inv(t) && b in t.bindings
    ensures t.bindings[b].promotion in t.promotions
    ensures
      var p := t.promotions[t.bindings[b].promotion];
      var s := p.grant.subject;
      && s.correction in t.corrections
      && s.revision <= t.corrections[s.correction].currentRevision
      && (Withdrawn(t, now, b) <==>
          || !t.bindings[b].active
          || p.revokedAt.Some?
          || (t.bindings[b].expiresAt.Some? && t.bindings[b].expiresAt.value <= now)
          || s.revision < t.corrections[s.correction].currentRevision
          || Terminal(t.corrections[s.correction].status))
  {
    assert LawfulBinding(t.bindings[b], t.promotions);
    assert Lawful(t.promotions[t.bindings[b].promotion], t.authorizations, t.qualifications, t.revisions);
  }

  /** Deactivated, or given an earlier expiry, and otherwise the same row. */
  predicate Narrower(b: Binding, b': Binding) {
    && b' == b.(active := b'.active, expiresAt := b'.expiresAt)
    && (b'.active ==> b.active)
    && (b.expiresAt.Some? ==> b'.expiresAt.Some? && b'.expiresAt.value <= b.expiresAt.value)
  }

  ghost predicate Narrowed(bs: map<Id, Binding>, bs': map<Id, Binding>) {
    forall b {:trigger bs[b]} {:trigger bs'[b]} | b in bs :: b in bs' && Narrower(bs[b], bs'[b])
  }

  /** Promotions are only ever revoked, once. */
  ghost predicate OnlyRevoked(ps: Promotions, ps': Promotions) {
    forall p | p in ps ::
      && p in ps' && ps'[p].grant == ps[p].grant
      && (ps[p].revokedAt.Some? ==> ps'[p].revokedAt == ps[p].revokedAt)
  }

  /** Corrections only ever advance, and a terminal one stands still. */
  ghost predicate Advanced(cs: Corrections, cs': Corrections) {
    forall c | c in cs ::
      && c in cs' && cs[c].currentRevision <= cs'[c].currentRevision
      && (Terminal(cs[c].status) ==>
            Terminal(cs'[c].status) && cs'[c].currentRevision == cs[c].currentRevision)
  }

  ghost predicate Monotone(t: Tables, t': Tables) {
    && Narrowed(t.bindings, t'.bindings)
    && OnlyRevoked(t.promotions, t'.promotions)
    && Advanced(t.corrections, t'.corrections)
  }

  lemma AppendMonotone(t: Tables, key: RevisionKey, row: Revision)
    requires ValidateRevision(t, key, row).None?
    ensures Monotone(t, AppendRevision(t, key, row))
  {
  }

  lemma SupersedeMonotone(t: Tables, target: RevisionKey, source: RevisionKey)
    requires target.correction in t.corrections
    ensures Monotone(t, ApplySupersession(t, target, source))
  {
  }

  lemma InsertMonotone(t: Tables, s: Step)
    requires s.op.OpIncident? || s.op.OpRootCause? || s.op.OpCorrection? || s.op.OpQualification?
    ensures Monotone(t, Next(t, s))
  {
    var u := Next(t, s);
    assert u.bindings == t.bindings && u.promotions == t.promotions;
    assert forall c | c in t.corrections :: c in u.corrections && u.corrections[c] == t.corrections[c];
  }

  lemma RevisionMonotone(t: Tables, s: Step)
    requires s.op.OpRevision?
    ensures Monotone(t, Next(t, s))
  {
    var key, row := s.op.key, s.op.row;
    if InsertRevision(t, key, row).Ok? {
      AppendMonotone(t, key, row);
      if row.supersedes.Some? {
        SupersedeMonotone(AppendRevision(t, key, row), row.supersedes.value, key);
      }
    }
  }

  lemma PromotionMonotone(t: Tables, s: Step)
    requires s.op.OpPromote?
    ensures Monotone(t, Next(t, s))
  {
  }

  lemma ApplyRevocationMonotone(t: Tables, id: Id, at: Time)
    requires id in t.promotions && t.promotions[id].revokedAt.None?
    ensures Monotone(t, ApplyRevocation(t, id, at))
  {
    var u := ApplyRevocation(t, id, at);
    assert Narrowed(t.bindings, u.bindings);
    assert OnlyRevoked(t.promotions, u.promotions);
  }

  lemma RevocationMonotone(t: Tables, s: Step)
    requires s.op.OpRevoke?
    ensures Monotone(t, Next(t, s))
  {
    if RevokePromotion(t, s.op.id, s.op.at).Ok? {
      ApplyRevocationMonotone(t, s.op.id, s.op.at);
    }
  }

  lemma BindingMonotone(t: Tables, s: Step)
    requires s.op.OpBind? || s.op.OpRestrict?
    ensures Monotone(t, Next(t, s))
  {
  }

  lemma NextMonotone(t: Tables, s: Step)
    ensures Monotone(t, Next(t, s))
  {
    match s.op
    case OpRevision(_, _) => RevisionMonotone(t, s);
    case OpPromote(_) => PromotionMonotone(t, s);
    case OpRevoke(_, _) => RevocationMonotone(t, s);
    case OpBind(_, _) => BindingMonotone(t, s);
    case OpRestrict(_, _, _) => BindingMonotone(t, s);
    case _ => InsertMonotone(t, s);
  }

  lemma NarrowedTransitive(a: map<Id, Binding>, b: map<Id, Binding>, c: map<Id, Binding>)
    requires Narrowed(a, b) && Narrowed(b, c)
    ensures Narrowed(a, c)
  {
  }

  lemma MonotoneTransitive(a: Tables, b: Tables, c: Tables)
    requires Monotone(a, b) && Monotone(b, c)
    ensures Monotone(a, c)
  {
    NarrowedTransitive(a.bindings, b.bindings, c.bindings);
  }

  lemma {:induction false} ChainMonotone(states: seq<Tables>, i: nat, j: nat)
    requires i <= j < |states|
    requires forall n {:trigger states[n]} | 0 <= n < |states| - 1 :: Monotone(states[n], states[n + 1])
    ensures Monotone(states[i], states[j])
    decreases j
  {
    if i < j {
      ChainMonotone(states, i, j - 1);
      assert Monotone(states[j - 1], states[j]);
      MonotoneTransitive(states[i], states[j - 1], states[j]);
    }
  }

  /** Runs are made of single calls, one after the other. */
  lemma {:induction false} AfterSplits(t: Tables, run: seq<Step>, more: seq<Step>)
    ensures After(t, run + more) == After(After(t, run), more) && (|run| == 1 ==> After(t, run) == Next(t, run[0]))
  {
    if more == [] {
      assert run + more == run;
    } else {
      assert Front(run + more) == run + Front(more) && Last(run + more) == Last(more);
      AfterSplits(t, run, Front(more));
    }
  }

  lemma StepMonotone(run: seq<Step>, n: nat)
    requires n < |run|
    ensures Monotone(After(EMPTY, run[..n]), After(EMPTY, run[..n + 1]))
  {
    assert Front(run[..n + 1]) == run[..n];
    NextMonotone(After(EMPTY, run[..n]), run[n]);
  }

  /** Over every run, later tables are Monotone in earlier ones. */
  lemma RunMonotone(run: seq<Step>, i: nat, j: nat)
    requires i <= j <= |run|
    ensures Monotone(After(EMPTY, run[..i]), After(EMPTY, run[..j]))
  {
    var states := seq(|run| + 1, n requires 0 <= n <= |run| => After(EMPTY, run[..n]));
    forall n {:trigger states[n]} | 0 <= n < |states| - 1 ensures Monotone(states[n], states[n + 1]) {
      StepMonotone(run, n);
    }
    ChainMonotone(states, i, j);
  }

  lemma MonotoneKeepsWithdrawn(t: Tables, t': Tables, now: Time, later: Time, b: Id)
    requires Inv(t) && Inv(t') && Monotone(t, t') && Withdrawn(t, now, b) && now <= later
    ensures Withdrawn(t', later, b)
  {
    WithdrawnForGood(t, now, b);
    WithdrawnForGood(t', later, b);
  }

  /**
   Over every run and every non-decreasing pair of observation times, a binding once out of the view never
   returns.
   */
  lemma NoResurrection(run: seq<Step>, i: nat, j: nat, now: Time, later: Time, b: Id)
    requires i <= j <= |run| && now <= later
    requires Withdrawn(After(EMPTY, run[..i]), now, b)
    ensures Withdrawn(After(EMPTY, run[..j]), later, b)
  {
    ReachableInv(run[..i]);
    ReachableInv(run[..j]);
    RunMonotone(run, i, j);
    MonotoneKeepsWithdrawn(After(EMPTY, run[..i]), After(EMPTY, run[..j]), now, later, b);
  }

  // ---- supersession over the whole history ----

  /** Some revision of d, current or not, superseded c. */
  ghost predicate Supersedes(t: Tables, d: Id, c: Id) {
    exists r, s :: EdgeAt(t, RevisionKey(d, r), RevisionKey(c, s))
  }

  predicate EdgeAt(t: Tables, source: RevisionKey, target: RevisionKey) {
    source in t.revisions && t.revisions[source].supersedes == Some(target)
  }

  ghost predicate Chain(t: Tables, p: seq<Id>) {
    |p| >= 2 && forall i | 0 <= i < |p| - 1 :: Supersedes(t, p[i], p[i + 1])
  }

  /** The outbox row that logged an edge. */
  lemma EdgeRow(t: Tables, d: Id, c: Id) returns (i: nat)
    requires Inv(t) && Supersedes(t, d, c)
    ensures i < |t.outbox| && IsEdge(t.outbox[i])
    ensures t.outbox[i].source.correction == d && t.outbox[i].key.target.correction == c
  {
    var r, s :| EdgeAt(t, RevisionKey(d, r), RevisionKey(c, s));
    assert OutboxRow(SupersededKey(RevisionKey(c, s)), RevisionKey(d, r)) in t.outbox;
    i :| 0 <= i < |t.outbox| && t.outbox[i] == OutboxRow(SupersededKey(RevisionKey(c, s)), RevisionKey(d, r));
  }

  /** Along a chain the rows only get older. */
  lemma {:induction false} ChainGetsOlder(t: Tables, p: seq<Id>) returns (first: nat, last: nat)
    requires Inv(t) && Chain(t, p)
    ensures last <= first < |t.outbox| && IsEdge(t.outbox[first]) && IsEdge(t.outbox[last])
    ensures t.outbox[first].source.correction == p[0]
    ensures t.outbox[last].key.target.correction == p[|p| - 1]
    ensures t.outbox[first].key.target.correction == p[1]
    decreases |p|
  {
    first := EdgeRow(t, p[0], p[1]);
    if |p| == 2 {
      last := first;
    } else {
      var rest := p[1..];
      forall i | 0 <= i < |rest| - 1 ensures Supersedes(t, rest[i], rest[i + 1]) {
        assert Supersedes(t, p[i + 1], p[i + 2]);
      }
      var second;
      second, last := ChainGetsOlder(t, rest);
      assert t.outbox[second].source.correction == t.outbox[first].key.target.correction;
    }
  }

  /** No correction supersedes itself through any chain of revisions ever inserted. */
  lemma SupersessionAcyclic(run: seq<Step>, p: seq<Id>)
    requires Chain(After(EMPTY, run), p)
    ensures p[0] != p[|p| - 1]
  {
    ReachableInv(run);
    var first, last := ChainGetsOlder(After(EMPTY, run), p);
  }

  /** Each correction is superseded by at most one revision, ever. */
  lemma SupersededAtMostOnce(run: seq<Step>, k1: RevisionKey, k2: RevisionKey, s1: RevisionKey, s2: RevisionKey)
    requires EdgeAt(After(EMPTY, run), k1, s1) && EdgeAt(After(EMPTY, run), k2, s2)
    requires s1.correction == s2.correction
    ensures k1 == k2 && s1 == s2
  {
    ReachableInv(run);
    var t := After(EMPTY, run);
    assert OutboxRow(SupersededKey(s1), k1) in t.outbox;
    assert OutboxRow(SupersededKey(s2), k2) in t.outbox;
    var i :| 0 <= i < |t.outbox| && t.outbox[i] == OutboxRow(SupersededKey(s1), k1);
    var j :| 0 <= j < |t.outbox| && t.outbox[j] == OutboxRow(SupersededKey(s2), k2);
    assert s1 == s2;
    assert i == j;
  }

  // ---- the recursive cycle query (0001:339-356) ----

  /** One recursive step: from a correction to what its current revision supersedes. */
  function CurrentTarget(t: Tables, c: Id): Option<Id> {
    if c !in t.corrections then None
    else
      var key := RevisionKey(c, t.corrections[c].currentRevision);
      if key in t.revisions && t.revisions[key].supersedes.Some?
      then Some(t.revisions[key].supersedes.value.correction)
      else None
  }

  /** Row n of the recursive query that starts at c, if the query gets that far. */
  function QueryRow(t: Tables, c: Id, n: nat): Option<Id> {
    if n == 0 then Some(c)
    else
      var prev := QueryRow(t, c, n - 1);
      if prev.None? then None else CurrentTarget(t, prev.value)
  }

  ghost predicate QueryFinds(t: Tables, c: Id, self: Id) {
    exists n :: QueryRow(t, c, n) == Some(self)
  }

  /** How far back in the outbox the correction's outgoing current edge lies; 0 when it has none. */
  ghost function Depth(t: Tables, c: Id): (d: nat)
    requires Inv(t)
    ensures CurrentTarget(t, c).None? ==> d == 0
    ensures CurrentTarget(t, c).Some? ==>
      && 0 < d <= |t.outbox| && IsEdge(t.outbox[d - 1])
      && t.outbox[d - 1].source.correction == c
      && t.outbox[d - 1].key.target.correction == CurrentTarget(t, c).value
  {
    if CurrentTarget(t, c).None? then 0
    else
      var key := RevisionKey(c, t.corrections[c].currentRevision);
      var row := OutboxRow(SupersededKey(t.revisions[key].supersedes.value), key);
      assert row in t.outbox;
      var i :| 0 <= i < |t.outbox| && t.outbox[i] == row;
      i + 1
  }

  lemma DepthFalls(t: Tables, c: Id)
    requires Inv(t) && CurrentTarget(t, c).Some?
    ensures Depth(t, CurrentTarget(t, c).value) < Depth(t, c)
  {
    var d := CurrentTarget(t, c).value;
    if CurrentTarget(t, d).Some? {
      assert t.outbox[Depth(t, d) - 1].source.correction == t.outbox[Depth(t, c) - 1].key.target.correction;
    }
  }

  lemma {:induction false} QueryRowFalls(t: Tables, c: Id, n: nat)
    requires Inv(t)
    ensures QueryRow(t, c, n).Some? ==> n + Depth(t, QueryRow(t, c, n).value) <= Depth(t, c)
  {
    if n > 0 {
      QueryRowFalls(t, c, n - 1);
      if QueryRow(t, c, n).Some? {
        DepthFalls(t, QueryRow(t, c, n - 1).value);
      }
    }
  }

  /** The recursive query stops from every start: it yields no more rows than the outbox, plus the first. */
  lemma CycleQueryTerminates(run: seq<Step>, c: Id, n: nat)
    requires n > |After(EMPTY, run).outbox|
    ensures QueryRow(After(EMPTY, run), c, n).None?
  {
    ReachableInv(run);
    QueryRowFalls(After(EMPTY, run), c, n);
  }

  /** When every other guard passes, the query cannot find the inserting correction: the cycle guard never decides. */
  lemma CycleGuardNeverDecides(t: Tables, key: RevisionKey, row: Revision)
    requires Inv(t) && ValidateRevision(t, key, row).None? && row.supersedes.Some?
    ensures !QueryFinds(t, row.supersedes.value.correction, key.correction)
  {
  }

  // ---- selectors and scopes, as the contexts they let through ----

  type Context = map<string, string>

  /** A flat object of strings, not empty, with no key or value of spaces only. */
  ghost predicate Proper(j: Jsonb) {
    j.Object? && j.fields.Items != {} && forall item | item in j.fields.Items :: ProperPair(item.0, item.1)
  }

  predicate ProperPair(key: string, value: Option<string>) {
    && (exists i :: 0 <= i < |key| && key[i] != ' ')
    && value.Some? && exists i :: 0 <= i < |value.value| && value.value[i] != ' '
  }

  /** The context has every pair of the object. */
  ghost predicate Holds(context: Context, j: Jsonb) {
    j.Object? && forall item | item in j.fields.Items :: item.1.Some? && (item.0, item.1.value) in context.Items
  }

  /** Both are proper, and every context the selector lets through is within the scope. */
  ghost predicate Narrows(selector: Jsonb, scope: Jsonb) {
    && Proper(selector) && Proper(scope)
    && forall context {:trigger Holds(context, selector)} | Holds(context, selector) :: Holds(context, scope)
  }

  lemma ProperExactly(j: Jsonb)
    ensures SelectorValid(j) <==> Proper(j)
  {
    if j.Object? {
      assert j.fields.Items != {} <==> j.fields != map[] by {
        if j.fields != map[] {
          var k :| k in j.fields;
          assert (k, j.fields[k]) in j.fields.Items;
        }
      }
      if Proper(j) {
        forall k | k in j.fields ensures !Blank(k) && j.fields[k].Some? && !Blank(j.fields[k].value) {
          assert (k, j.fields[k]) in j.fields.Items;
        }
      }
    }
  }

  /** Containment of the pairs is containment of the contexts. */
  lemma ScopeLaw(selector: Jsonb, scope: Jsonb)
    ensures SelectorWithinScope(selector, scope) <==> Narrows(selector, scope)
  {
    ProperExactly(selector);
    ProperExactly(scope);
    if SelectorWithinScope(selector, scope) {
      forall context | Holds(context, selector) ensures Holds(context, scope) {
        forall item | item in scope.fields.Items ensures item.1.Some? && (item.0, item.1.value) in context.Items {
          assert (item.0, selector.fields[item.0]) in selector.fields.Items;
        }
      }
    } else if Narrows(selector, scope) {
      var least: Context := map k | k in selector.fields && selector.fields[k].Some? :: selector.fields[k].value;
      forall item | item in selector.fields.Items ensures item.1.Some? && (item.0, item.1.value) in least.Items {
        assert least[item.0] == item.1.value;
      }
      assert Holds(least, selector);
      forall k | k in scope.fields ensures k in selector.fields && selector.fields[k] == scope.fields[k] {
        assert (k, scope.fields[k]) in scope.fields.Items;
      }
      assert false;
    }
  }

  // ---- authority lineage ----

  /**
   Everything behind an effective binding, traced to the tables it rests on; and every context its selector lets
   through is within the scope its promotion was authorized for.
   */
  lemma AuthorityLineage(run: seq<Step>, now: Time, b: Id)
    requires Effective(After(EMPTY, run), now, b)
    ensures
      var t := After(EMPTY, run);
      var p := t.promotions[t.bindings[b].promotion];
      var s := p.grant.subject;
      && p.revokedAt.None?
      && p.authorization in t.authorizations && t.authorizations[p.authorization].grant == p.grant
      && p.grant.policy.allow
      && s == RevisionKey(s.correction, t.corrections[s.correction].currentRevision)
      && s in t.revisions && t.revisions[s].digest == p.grant.digest
      && p.grant.qualification in t.qualifications
      && t.qualifications[p.grant.qualification] == Qualification(s, t.revisions[s].digest, true)
      && Narrows(t.bindings[b].selector, t.authorizations[p.authorization].grant.scope)
  {
    ReachableInv(run);
    var t := After(EMPTY, run);
    ScopeLaw(t.bindings[b].selector, t.promotions[t.bindings[b].promotion].grant.scope);
    assert LawfulBinding(t.bindings[b], t.promotions);
    assert Lawful(t.promotions[t.bindings[b].promotion], t.authorizations, t.qualifications, t.revisions);
  }

  /** The effective bindings of one correction all come from one promotion. */
  lemma OnePromotionPerCorrection(run: seq<Step>, now: Time, a: Id, b: Id)
    requires Effective(After(EMPTY, run), now, a) && Effective(After(EMPTY, run), now, b)
    requires
      var t := After(EMPTY, run);
      t.promotions[t.bindings[a].promotion].grant.subject.correction ==
      t.promotions[t.bindings[b].promotion].grant.subject.correction
    ensures After(EMPTY, run).bindings[a].promotion == After(EMPTY, run).bindings[b].promotion
  {
    ReachableInv(run);
  }

  /** ACTIVE means exactly: an unrevoked promotion of the current revision, and never superseded. */
  lemma ActiveMeaning(run: seq<Step>, c: Id)
    requires c in After(EMPTY, run).corrections
    ensures
      var t := After(EMPTY, run);
      t.corrections[c].status == Active <==>
        LivePromotion(t.promotions, t.corrections, c) && !exists d :: Supersedes(t, d, c)
  {
    ReachableInv(run);
    var t := After(EMPTY, run);
    if t.corrections[c].status == Active {
      assert LivePromotion(t.promotions, t.corrections, c);
      forall d ensures !Supersedes(t, d, c) {
        if Supersedes(t, d, c) {
          var i := EdgeRow(t, d, c);
        }
      }
    } else if LivePromotion(t.promotions, t.corrections, c) {
      assert EverSuperseded(t.outbox, c);
      var i :| 0 <= i < |t.outbox| && IsEdge(t.outbox[i]) && t.outbox[i].key.target.correction == c;
      var k, s := t.outbox[i].source, t.outbox[i].key.target;
      assert EdgeAt(t, RevisionKey(k.correction, k.revision), RevisionKey(s.correction, s.revision));
      assert Supersedes(t, k.correction, c);
    }
  }

  /**
   Authority can always be withdrawn: an unrevoked promotion can be revoked at any time from its activation on,
   exactly once.
   */
  lemma RevocationAlwaysPossible(run: seq<Step>, id: Id, at: Time)
    ensures
      var t := After(EMPTY, run);
      RevokePromotion(t, id, at).Ok? <==>
        id in t.promotions && t.promotions[id].revokedAt.None? && t.promotions[id].activatedAt <= at
  {
    ReachableInv(run);
  }

  // ---- authority can be granted ----

  /** A request the promotion guards have no objection to, for the first revision of a correction. */
  ghost predicate Grantable(r: PromotionRequest, c: Id, row: Revision, q: Id) {
    var g := r.grant;
    && g.subject == RevisionKey(c, 1) && g.digest == row.digest && g.qualification == q
    && Proper(g.scope) && g.rollback != map[] && g.policy.allow && r.rootCauseSupported && !r.ambiguous
    && (row.reversible || r.irreversibleAcknowledged)
    && !Blank(g.policy.name) && !Blank(g.policy.version) && !Blank(g.approvedBy)
  }

  /** A binding the binding guards have no objection to, under this promotion. */
  ghost predicate Bindable(b: Binding, r: PromotionRequest, now: Time) {
    && b.promotion == r.promotion && !Blank(b.adapter) && !Blank(b.selectorDigest)
    && b.adapterVersion.Some? && !Blank(b.adapterVersion.value)
    && Narrows(b.selector, r.grant.scope) && b.active && (b.expiresAt.Some? ==> b.expiresAt.value > now)
  }

  /** The tables with one more correction, whose first revision passed qualification. */
  function WithQualified(t: Tables, incident: Id, c: Id, row: Revision, q: Id): Tables {
    t.(corrections := t.corrections[c := Correction(incident, 1, Proposed)],
       revisions := t.revisions[RevisionKey(c, 1) := row],
       qualifications := t.qualifications[q := Qualification(RevisionKey(c, 1), row.digest, true)])
  }

  function QualifiedBy(t: Tables, now: Time, incident: Id, c: Id, row: Revision, q: Id): Tables {
    var t1 := Next(t, Step(now, OpCorrection(c, incident)));
    var t2 := Next(t1, Step(now, OpRevision(RevisionKey(c, 1), row)));
    Next(t2, Step(now, OpQualification(q, Qualification(RevisionKey(c, 1), row.digest, true))))
  }

  lemma QualifiesNew(t: Tables, now: Time, incident: Id, c: Id, row: Revision, q: Id)
    requires Inv(t) && incident in t.incidents && c !in t.corrections && q !in t.qualifications
    requires row.supersedes.None? && row.rootCause.None?
    ensures QualifiedBy(t, now, incident, c, row, q) == WithQualified(t, incident, c, row, q)
    ensures Inv(WithQualified(t, incident, c, row, q))
  {
    var s1, s2 := Step(now, OpCorrection(c, incident)), Step(now, OpRevision(RevisionKey(c, 1), row));
    var t1 := Next(t, s1);
    NextKeepsInv(t, s1);
    NextKeepsInv(t1, s2);
    NextKeepsInv(Next(t1, s2), Step(now, OpQualification(q, Qualification(RevisionKey(c, 1), row.digest, true))));
    assert RevisionKey(c, 1) !in t.revisions;
    assert t1.corrections[c := Correction(incident, 1, Proposed)] ==
      t.corrections[c := Correction(incident, 1, Proposed)];
  }

  lemma PromotesWhenGrantable(t: Tables, now: Time, r: PromotionRequest, c: Id, row: Revision, q: Id)
    requires Inv(t) && Grantable(r, c, row, q)
    requires c in t.corrections && t.corrections[c].currentRevision == 1 && t.corrections[c].status == Proposed
    requires RevisionKey(c, 1) in t.revisions && t.revisions[RevisionKey(c, 1)] == row
    requires q in t.qualifications && t.qualifications[q] == Qualification(RevisionKey(c, 1), row.digest, true)
    requires r.authorization !in t.authorizations && r.promotion !in t.promotions
    requires forall p | p in t.promotions :: t.promotions[p].grant.subject.correction != c
    ensures AuthorizeAndPromote(t, now, r).Ok?
    ensures
      var u := AuthorizeAndPromote(t, now, r).value;
      && r.promotion in u.promotions && u.promotions[r.promotion] == Promotion(r.grant, r.authorization, now, None)
      && r.authorization in u.authorizations && u.authorizations[r.authorization].grant == r.grant
      && c in u.corrections && u.corrections[c].status == Active && u.corrections[c].currentRevision == 1
      && u.bindings == t.bindings
  {
    ProperExactly(r.grant.scope);
    forall p | p in t.promotions ensures t.promotions[p].authorization != r.authorization {
      assert Lawful(t.promotions[p], t.authorizations, t.qualifications, t.revisions);
    }
    assert !HasKey(t.outbox, PromotedKey(r.promotion));
  }

  lemma BindsWhenBindable(t: Tables, now: Time, id: Id, b: Binding, r: PromotionRequest)
    requires Inv(t) && Bindable(b, r, now) && id !in t.bindings
    requires r.promotion in t.promotions && t.promotions[r.promotion] == Promotion(r.grant, r.authorization, now, None)
    requires r.authorization in t.authorizations && t.authorizations[r.authorization].grant == r.grant
    requires
      var s := r.grant.subject;
      s.correction in t.corrections && t.corrections[s.correction].status == Active
      && t.corrections[s.correction].currentRevision == s.revision
    requires forall o | o in t.bindings :: t.bindings[o].promotion != r.promotion
    ensures CreateBinding(t, now, id, b).Ok? && Effective(CreateBinding(t, now, id, b).value, now, id)
  {
    ScopeLaw(b.selector, r.grant.scope);
  }

  lemma NextPromotes(t: Tables, now: Time, r: PromotionRequest, u: Tables)
    requires Inv(t) && AuthorizeAndPromote(t, now, r) == Ok(u)
    ensures Next(t, Step(now, OpPromote(r))) == u && Inv(u)
  {
    assert Attempt(t, Step(now, OpPromote(r))) == Ok(u);
    NextKeepsInv(t, Step(now, OpPromote(r)));
  }

  lemma NextBinds(t: Tables, now: Time, id: Id, b: Binding)
    requires b.active && CreateBinding(t, now, id, b).Ok?
    ensures Next(t, Step(now, OpBind(id, b))) == CreateBinding(t, now, id, b).value
  {
    assert b.(active := true) == b;
  }

  lemma PromotedBinds(t: Tables, now: Time, r: PromotionRequest, c: Id, row: Revision, q: Id, id: Id, b: Binding)
    requires Inv(t) && Grantable(r, c, row, q) && Bindable(b, r, now)
    requires c in t.corrections && t.corrections[c].currentRevision == 1 && t.corrections[c].status == Proposed
    requires RevisionKey(c, 1) in t.revisions && t.revisions[RevisionKey(c, 1)] == row
    requires q in t.qualifications && t.qualifications[q] == Qualification(RevisionKey(c, 1), row.digest, true)
    requires r.authorization !in t.authorizations && r.promotion !in t.promotions && id !in t.bindings
    requires forall p | p in t.promotions :: t.promotions[p].grant.subject.correction != c
    ensures Effective(Next(Next(t, Step(now, OpPromote(r))), Step(now, OpBind(id, b))), now, id)
  {
    PromotesWhenGrantable(t, now, r, c, row, q);
    var u := AuthorizeAndPromote(t, now, r).value;
    NextPromotes(t, now, r, u);
    NewIsUnbound(t, r.promotion);
    BindsWhenBindable(u, now, id, b, r);
    NextBinds(u, now, id, b);
  }

  /**
   From every state the guarded calls reach, authority can be granted: a new correction whose first revision
   passed qualification on its exact digest can be promoted and bound, and the binding is effective.
   */
  lemma AuthorityCanBeGranted(
    run: seq<Step>, now: Time, incident: Id, c: Id, row: Revision, q: Id, r: PromotionRequest, id: Id, b: Binding)
    requires
      var t := After(EMPTY, run);
      && incident in t.incidents && c !in t.corrections && q !in t.qualifications
      && r.authorization !in t.authorizations && r.promotion !in t.promotions && id !in t.bindings
    requires row.supersedes.None? && row.rootCause.None? && Grantable(r, c, row, q) && Bindable(b, r, now)
    ensures
      var t := QualifiedBy(After(EMPTY, run), now, incident, c, row, q);
      Effective(Next(Next(t, Step(now, OpPromote(r))), Step(now, OpBind(id, b))), now, id)
  {
    ReachableInv(run);
    QualifiesNew(After(EMPTY, run), now, incident, c, row, q);
    NewIsUnpromoted(After(EMPTY, run), c);
    PromotedBinds(WithQualified(After(EMPTY, run), incident, c, row, q), now, r, c, row, q, id, b);
  }

  lemma NewIsUnpromoted(t: Tables, c: Id)
    requires Inv(t) && c !in t.corrections
    ensures forall p | p in t.promotions :: t.promotions[p].grant.subject.correction != c
  {
    forall p | p in t.promotions ensures t.promotions[p].grant.subject.correction != c {
      assert Lawful(t.promotions[p], t.authorizations, t.qualifications, t.revisions);
    }
  }

  lemma NewIsUnbound(t: Tables, p: Id)
    requires Inv(t) && p !in t.promotions
    ensures forall o | o in t.bindings :: t.bindings[o].promotion != p
  {
    forall o | o in t.bindings ensures t.bindings[o].promotion != p {
      assert LawfulBinding(t.bindings[o], t.promotions);
    }
  }
}
