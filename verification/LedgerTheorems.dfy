/** What the ledger's calls do, exactly: who gets promoted, what a revocation ends, and which events are stored. */
module LedgerTheorems {
  import opened Prelude
  import opened Json
  import opened Validation
  import opened Ledger

  // ---- who gets promoted ----

  predicate Covers(tests: seq<TestResult>, kind: string) { exists i :: 0 <= i < |tests| && tests[i].kind == kind }

  /** The qualification is about exactly this revision, covers every required kind, and no test failed. */
  ghost predicate Backs(c: CorrectionRevision, q: Qualification) {
    && (q.correction, q.revision, q.digest) == (c.correction, c.revision, c.digest)
    && Covers(q.tests, "MFT") && Covers(q.tests, "CONTRAST") && Covers(q.tests, "TRANSFER")
    && Covers(q.tests, "RETAIN") && Covers(q.tests, "ANTI_TRIGGER")
    && (forall i | 0 <= i < |q.tests| :: q.tests[i].kind in KINDS && q.tests[i].passed)
  }

  /** The only report of a qualification that passes. */
  function PassingReport(q: Qualification): Report {
    Report(q.correction, q.revision, q.digest, q.suite, REQUIRED_KINDS, true, true, {}, [], [])
  }

  /** The policy allowed it, for a passing report on this very qualification, with a scope and a way back. */
  ghost predicate Approves(auth: Authorization, q: Qualification) {
    && auth.allow && auth.report == PassingReport(q)
    && auth.scope.Some? && auth.scope.value.Items != {} && auth.rollback.Some? && auth.rollback.value.Items != {}
  }

  lemma ItemsEmpty(m: Terms)
    ensures m.Items == {} <==> m == map[]
  {
    if m != map[] {
      var k :| k in m;
      assert (k, m[k]) in m.Items;
    }
  }

  lemma PassesAs(c: CorrectionRevision, q: Qualification)
    ensures Evaluated(c, q, REQUIRED_KINDS).value.passed <==> Backs(c, q)
    ensures Backs(c, q) ==> Evaluated(c, q, REQUIRED_KINDS).value == PassingReport(q)
  {
    PassesExactly(c, q, REQUIRED_KINDS);
  }

  lemma GivenAs(m: Option<Terms>)
    ensures Given(m) <==> m.Some? && m.value.Items != {}
  {
    if m.Some? { ItemsEmpty(m.value); }
  }

  /** The first check that fails, if any. */
  ghost function Objection(l: Ledger, id: string, revision: int, qid: string, auth: Authorization): Option<Fault> {
    if !auth.allow then Some(PromotionRejected)
    else if id !in l.corrections then Some(UnknownCorrection)
    else if revision != |l.corrections[id].revisions| || revision < 1 then Some(StaleQualification)
    else if qid !in l.qualifications then Some(UnknownQualification)
    else
      var c, q := l.corrections[id].revisions[revision - 1], l.qualifications[qid];
      if (q.correction, q.revision, q.digest) != (c.correction, c.revision, c.digest) then Some(StaleQualification)
      else if Backs(c, q) && Approves(auth, q) then None
      else Some(PromotionRejected)
  }

  lemma RefusesFirst(l: Ledger, id: string, revision: int, qid: string, auth: Authorization)
    requires AllVersioned(l.corrections)
    ensures PromotionRefusal(l, id, revision, qid, auth) == Objection(l, id, revision, qid, auth)
  {
    GivenAs(auth.scope);
    GivenAs(auth.rollback);
    if id in l.corrections {
      var f := l.corrections[id];
      assert Versioned(id, f);
      CurrentIs(id, f);
      if qid in l.qualifications { PassesAs(Last(f.revisions), l.qualifications[qid]); }
    }
  }

  /**
   Whatever the authorization: a promotion is recorded exactly when the policy allowed it, the revision is the
   correction's last, and its qualification backs that revision under the very report that was authorized. Otherwise
   nothing changes and the first failing check is named.
   */
  lemma PromotesExactly(l: Ledger, newId: string, id: string, revision: int, qid: string, auth: Authorization)
    requires Inv(l)
    ensures
      var objection := Objection(l, id, revision, qid, auth);
      Promote(l, newId, id, revision, qid, auth) ==
        if objection.Some? then (l, objection)
        else
          (l.(promotions := l.promotions[newId :=
             Promotion(id, revision, qid, auth.scope.value, auth.rollback.value, false)]), None)
  {
    RefusesFirst(l, id, revision, qid, auth);
  }

  // ---- where promotions come from ----

  /** The call that recorded the promotion, allowed and backed when it was made. */
  ghost predicate Grants(l: Ledger, c: Call, id: string, p: Promotion) {
    && c.Promotes? && c.newId == id && c.auth.allow
    && Objection(l, c.correction, c.revision, c.qualificationId, c.auth).None?
    && p == Promotion(c.correction, c.revision, c.qualificationId, c.auth.scope.value, c.auth.rollback.value, p.revoked)
  }

  lemma PromoteAdds(
    l: Ledger, newId: string, correction: string, revision: int, qid: string, auth: Authorization, id: string)
    requires Inv(l) && id in Promote(l, newId, correction, revision, qid, auth).0.promotions
    ensures
      var p := Promote(l, newId, correction, revision, qid, auth).0.promotions[id];
      || (id in l.promotions && p == l.promotions[id])
      || (id == newId && auth.allow && Objection(l, correction, revision, qid, auth).None?
          && p == Promotion(correction, revision, qid, auth.scope.value, auth.rollback.value, false))
  {
    PromotesExactly(l, newId, correction, revision, qid, auth);
  }

  lemma NextPromotions(l: Ledger, c: Call, id: string)
    requires Inv(l) && id in Next(l, c).promotions
    ensures
      var p := Next(l, c).promotions[id];
      Grants(l, c, id, p) || (id in l.promotions && p == l.promotions[id].(revoked := p.revoked))
  {
    if c.Promotes? {
      PromoteAdds(l, c.newId, c.correction, c.revision, c.qualificationId, c.auth, id);
    } else {
      OnlyPromotes(l, c);
    }
  }

  /** Only promote and revoke touch the promotions. */
  lemma OnlyPromotes(l: Ledger, c: Call)
    requires !c.Promotes?
    ensures Next(l, c).promotions ==
      if c.Revokes? && c.id in l.promotions then l.promotions[c.id := l.promotions[c.id].(revoked := true)]
      else l.promotions
  {
    if c.Submits? { SubmitUntouched(l, c.newId, c.key, c.payload); }
  }

  /** The k-th call of the run recorded the promotion. */
  ghost predicate GrantedBy(calls: seq<Call>, k: nat, id: string, p: Promotion) {
    k < |calls| && Grants(After(calls[..k]), calls[k], id, p)
  }

  lemma GrantedLast(calls: seq<Call>, id: string, p: Promotion)
    requires calls != [] && Grants(After(Front(calls)), Last(calls), id, p)
    ensures GrantedBy(calls, |calls| - 1, id, p)
  {
  }

  lemma GrantedEarlier(calls: seq<Call>, k: nat, id: string, p: Promotion, q: Promotion)
    requires calls != [] && GrantedBy(Front(calls), k, id, p) && q == p.(revoked := q.revoked)
    ensures GrantedBy(calls, k, id, q)
  {
    var before := Front(calls);
    assert before[..k] == calls[..k] && before[k] == calls[k];
    GrantsEither(After(calls[..k]), calls[k], id, p, q);
  }

  /**
   Over every run: each promotion in the ledger was recorded by a promote call whose authorization the policy had
   allowed and that no check objected to, and it still carries that call's terms.
   */
  lemma {:induction false} PromotionsWereGranted(calls: seq<Call>, id: string) returns (k: nat)
    requires ProperRun(EMPTY, calls) && id in After(calls).promotions
    ensures GrantedBy(calls, k, id, After(calls).promotions[id])
    decreases |calls|
  {
    var before := Front(calls);
    ProperBefore(EMPTY, calls);
    RunKept(EMPTY, before);
    NextPromotions(After(before), Last(calls), id);
    var p := After(calls).promotions[id];
    if Grants(After(before), Last(calls), id, p) {
      k := |before|;
      GrantedLast(calls, id, p);
    } else {
      k := PromotionsWereGranted(before, id);
      GrantedEarlier(calls, k, id, After(before).promotions[id], p);
    }
  }

  lemma GrantsEither(l: Ledger, c: Call, id: string, p: Promotion, q: Promotion)
    requires Grants(l, c, id, p) && q == p.(revoked := q.revoked)
    ensures Grants(l, c, id, q)
  {
  }

  // ---- what a revocation ends ----

  /** A revocation marks the promotion it names, if there is one, and touches nothing else. */
  lemma RevokesExactly(l: Ledger, id: string)
    ensures Revoke(l, id).1.None? <==> id in l.promotions
    ensures
      var m := Revoke(l, id).0;
      && m == l.(promotions := m.promotions) && m.promotions.Keys == l.promotions.Keys
      && forall x | x in l.promotions ::
           var p := l.promotions[x];
           m.promotions[x] ==
             Promotion(p.correction, p.revision, p.qualification, p.scope, p.rollback, p.revoked || x == id)
  {
  }

  /** No call draws the promotion's id again. */
  ghost predicate NotRedrawn(calls: seq<Call>, id: string) {
    forall k {:trigger calls[k]} | 0 <= k < |calls| :: calls[k].Promotes? ==> calls[k].newId != id
  }

  ghost predicate SomeRevokes(calls: seq<Call>, id: string) {
    exists k :: 0 <= k < |calls| && calls[k] == Revokes(id)
  }

  /**
   Over every run that does not draw its id again, a promotion keeps its terms, and it is revoked afterwards exactly
   when it was revoked before or some call of the run revoked it.
   */
  lemma {:induction false} RevokedForGoodExactly(l: Ledger, calls: seq<Call>, id: string)
    requires id in l.promotions && NotRedrawn(calls, id)
    ensures
      var p := l.promotions[id];
      && id in From(l, calls).promotions
      && From(l, calls).promotions[id] ==
           Promotion(p.correction, p.revision, p.qualification, p.scope, p.rollback,
             p.revoked || SomeRevokes(calls, id))
    decreases |calls|
  {
    if calls != [] {
      var before := Front(calls);
      forall k {:trigger before[k]} | 0 <= k < |before| ensures before[k].Promotes? ==> before[k].newId != id {
        assert before[k] == calls[k];
      }
      RevokedForGoodExactly(l, before, id);
      SomeRevokesSnoc(calls, id);
      assert Last(calls) == calls[|calls| - 1];
      KeepsOthers(From(l, before), Last(calls), id);
    }
  }

  lemma SomeRevokesSnoc(calls: seq<Call>, id: string)
    requires calls != []
    ensures SomeRevokes(calls, id) <==> SomeRevokes(Front(calls), id) || Last(calls) == Revokes(id)
  {
    if SomeRevokes(Front(calls), id) {
      var k :| 0 <= k < |Front(calls)| && Front(calls)[k] == Revokes(id);
      assert calls[k] == Revokes(id);
    }
    if Last(calls) == Revokes(id) { assert calls[|calls| - 1] == Revokes(id); }
    if SomeRevokes(calls, id) {
      var k :| 0 <= k < |calls| && calls[k] == Revokes(id);
      if k < |calls| - 1 { assert Front(calls)[k] == Revokes(id); }
    }
  }

  lemma KeepsOthers(l: Ledger, c: Call, id: string)
    requires id in l.promotions && (c.Promotes? ==> c.newId != id)
    ensures id in Next(l, c).promotions
    ensures Next(l, c).promotions[id] == l.promotions[id].(revoked := l.promotions[id].revoked || c == Revokes(id))
  {
    if !c.Promotes? { OnlyPromotes(l, c); }
  }

  // ---- what the default policy allows ----

  predicate Visible(text: string) { exists i :: 0 <= i < |text| && text[i] !in WHITE }

  ghost predicate Readable(m: Option<Terms>) {
    m.Some? ==> forall item | item in m.value.Items :: Visible(item.0) && Visible(item.1)
  }

  lemma ReadableExactly(m: Option<Terms>)
    ensures TermsOk(m) <==> Readable(m)
  {
    if TermsOk(m) && m.Some? {
      forall item | item in m.value.Items ensures Visible(item.0) && Visible(item.1) {
        assert !White(item.0) && !White(item.1);
      }
    }
    if Readable(m) && m.Some? {
      forall k | k in m.value ensures !White(k) && !White(m.value[k]) { assert (k, m.value[k]) in m.value.Items; }
    }
  }

  /**
   An authorization is made exactly when its terms are readable. It carries the terms and the canonical report, and
   the policy allows it exactly when the qualification backs the revision, the root cause is supported and not
   ambiguous, there are a scope and a way back, and an irreversible correction is acknowledged.
   */
  lemma AllowsExactly(
    c: CorrectionRevision, q: Qualification, g: Grounds, scope: Option<Terms>, rollback: Option<Terms>)
    ensures AuthorizePromotion(c, q, g, scope, rollback).Some? <==> Readable(scope) && Readable(rollback)
    ensures Readable(scope) && Readable(rollback) ==>
      var auth := AuthorizePromotion(c, q, g, scope, rollback).value;
      && (auth.scope, auth.rollback) == (scope, rollback)
      && (Backs(c, q) ==> auth.report == PassingReport(q))
      && (auth.allow <==>
            && Backs(c, q) && g.rootCauseSupported && !g.ambiguous && (c.reversible || g.irreversibleAcknowledged)
            && scope.Some? && scope.value.Items != {} && rollback.Some? && rollback.value.Items != {})
  {
    ReadableExactly(scope);
    ReadableExactly(rollback);
    GivenAs(scope);
    GivenAs(rollback);
    PassesAs(c, q);
  }

  /** So with the default policy, allowing and promoting agree: what it allows for the last revision is promoted. */
  lemma AllowedIsPromoted(
    l: Ledger, newId: string, id: string, qid: string, g: Grounds, scope: Option<Terms>, rollback: Option<Terms>)
    requires Inv(l) && id in l.corrections && qid in l.qualifications
    requires Readable(scope) && Readable(rollback)
    ensures
      var n := |l.corrections[id].revisions|;
      n >= 1 &&
      var c := l.corrections[id].revisions[n - 1];
      var auth := AuthorizePromotion(c, l.qualifications[qid], g, scope, rollback);
      auth.Some? && (Promote(l, newId, id, n, qid, auth.value).1.None? <==> auth.value.allow)
  {
    var f := l.corrections[id];
    assert Versioned(id, f);
    var c := f.revisions[|f.revisions| - 1];
    AllowsExactly(c, l.qualifications[qid], g, scope, rollback);
    PromotesExactly(
      l, newId, id, |f.revisions|, qid, AuthorizePromotion(c, l.qualifications[qid], g, scope, rollback).value);
  }

  // ---- revisions, qualifications and events ----

  /** A correction is created exactly for a known incident, under a new id that is not empty, with a JSON payload. */
  lemma CreatesExactly(l: Ledger, incident: string, id: string, payload: Fields, reversible: bool)
    ensures
      var (m, r) := CreateCorrection(l, incident, id, payload, reversible);
      && (r.Ok? <==> incident in l.incidents && id !in l.corrections && Dumpable(Dict(payload)) && id != "")
      && (r.Error? ==> m == l)
      && (r.Ok? ==>
            && r.value == CorrectionRevision(id, 1, DigestOf(Dict(payload)), Freeze(Dict(payload)), reversible)
            && m == l.(corrections := m.corrections) && m.corrections.Keys == l.corrections.Keys + {id}
            && m.corrections[id] == Family(incident, [r.value])
            && forall x | x in l.corrections :: m.corrections[x] == l.corrections[x])
  {
  }

  /** A revision is appended exactly to a known correction with a JSON payload; it stays reversible unless changed. */
  lemma RevisesExactly(l: Ledger, id: string, payload: Fields, changed: Option<bool>)
    requires Inv(l)
    ensures
      var (m, r) := ReviseCorrection(l, id, payload, changed);
      && (r.Ok? <==> id in l.corrections && Dumpable(Dict(payload))) && (r.Error? ==> m == l)
      && (r.Ok? ==>
            var f := l.corrections[id];
            && f.revisions != []
            && r.value == CorrectionRevision(
                 id, |f.revisions| + 1, DigestOf(Dict(payload)), Freeze(Dict(payload)),
                 match changed case Some(now) => now case None => Last(f.revisions).reversible)
            && m == l.(corrections := m.corrections) && m.corrections.Keys == l.corrections.Keys
            && m.corrections[id] == Family(f.incident, f.revisions + [r.value])
            && forall x | x in l.corrections && x != id :: m.corrections[x] == l.corrections[x])
  {
    if id in l.corrections {
      assert Versioned(id, l.corrections[id]);
      CurrentIs(id, l.corrections[id]);
    }
  }

  /** A qualification is recorded exactly under a new id and for an existing revision with exactly that digest. */
  lemma QualifiesExactly(l: Ledger, id: string, q: Qualification)
    requires Inv(l)
    ensures
      var (m, refusal) := RecordQualification(l, id, q);
      && (refusal.None? <==>
            && id !in l.qualifications && q.correction in l.corrections
            && 1 <= q.revision <= |l.corrections[q.correction].revisions|
            && l.corrections[q.correction].revisions[q.revision - 1].digest == q.digest)
      && m == if refusal.None? then l.(qualifications := l.qualifications[id := q]) else l
  {
    if q.correction in l.corrections {
      assert Versioned(q.correction, l.corrections[q.correction]);
      RevisionIs(q.correction, l.corrections[q.correction], q.revision);
    }
  }

  /** No stored event has the key; an empty key is no key. */
  ghost predicate Unused(events: seq<Event>, key: Option<string>) {
    key.None? || key.value == "" || forall i | 0 <= i < |events| :: events[i].key != key
  }

  lemma UsedKey(l: Ledger, key: string)
    requires Identified(l.events, l.eventByKey) && key in l.eventByKey
    ensures l.eventByKey[key] in l.events && l.eventByKey[key].key == Some(key) && !Unused(l.events, Some(key))
  {
    var e := l.eventByKey[key];
    var i :| 0 <= i < |l.events| && l.events[i] == e;
    assert l.events[i].key == Some(key);
  }

  lemma UnusedKey(l: Ledger, key: Option<string>)
    requires Identified(l.events, l.eventByKey)
    requires key.None? || key.value == "" || key.value !in l.eventByKey
    ensures Unused(l.events, key)
  {
    if key.Some? && key.value != "" {
      forall i | 0 <= i < |l.events| ensures l.events[i].key != key { assert Filed(l.events[i], l.eventByKey); }
    }
  }

  lemma UnusedExactly(l: Ledger, key: Option<string>)
    requires Inv(l)
    ensures Unused(l.events, key) <==> !(key.Some? && key.value != "" && key.value in l.eventByKey)
    ensures !Unused(l.events, key) ==> l.eventByKey[key.value] in l.events && l.eventByKey[key.value].key == key
  {
    if key.Some? && key.value != "" && key.value in l.eventByKey { UsedKey(l, key.value); } else { UnusedKey(l, key); }
  }

  /** An event for a known incident, with a JSON payload, under no key or an unused one is stored. */
  lemma AppendsNew(l: Ledger, incident: string, eventType: string, payload: Fields, key: Option<string>)
    requires Inv(l) && incident in l.incidents && Dumpable(Dict(payload)) && Unused(l.events, key)
    ensures
      var (m, r) := AppendEvent(l, incident, eventType, payload, key);
      && r.Ok? && !r.value.1 && m == l.(events := l.events + [r.value.0], eventByKey := m.eventByKey)
      && r.value.0 == Event(incident, eventType, payload, r.value.0.digest, key)
      && m.eventByKey == if key.None? || key.value == "" then l.eventByKey else l.eventByKey[key.value := r.value.0]
  {
    UnusedExactly(l, key);
  }

  /** Any other append stores nothing: it raises, or answers the event that has the key. */
  lemma AppendsNothing(l: Ledger, incident: string, eventType: string, payload: Fields, key: Option<string>)
    requires Inv(l) && !(incident in l.incidents && Dumpable(Dict(payload)) && Unused(l.events, key))
    ensures
      var (m, r) := AppendEvent(l, incident, eventType, payload, key);
      m == l && (r.Ok? ==> r.value.1 && r.value.0 in l.events && r.value.0.key == key)
  {
    if incident in l.incidents && Dumpable(Dict(payload)) {
      UnusedExactly(l, key);
      KeyNamesOneEvent(l, incident, eventType, payload, key.value);
    } else {
      AppendRefused(l, incident, eventType, payload, key);
    }
  }

  lemma AppendRefused(l: Ledger, incident: string, eventType: string, payload: Fields, key: Option<string>)
    requires incident !in l.incidents || !Dumpable(Dict(payload))
    ensures AppendEvent(l, incident, eventType, payload, key) ==
      (l, Error(if incident !in l.incidents then UnknownIncident else NotJson))
  {
  }

  lemma RecordedAs(l: Ledger, id: string, payload: Fields)
    requires id in l.occurrences && Dumpable(Dict(payload))
    ensures Recorded(l, id, payload) == (l.(occurrences := l.occurrences[id := l.occurrences[id] +
      [Occurrence(id, |l.occurrences[id]| + 1, payload, DigestOf(Dict(payload)))]]), None)
  {
  }

  /**
   A JSON incident whose fingerprint is known is counted once more on the incident that has it, which keeps its first
   payload and gains one occurrence with this one, numbered by its counter.
   */
  lemma SubmitsKnown(l: Ledger, newId: string, payload: Fields, id: string)
    requires Inv(l) && id in l.incidents && Dumpable(Dict(payload))
    ensures
      var i := l.incidents[id];
      id in l.occurrences && SubmitIncident(l, newId, i.key, payload) ==
        (l.(incidents := l.incidents[id := Incident(i.id, i.key, i.payload, i.count + 1)],
            occurrences := l.occurrences[id := l.occurrences[id] +
              [Occurrence(id, i.count + 1, payload, DigestOf(Dict(payload)))]]), None)
  {
    var i := l.incidents[id];
    var o := l.(incidents := l.incidents[id := Incident(i.id, i.key, i.payload, i.count + 1)]);
    assert Opened(l, newId, i.key, payload) == (o, id);
    RecordedAs(o, id, payload);
  }

  /** One with a new fingerprint opens an incident, with this payload and one occurrence. */
  lemma SubmitsNew(l: Ledger, newId: string, key: FingerprintKey, payload: Fields)
    requires Inv(l) && newId !in l.incidents && Dumpable(Dict(payload))
    requires forall x | x in l.incidents :: l.incidents[x].key != key
    ensures SubmitIncident(l, newId, key, payload) ==
        (l.(incidents := l.incidents[newId := Incident(newId, key, payload, 1)],
            byFingerprint := l.byFingerprint[key := newId],
            occurrences := l.occurrences[newId := [Occurrence(newId, 1, payload, DigestOf(Dict(payload)))]]), None)
  {
    var o := l.(incidents := l.incidents[newId := Incident(newId, key, payload, 1)],
                byFingerprint := l.byFingerprint[key := newId], occurrences := l.occurrences[newId := []]);
    assert Opened(l, newId, key, payload) == (o, newId);
    RecordedAs(o, newId, payload);
    var entry := Occurrence(newId, 1, payload, DigestOf(Dict(payload)));
    assert [] + [entry] == [entry];
    assert l.occurrences[newId := []][newId := [entry]] == l.occurrences[newId := [entry]];
  }

  // ---- where revisions come from ----

  /** The call that made the revision, which is the correction's n-th. */
  ghost predicate Makes(l: Ledger, c: Call, id: string, n: nat, r: CorrectionRevision) {
    || (c.Creates? && c.id == id && n == 1 && c.incident in l.incidents && id !in l.corrections
        && Dumpable(Dict(c.payload))
        && r == CorrectionRevision(id, 1, DigestOf(Dict(c.payload)), Freeze(Dict(c.payload)), c.reversible))
    || (c.Revises? && c.id == id && n >= 2 && id in l.corrections && |l.corrections[id].revisions| == n - 1
        && Dumpable(Dict(c.payload))
        && r == CorrectionRevision(
             id, n, DigestOf(Dict(c.payload)), Freeze(Dict(c.payload)),
             match c.changed case Some(now) => now case None => l.corrections[id].revisions[n - 2].reversible))
  }

  lemma OnlyCorrects(l: Ledger, c: Call)
    requires !c.Creates? && !c.Revises?
    ensures Next(l, c).corrections == l.corrections
  {
    match c
    case Submits(newId, key, payload) => SubmitUntouched(l, newId, key, payload);
    case Appends(incident, eventType, payload, key) => AppendUntouched(l, incident, eventType, payload, key);
    case Promotes(newId, cid, r, q, auth) => PromoteUntouched(l, newId, cid, r, q, auth);
    case _ =>
  }

  lemma CreatedRevision(
    l: Ledger, incident: string, x: string, payload: Fields, reversible: bool, id: string, n: nat)
    requires IsRevision(CreateCorrection(l, incident, x, payload, reversible).0.corrections, id, n)
    ensures
      var r := CreateCorrection(l, incident, x, payload, reversible).0.corrections[id].revisions[n - 1];
      || Makes(l, Creates(incident, x, payload, reversible), id, n, r)
      || (IsRevision(l.corrections, id, n) && r == l.corrections[id].revisions[n - 1])
  {
    CreatesExactly(l, incident, x, payload, reversible);
  }

  lemma RevisedRevision(l: Ledger, x: string, payload: Fields, changed: Option<bool>, id: string, n: nat)
    requires Inv(l) && IsRevision(ReviseCorrection(l, x, payload, changed).0.corrections, id, n)
    ensures
      var r := ReviseCorrection(l, x, payload, changed).0.corrections[id].revisions[n - 1];
      || Makes(l, Revises(x, payload, changed), id, n, r)
      || (IsRevision(l.corrections, id, n) && r == l.corrections[id].revisions[n - 1])
  {
    RevisesExactly(l, x, payload, changed);
  }

  lemma NextRevisions(l: Ledger, c: Call, id: string, n: nat)
    requires Inv(l) && IsRevision(Next(l, c).corrections, id, n)
    ensures
      var r := Next(l, c).corrections[id].revisions[n - 1];
      Makes(l, c, id, n, r) || (IsRevision(l.corrections, id, n) && r == l.corrections[id].revisions[n - 1])
  {
    if c.Creates? {
      CreatedRevision(l, c.incident, c.id, c.payload, c.reversible, id, n);
    } else if c.Revises? {
      RevisedRevision(l, c.id, c.payload, c.changed, id, n);
    } else {
      OnlyCorrects(l, c);
    }
  }

  /** The k-th call of the run made the revision. */
  ghost predicate MadeBy(calls: seq<Call>, k: nat, id: string, n: nat, r: CorrectionRevision) {
    k < |calls| && Makes(After(calls[..k]), calls[k], id, n, r)
  }

  lemma MadeEarlier(calls: seq<Call>, k: nat, id: string, n: nat, r: CorrectionRevision)
    requires calls != [] && MadeBy(Front(calls), k, id, n, r)
    ensures MadeBy(calls, k, id, n, r)
  {
    var before := Front(calls);
    assert before[..k] == calls[..k] && before[k] == calls[k];
  }

  /**
   Over every run: the n-th revision of a correction was made by a create or revise call when there were n - 1, from
   that call's payload, and inherits whether it is reversible unless that call changed it.
   */
  lemma {:induction false} RevisionsWereMade(calls: seq<Call>, id: string, n: nat) returns (k: nat)
    requires ProperRun(EMPTY, calls) && IsRevision(After(calls).corrections, id, n)
    ensures MadeBy(calls, k, id, n, After(calls).corrections[id].revisions[n - 1])
    decreases |calls|
  {
    var before := Front(calls);
    ProperBefore(EMPTY, calls);
    RunKept(EMPTY, before);
    NextRevisions(After(before), Last(calls), id, n);
    if Makes(After(before), Last(calls), id, n, After(calls).corrections[id].revisions[n - 1]) {
      k := |before|;
    } else {
      k := RevisionsWereMade(before, id, n);
      MadeEarlier(calls, k, id, n, After(before).corrections[id].revisions[n - 1]);
    }
  }
}
