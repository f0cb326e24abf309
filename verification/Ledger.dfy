/**
 The in-memory ledger (ledger.py): incidents and occurrences, events, correction revisions, qualifications and
 promotions.
 */
module Ledger {
  import opened Prelude
  import opened Json
  import opened Validation

  /** Algorithm version and fingerprint. */
  type FingerprintKey = (string, string)

  datatype Incident = Incident(id: string, key: FingerprintKey, payload: Fields, count: nat)

  datatype Occurrence = Occurrence(incident: string, ordinal: nat, payload: Fields, digest: Digest)

  datatype Event = Event(incident: string, eventType: string, payload: Fields, digest: Digest, key: Option<string>)

  datatype Family = Family(incident: string, revisions: seq<CorrectionRevision>)

  datatype Promotion = Promotion(
    correction: string, revision: int, qualification: string, scope: Terms, rollback: Terms, revoked: bool)

  datatype Ledger = Ledger(
    incidents: map<string, Incident>,
    byFingerprint: map<FingerprintKey, string>,
    occurrences: map<string, seq<Occurrence>>,
    events: seq<Event>,
    eventByKey: map<string, Event>,
    corrections: map<string, Family>,
    qualifications: map<string, Qualification>,
    promotions: map<string, Promotion>)

  const EMPTY := Ledger(map[], map[], map[], [], map[], map[], map[], map[])

  datatype Fault =
    | NotJson | UnknownIncident | IdempotencyCollision | CorrectionExists | MissingId | UnknownCorrection
    | QualificationExists | UnknownRevision | StaleQualification | UnknownQualification | PromotionRejected
    | UnknownPromotion

  // ---- incidents ----

  /** The next occurrence of an incident that is already in the ledger. */
  function Recorded(l: Ledger, id: string, payload: Fields): (Ledger, Option<Fault>) {
    var records := if id in l.occurrences then l.occurrences[id] else [];
    if !Dumpable(Dict(payload)) then (l.(occurrences := l.occurrences[id := records]), Some(NotJson))
    else
      var o := Occurrence(id, |records| + 1, payload, DigestOf(Dict(payload)));
      (l.(occurrences := l.occurrences[id := records + [o]]), None)
  }

  /** The incident, new or counted once more, and its id. */
  function Opened(l: Ledger, newId: string, key: FingerprintKey, payload: Fields): (Ledger, string) {
    if key in l.byFingerprint && l.byFingerprint[key] in l.incidents then
      var id := l.byFingerprint[key];
      (l.(incidents := l.incidents[id := l.incidents[id].(count := l.incidents[id].count + 1)]), id)
    else
      (l.(incidents := l.incidents[newId := Incident(newId, key, payload, 1)],
          byFingerprint := l.byFingerprint[key := newId],
          occurrences := l.occurrences[newId := []]), newId)
  }

  /** `submit_incident`: the counter has moved, or the incident exists, before the payload is digested. */
  function SubmitIncident(l: Ledger, newId: string, key: FingerprintKey, payload: Fields): (Ledger, Option<Fault>) {
    var (o, id) := Opened(l, newId, key, payload);
    Recorded(o, id, payload)
  }

  // ---- events ----

  function EventEnvelope(incident: string, eventType: string, payload: Fields): Value {
    Dict(map["incident_id" := Str(incident), "event_type" := Str(eventType), "payload" := Dict(payload)])
  }

  /** `append_event`; an empty key is no key. */
  function AppendEvent(l: Ledger, incident: string, eventType: string, payload: Fields, key: Option<string>)
    : (Ledger, Result<(Event, bool), Fault>)
  {
    if incident !in l.incidents then (l, Error(UnknownIncident))
    else if !Dumpable(Dict(payload)) then (l, Error(NotJson))
    else
      var digest := DigestOf(EventEnvelope(incident, eventType, payload));
      var keyed := key.Some? && key.value != "";
      if keyed && key.value in l.eventByKey then
        var existing := l.eventByKey[key.value];
        if existing.digest != digest then (l, Error(IdempotencyCollision)) else (l, Ok((existing, true)))
      else
        var e := Event(incident, eventType, payload, digest, key);
        (l.(events := l.events + [e], eventByKey := if keyed then l.eventByKey[key.value := e] else l.eventByKey),
          Ok((e, false)))
  }

  // ---- corrections ----

  function CreateCorrection(l: Ledger, incident: string, id: string, payload: Fields, reversible: bool)
    : (Ledger, Result<CorrectionRevision, Fault>)
  {
    if incident !in l.incidents then (l, Error(UnknownIncident))
    else if id in l.corrections then (l, Error(CorrectionExists))
    else if !Dumpable(Dict(payload)) then (l, Error(NotJson))
    else if id == "" then (l, Error(MissingId))
    else
      var revision := CorrectionRevision(id, 1, DigestOf(Dict(payload)), Freeze(Dict(payload)), reversible);
      (l.(corrections := l.corrections[id := Family(incident, [revision])]), Ok(revision))
  }

  function ReviseCorrection(l: Ledger, id: string, payload: Fields, reversible: Option<bool>)
    : (Ledger, Result<CorrectionRevision, Fault>)
  {
    if id !in l.corrections || l.corrections[id].revisions == [] then (l, Error(UnknownCorrection))
    else if !Dumpable(Dict(payload)) then (l, Error(NotJson))
    else
      var previous := Last(l.corrections[id].revisions);
      var revision := CorrectionRevision(
        id, previous.revision + 1, DigestOf(Dict(payload)), Freeze(Dict(payload)),
        if reversible.Some? then reversible.value else previous.reversible);
      var family := l.corrections[id];
      (l.(corrections := l.corrections[id := family.(revisions := family.revisions + [revision])]), Ok(revision))
  }

  function RevisionOf(f: Family, n: int): Option<CorrectionRevision> {
    if exists i :: 0 <= i < |f.revisions| && f.revisions[i].revision == n then Some(LastWith(f.revisions, n)) else None
  }

  /** The last revision with a number, as the dictionary built from the list keeps it. */
  function LastWith(revisions: seq<CorrectionRevision>, n: int): (r: CorrectionRevision)
    requires exists i :: 0 <= i < |revisions| && revisions[i].revision == n
    ensures r in revisions && r.revision == n
  {
    if Last(revisions).revision == n then Last(revisions)
    else
      assert exists i :: 0 <= i < |Front(revisions)| && Front(revisions)[i].revision == n by {
        var i :| 0 <= i < |revisions| && revisions[i].revision == n;
        assert Front(revisions)[i].revision == n;
      }
      LastWith(Front(revisions), n)
  }

  function RecordQualification(l: Ledger, id: string, q: Qualification): (Ledger, Option<Fault>) {
    if id in l.qualifications then (l, Some(QualificationExists))
    else if q.correction !in l.corrections then (l, Some(UnknownCorrection))
    else
      var revision := RevisionOf(l.corrections[q.correction], q.revision);
      if revision.None? then (l, Some(UnknownRevision))
      else if q.digest != revision.value.digest then (l, Some(StaleQualification))
      else (l.(qualifications := l.qualifications[id := q]), None)
  }

  // ---- promotions ----

  /** Why `promote` refuses, in the order it checks. */
  function PromotionRefusal(
    l: Ledger, correction: string, revision: int, qualification: string, auth: Authorization): Option<Fault> {
    if !auth.allow then Some(PromotionRejected)
    else if correction !in l.corrections || l.corrections[correction].revisions == [] then Some(UnknownCorrection)
    else
      var current := Last(l.corrections[correction].revisions);
      if current.revision != revision then Some(StaleQualification)
      else if qualification !in l.qualifications then Some(UnknownQualification)
      else
        var q := l.qualifications[qualification];
        if !q.Matches(current) then Some(StaleQualification)
        else
          var report := Evaluated(current, q, REQUIRED_KINDS).value;
          if !report.passed then Some(PromotionRejected)
          else if auth.report != report then Some(PromotionRejected)
          else if !Given(auth.scope) || !Given(auth.rollback) then Some(PromotionRejected)
          else None
  }

  function Promote(
    l: Ledger, newId: string, correction: string, revision: int, qualification: string, auth: Authorization)
    : (Ledger, Option<Fault>)
  {
    var refusal := PromotionRefusal(l, correction, revision, qualification, auth);
    if refusal.Some? then (l, refusal)
    else
      var p := Promotion(correction, revision, qualification, auth.scope.value, auth.rollback.value, false);
      (l.(promotions := l.promotions[newId := p]), None)
  }

  function Revoke(l: Ledger, id: string): (Ledger, Option<Fault>) {
    if id !in l.promotions then (l, Some(UnknownPromotion))
    else (l.(promotions := l.promotions[id := l.promotions[id].(revoked := true)]), None)
  }

  // ---- runs ----

  datatype Call =
    | Submits(newId: string, key: FingerprintKey, payload: Fields)
    | Appends(incident: string, eventType: string, payload: Fields, idempotencyKey: Option<string>)
    | Creates(incident: string, id: string, payload: Fields, reversible: bool)
    | Revises(id: string, payload: Fields, changed: Option<bool>)
    | Qualifies(id: string, qualification: Qualification)
    | Promotes(newId: string, correction: string, revision: int, qualificationId: string, auth: Authorization)
    | Revokes(id: string)

  function Next(l: Ledger, c: Call): Ledger {
    match c
    case Submits(newId, key, payload) => SubmitIncident(l, newId, key, payload).0
    case Appends(incident, eventType, payload, key) => AppendEvent(l, incident, eventType, payload, key).0
    case Creates(incident, id, payload, reversible) => CreateCorrection(l, incident, id, payload, reversible).0
    case Revises(id, payload, changed) => ReviseCorrection(l, id, payload, changed).0
    case Qualifies(id, q) => RecordQualification(l, id, q).0
    case Promotes(newId, c, r, q, auth) => Promote(l, newId, c, r, q, auth).0
    case Revokes(id) => Revoke(l, id).0
  }

  function From(l: Ledger, calls: seq<Call>): Ledger {
    if calls == [] then l else Next(From(l, Front(calls)), Last(calls))
  }

  function After(calls: seq<Call>): Ledger { From(EMPTY, calls) }

  // ---- the invariant ----

  /** The fingerprint index and the incidents are inverse to each other. */
  ghost predicate Indexed(incidents: map<string, Incident>, byFingerprint: map<FingerprintKey, string>) {
    && (forall id {:trigger incidents[id]} | id in incidents ::
          incidents[id].id == id && incidents[id].key in byFingerprint && byFingerprint[incidents[id].key] == id)
    && (forall key {:trigger byFingerprint[key]} | key in byFingerprint ::
          byFingerprint[key] in incidents && incidents[byFingerprint[key]].key == key)
  }

  ghost predicate Numbered(id: string, os: seq<Occurrence>) {
    forall i {:trigger os[i]} | 0 <= i < |os| ::
      os[i].incident == id && os[i].ordinal == i + 1 && Dumpable(Dict(os[i].payload))
        && os[i].digest == DigestOf(Dict(os[i].payload))
  }

  /** Every incident has as many occurrences as its counter says, numbered from one. */
  ghost predicate Counted(incidents: map<string, Incident>, occurrences: map<string, seq<Occurrence>>) {
    && incidents.Keys == occurrences.Keys
    && forall id {:trigger incidents[id]} {:trigger occurrences[id]} | id in incidents ::
         incidents[id].count == |occurrences[id]| && Numbered(id, occurrences[id])
  }

  predicate Keyed(e: Event) { e.key.Some? && e.key.value != "" }

  ghost predicate Digested(e: Event) {
    Dumpable(Dict(e.payload)) && e.digest == DigestOf(EventEnvelope(e.incident, e.eventType, e.payload))
  }

  ghost predicate Filed(e: Event, eventByKey: map<string, Event>) {
    Keyed(e) ==> e.key.value in eventByKey && eventByKey[e.key.value] == e
  }

  /** The key index and the keyed events are inverse to each other, so a key names one event and one effect. */
  ghost predicate Identified(events: seq<Event>, eventByKey: map<string, Event>) {
    && (forall i {:trigger events[i]} | 0 <= i < |events| :: Digested(events[i]) && Filed(events[i], eventByKey))
    && (forall key {:trigger eventByKey[key]} | key in eventByKey ::
          eventByKey[key] in events && eventByKey[key].key == Some(key) && key != "")
    && (forall i, j {:trigger events[i], events[j]} | 0 <= i < j < |events| && Keyed(events[i]) && Keyed(events[j]) ::
          events[i].key != events[j].key)
  }

  /** Revisions count from one, each with the digest of its own payload. */
  ghost predicate Versioned(id: string, f: Family) {
    && f.revisions != []
    && forall i {:trigger f.revisions[i]} | 0 <= i < |f.revisions| ::
         && f.revisions[i].correction == id && f.revisions[i].revision == i + 1
         && Dumpable(Plain(f.revisions[i].payload)) && f.revisions[i].digest == DigestOf(Plain(f.revisions[i].payload))
  }

  ghost predicate AllVersioned(corrections: map<string, Family>) {
    forall id {:trigger corrections[id]} | id in corrections :: Versioned(id, corrections[id])
  }

  /** The exact revision a number names. */
  ghost predicate IsRevision(corrections: map<string, Family>, id: string, n: int) {
    id in corrections && 1 <= n <= |corrections[id].revisions|
  }

  ghost predicate AllQualified(corrections: map<string, Family>, qualifications: map<string, Qualification>) {
    forall id {:trigger qualifications[id]} | id in qualifications ::
      var q := qualifications[id];
      IsRevision(corrections, q.correction, q.revision)
        && q.Matches(corrections[q.correction].revisions[q.revision - 1])
  }

  /** The promotion points to a qualification that passes the gate for the exact revision it names. */
  ghost predicate Backed(corrections: map<string, Family>, qualifications: map<string, Qualification>, p: Promotion) {
    && p.qualification in qualifications && IsRevision(corrections, p.correction, p.revision)
    && Evaluated(corrections[p.correction].revisions[p.revision - 1], qualifications[p.qualification],
         REQUIRED_KINDS).value.passed
  }

  ghost predicate AllBacked(
    corrections: map<string, Family>, qualifications: map<string, Qualification>, promotions: map<string, Promotion>) {
    forall id {:trigger promotions[id]} | id in promotions :: Backed(corrections, qualifications, promotions[id])
  }

  ghost predicate Inv(l: Ledger) {
    && Indexed(l.incidents, l.byFingerprint)
    && Counted(l.incidents, l.occurrences)
    && Identified(l.events, l.eventByKey)
    && AllVersioned(l.corrections)
    && AllQualified(l.corrections, l.qualifications)
    && AllBacked(l.corrections, l.qualifications, l.promotions)
  }

  // ---- what each call keeps ----

  lemma RecordsCounted(l: Ledger, id: string, payload: Fields)
    requires id in l.incidents && l.incidents.Keys == l.occurrences.Keys && Dumpable(Dict(payload))
    requires l.incidents[id].count == |l.occurrences[id]| + 1 && Numbered(id, l.occurrences[id])
    requires forall x {:trigger l.incidents[x]} | x in l.incidents && x != id ::
      l.incidents[x].count == |l.occurrences[x]| && Numbered(x, l.occurrences[x])
    ensures Counted(Recorded(l, id, payload).0.incidents, Recorded(l, id, payload).0.occurrences)
  {
  }

  lemma FailedRecordUncounts(l: Ledger, id: string, payload: Fields)
    requires id in l.incidents && id in l.occurrences && !Dumpable(Dict(payload))
    requires l.incidents[id].count == |l.occurrences[id]| + 1
    ensures !Counted(Recorded(l, id, payload).0.incidents, Recorded(l, id, payload).0.occurrences)
  {
    var m := Recorded(l, id, payload).0;
    assert m.incidents[id].count != |m.occurrences[id]|;
  }

  lemma OpenedReady(l: Ledger, newId: string, key: FingerprintKey, payload: Fields)
    requires Inv(l) && newId !in l.incidents
    ensures
      var (o, id) := Opened(l, newId, key, payload);
      && Indexed(o.incidents, o.byFingerprint)
      && id in o.incidents && o.incidents.Keys == o.occurrences.Keys
      && o.incidents[id].count == |o.occurrences[id]| + 1 && Numbered(id, o.occurrences[id])
      && (forall x {:trigger o.incidents[x]} | x in o.incidents && x != id ::
            o.incidents[x].count == |o.occurrences[x]| && Numbered(x, o.occurrences[x]))
  {
    if key in l.byFingerprint { assert l.byFingerprint[key] in l.incidents; }
  }

  /**
   With a fresh id, submitting an incident keeps the ledger's invariant exactly when the payload is JSON:
   otherwise the counter has moved and no occurrence backs it.
   */
  lemma SubmitKeepsInvExactly(l: Ledger, newId: string, key: FingerprintKey, payload: Fields)
    requires Inv(l) && newId !in l.incidents
    ensures Inv(SubmitIncident(l, newId, key, payload).0) <==> Dumpable(Dict(payload))
  {
    var (o, id) := Opened(l, newId, key, payload);
    OpenedReady(l, newId, key, payload);
    if Dumpable(Dict(payload)) {
      RecordsCounted(o, id, payload);
    } else {
      FailedRecordUncounts(o, id, payload);
    }
  }

  lemma PlainEventKept(events: seq<Event>, eventByKey: map<string, Event>, e: Event)
    requires Identified(events, eventByKey) && Digested(e) && !Keyed(e)
    ensures Identified(events + [e], eventByKey)
  {
  }

  lemma KeyedEventKept(events: seq<Event>, eventByKey: map<string, Event>, e: Event)
    requires Identified(events, eventByKey) && Digested(e) && Keyed(e) && e.key.value !in eventByKey
    ensures Identified(events + [e], eventByKey[e.key.value := e])
  {
  }

  /** The event an append stores, if it stores one. */
  lemma AppendStores(l: Ledger, incident: string, eventType: string, payload: Fields, key: Option<string>)
    ensures
      var (m, r) := AppendEvent(l, incident, eventType, payload, key);
      if r.Error? || r.value.1 then m == l
      else
        && Digested(r.value.0) && (Keyed(r.value.0) ==> r.value.0.key.value !in l.eventByKey)
        && m == l.(events := l.events + [r.value.0],
                   eventByKey := if Keyed(r.value.0) then l.eventByKey[r.value.0.key.value := r.value.0]
                     else l.eventByKey)
  {
  }

  lemma EventsKept(l: Ledger, events: seq<Event>, eventByKey: map<string, Event>)
    requires Inv(l) && Identified(events, eventByKey)
    ensures Inv(l.(events := events, eventByKey := eventByKey))
  {
  }

  lemma AppendKeepsInv(l: Ledger, incident: string, eventType: string, payload: Fields, key: Option<string>)
    requires Inv(l)
    ensures Inv(AppendEvent(l, incident, eventType, payload, key).0)
  {
    var (m, r) := AppendEvent(l, incident, eventType, payload, key);
    AppendStores(l, incident, eventType, payload, key);
    if r.Ok? && !r.value.1 {
      if Keyed(r.value.0) {
        KeyedEventKept(l.events, l.eventByKey, r.value.0);
      } else {
        PlainEventKept(l.events, l.eventByKey, r.value.0);
      }
      EventsKept(l, m.events, m.eventByKey);
    }
  }

  /** Families only grow at the end. */
  ghost predicate Grew(f: Family, g: Family) { f.incident == g.incident && f.revisions <= g.revisions }

  ghost predicate AllGrew(cs: map<string, Family>, ds: map<string, Family>) {
    forall id {:trigger cs[id]} {:trigger ds[id]} | id in cs :: id in ds && Grew(cs[id], ds[id])
  }

  lemma GrowthKeepsBacking(
    cs: map<string, Family>, ds: map<string, Family>, qs: map<string, Qualification>, ps: map<string, Promotion>)
    requires AllGrew(cs, ds) && AllQualified(cs, qs) && AllBacked(cs, qs, ps)
    ensures AllQualified(ds, qs) && AllBacked(ds, qs, ps)
  {
  }

  lemma FrozenDict(payload: Fields)
    requires Dumpable(Dict(payload))
    ensures
      var p := Plain(Freeze(Dict(payload)));
      Dumpable(p) && DigestOf(p) == DigestOf(Dict(payload))
  {
    PlainFreeze(Dict(payload));
    TextOfPlain(Dict(payload));
  }

  lemma CorrectionKeepsInv(l: Ledger, id: string, f: Family)
    requires Inv(l) && Versioned(id, f) && (id in l.corrections ==> Grew(l.corrections[id], f))
    ensures Inv(l.(corrections := l.corrections[id := f]))
  {
    GrowthKeepsBacking(l.corrections, l.corrections[id := f], l.qualifications, l.promotions);
  }

  lemma CreateKeepsInv(l: Ledger, incident: string, id: string, payload: Fields, reversible: bool)
    requires Inv(l)
    ensures Inv(CreateCorrection(l, incident, id, payload, reversible).0)
  {
    var r := CreateCorrection(l, incident, id, payload, reversible).1;
    if r.Ok? {
      FrozenDict(payload);
      CorrectionKeepsInv(l, id, Family(incident, [r.value]));
    }
  }

  lemma ReviseKeepsInv(l: Ledger, id: string, payload: Fields, changed: Option<bool>)
    requires Inv(l)
    ensures Inv(ReviseCorrection(l, id, payload, changed).0)
  {
    var r := ReviseCorrection(l, id, payload, changed).1;
    if r.Ok? {
      FrozenDict(payload);
      var f := l.corrections[id];
      assert f.revisions[|f.revisions| - 1] == Last(f.revisions);
      CorrectionKeepsInv(l, id, f.(revisions := f.revisions + [r.value]));
    }
  }

  lemma RevisionIs(id: string, f: Family, n: int)
    requires Versioned(id, f)
    ensures RevisionOf(f, n) == if 1 <= n <= |f.revisions| then Some(f.revisions[n - 1]) else None
  {
    if 1 <= n <= |f.revisions| {
      assert f.revisions[n - 1].revision == n;
    }
  }

  lemma NewQualificationKeepsBacking(
    cs: map<string, Family>, qs: map<string, Qualification>, ps: map<string, Promotion>, id: string, q: Qualification)
    requires AllBacked(cs, qs, ps) && id !in qs
    ensures AllBacked(cs, qs[id := q], ps)
  {
  }

  lemma NewQualificationKept(cs: map<string, Family>, qs: map<string, Qualification>, id: string, q: Qualification)
    requires AllQualified(cs, qs)
    requires IsRevision(cs, q.correction, q.revision) && q.Matches(cs[q.correction].revisions[q.revision - 1])
    ensures AllQualified(cs, qs[id := q])
  {
  }

  lemma QualifiedMatches(l: Ledger, id: string, q: Qualification)
    requires AllVersioned(l.corrections) && RecordQualification(l, id, q).1.None?
    ensures id !in l.qualifications && IsRevision(l.corrections, q.correction, q.revision)
    ensures q.Matches(l.corrections[q.correction].revisions[q.revision - 1])
  {
    assert Versioned(q.correction, l.corrections[q.correction]);
    RevisionIs(q.correction, l.corrections[q.correction], q.revision);
  }

  lemma QualifyKeepsInv(l: Ledger, id: string, q: Qualification)
    requires Inv(l)
    ensures Inv(RecordQualification(l, id, q).0)
  {
    if RecordQualification(l, id, q).1.None? {
      QualifiedMatches(l, id, q);
      NewQualificationKept(l.corrections, l.qualifications, id, q);
      NewQualificationKeepsBacking(l.corrections, l.qualifications, l.promotions, id, q);
    }
  }

  /** What promote found before it writes is what backs the promotion. */
  lemma PromotedBacked(
    l: Ledger, correction: string, revision: int, qualification: string, auth: Authorization, p: Promotion)
    requires AllVersioned(l.corrections) && PromotionRefusal(l, correction, revision, qualification, auth).None?
    requires p.correction == correction && p.revision == revision && p.qualification == qualification
    ensures Backed(l.corrections, l.qualifications, p)
  {
    var f := l.corrections[correction];
    assert Versioned(correction, f);
    assert f.revisions[|f.revisions| - 1] == Last(f.revisions);
  }

  lemma BackedAdds(l: Ledger, newId: string, p: Promotion)
    requires Inv(l) && Backed(l.corrections, l.qualifications, p)
    ensures Inv(l.(promotions := l.promotions[newId := p]))
  {
  }

  lemma PromoteKeepsInv(
    l: Ledger, newId: string, correction: string, revision: int, qualification: string, auth: Authorization)
    requires Inv(l)
    ensures Inv(Promote(l, newId, correction, revision, qualification, auth).0)
  {
    if PromotionRefusal(l, correction, revision, qualification, auth).None? {
      var p := Promotion(correction, revision, qualification, auth.scope.value, auth.rollback.value, false);
      PromotedBacked(l, correction, revision, qualification, auth, p);
      BackedAdds(l, newId, p);
    }
  }

  lemma RevokeKeepsInv(l: Ledger, id: string)
    requires Inv(l)
    ensures Inv(Revoke(l, id).0)
  {
    if id in l.promotions { assert Backed(l.corrections, l.qualifications, l.promotions[id]); }
  }

  /** The id factory returned a new id, and the payload is JSON. */
  predicate Proper(l: Ledger, c: Call) {
    c.Submits? ==> c.newId !in l.incidents && Dumpable(Dict(c.payload))
  }

  lemma NextKeepsInv(l: Ledger, c: Call)
    requires Inv(l) && Proper(l, c)
    ensures Inv(Next(l, c))
  {
    match c
    case Submits(newId, key, payload) => SubmitKeepsInvExactly(l, newId, key, payload);
    case Appends(incident, eventType, payload, key) => AppendKeepsInv(l, incident, eventType, payload, key);
    case Creates(incident, id, payload, reversible) => CreateKeepsInv(l, incident, id, payload, reversible);
    case Revises(id, payload, changed) => ReviseKeepsInv(l, id, payload, changed);
    case Qualifies(id, q) => QualifyKeepsInv(l, id, q);
    case Promotes(newId, cid, r, q, auth) => PromoteKeepsInv(l, newId, cid, r, q, auth);
    case Revokes(id) => RevokeKeepsInv(l, id);
  }

  ghost predicate ProperRun(l: Ledger, calls: seq<Call>) {
    forall n {:trigger calls[n]} | 0 <= n < |calls| :: Proper(From(l, calls[..n]), calls[n])
  }

  lemma ProperBefore(l: Ledger, calls: seq<Call>)
    requires calls != [] && ProperRun(l, calls)
    ensures ProperRun(l, Front(calls)) && Proper(From(l, Front(calls)), Last(calls))
  {
    var before := Front(calls);
    forall n {:trigger before[n]} | 0 <= n < |before| ensures Proper(From(l, before[..n]), before[n]) {
      assert before[..n] == calls[..n] && before[n] == calls[n];
    }
    assert calls[..|before|] == before && calls[|before|] == Last(calls);
  }

  lemma {:induction false} RunKept(l: Ledger, calls: seq<Call>)
    requires Inv(l) && ProperRun(l, calls)
    ensures Inv(From(l, calls))
  {
    if calls != [] {
      ProperBefore(l, calls);
      RunKept(l, Front(calls));
      NextKeepsInv(From(l, Front(calls)), Last(calls));
    }
  }

  /**
   The invariant holds after every run with JSON payloads and fresh incident ids, whatever is called in whatever
   order.
   */
  lemma LedgerKept(calls: seq<Call>)
    requires ProperRun(EMPTY, calls)
    ensures Inv(After(calls))
  {
    RunKept(EMPTY, calls);
  }

  // ---- idempotency ----

  lemma PlainEventEnvelope(incident: string, eventType: string, payload: Fields)
    ensures Plain(EventEnvelope(incident, eventType, payload)) ==
      EventEnvelope(incident, eventType, Plain(Dict(payload)).fields)
  {
  }

  lemma EventEnvelopeInjective(i1: string, t1: string, p1: Fields, i2: string, t2: string, p2: Fields)
    requires EventEnvelope(i1, t1, p1) == EventEnvelope(i2, t2, p2)
    ensures i1 == i2 && t1 == t2 && p1 == p2
  {
    var f1, f2 := EventEnvelope(i1, t1, p1).fields, EventEnvelope(i2, t2, p2).fields;
    assert f1["incident_id"] == f2["incident_id"] && f1["event_type"] == f2["event_type"]
      && f1["payload"] == f2["payload"];
  }

  lemma EventEnvelopeExact(i1: string, t1: string, p1: Fields, i2: string, t2: string, p2: Fields)
    requires Dumpable(Dict(p1)) && Dumpable(Dict(p2))
    ensures DigestOf(EventEnvelope(i1, t1, p1)) == DigestOf(EventEnvelope(i2, t2, p2)) <==>
            i1 == i2 && t1 == t2 && Plain(Dict(p1)) == Plain(Dict(p2))
  {
    Sha256Exact(Text(EventEnvelope(i1, t1, p1)), Text(EventEnvelope(i2, t2, p2)));
    TextInjective(EventEnvelope(i1, t1, p1), EventEnvelope(i2, t2, p2));
    PlainEventEnvelope(i1, t1, p1);
    PlainEventEnvelope(i2, t2, p2);
    var q1, q2 := Plain(Dict(p1)).fields, Plain(Dict(p2)).fields;
    if EventEnvelope(i1, t1, q1) == EventEnvelope(i2, t2, q2) {
      EventEnvelopeInjective(i1, t1, q1, i2, t2, q2);
    }
  }

  /**
   A used key is accepted exactly for the same incident, type and payload, up to key order and list or tuple;
   then nothing changes.
   */
  lemma KeyNamesOneEvent(l: Ledger, incident: string, eventType: string, payload: Fields, key: string)
    requires Inv(l) && key in l.eventByKey && incident in l.incidents && Dumpable(Dict(payload))
    ensures
      var e := l.eventByKey[key];
      AppendEvent(l, incident, eventType, payload, Some(key)) ==
        (l, if e.incident == incident && e.eventType == eventType && Plain(Dict(e.payload)) == Plain(Dict(payload))
            then Ok((e, true)) else Error(IdempotencyCollision))
  {
    var e := l.eventByKey[key];
    assert e in l.events;
    var i :| 0 <= i < |l.events| && l.events[i] == e;
    assert Digested(l.events[i]);
    EventEnvelopeExact(e.incident, e.eventType, e.payload, incident, eventType, payload);
  }

  // ---- an allowed authorization ----

  /** Revisions and qualifications are never rewritten. */
  ghost predicate Later(l: Ledger, m: Ledger) {
    && AllGrew(l.corrections, m.corrections)
    && forall id {:trigger l.qualifications[id]} {:trigger m.qualifications[id]} | id in l.qualifications ::
         id in m.qualifications && m.qualifications[id] == l.qualifications[id]
  }

  lemma OneGrew(cs: map<string, Family>, id: string, f: Family)
    requires id in cs ==> Grew(cs[id], f)
    ensures AllGrew(cs, cs[id := f])
  {
  }

  lemma CreateLater(l: Ledger, incident: string, id: string, payload: Fields, reversible: bool)
    ensures Later(l, CreateCorrection(l, incident, id, payload, reversible).0)
  {
    var r := CreateCorrection(l, incident, id, payload, reversible).1;
    if r.Ok? { OneGrew(l.corrections, id, Family(incident, [r.value])); }
  }

  lemma ReviseLater(l: Ledger, id: string, payload: Fields, changed: Option<bool>)
    ensures Later(l, ReviseCorrection(l, id, payload, changed).0)
  {
    var r := ReviseCorrection(l, id, payload, changed).1;
    if r.Ok? {
      var f := l.corrections[id];
      OneGrew(l.corrections, id, f.(revisions := f.revisions + [r.value]));
    }
  }

  lemma QualifyLater(l: Ledger, id: string, q: Qualification)
    ensures Later(l, RecordQualification(l, id, q).0)
  {
  }

  ghost predicate Untouched(l: Ledger, m: Ledger) {
    m.corrections == l.corrections && m.qualifications == l.qualifications
  }

  lemma UntouchedLater(l: Ledger, m: Ledger)
    requires Untouched(l, m)
    ensures Later(l, m)
  {
  }

  lemma RecordedUntouched(l: Ledger, id: string, payload: Fields)
    ensures Recorded(l, id, payload).0 == l.(occurrences := Recorded(l, id, payload).0.occurrences)
  {
    var records := if id in l.occurrences then l.occurrences[id] else [];
    if Dumpable(Dict(payload)) {
      var o := Occurrence(id, |records| + 1, payload, DigestOf(Dict(payload)));
      assert Recorded(l, id, payload).0 == l.(occurrences := l.occurrences[id := records + [o]]);
    }
  }

  lemma SubmitUntouched(l: Ledger, newId: string, key: FingerprintKey, payload: Fields)
    ensures Untouched(l, SubmitIncident(l, newId, key, payload).0)
    ensures SubmitIncident(l, newId, key, payload).0.promotions == l.promotions
  {
    var (o, id) := Opened(l, newId, key, payload);
    RecordedUntouched(o, id, payload);
  }

  lemma AppendUntouched(l: Ledger, incident: string, eventType: string, payload: Fields, key: Option<string>)
    ensures Untouched(l, AppendEvent(l, incident, eventType, payload, key).0)
  {
  }

  lemma PromoteUntouched(l: Ledger, newId: string, c: string, r: int, q: string, auth: Authorization)
    ensures Untouched(l, Promote(l, newId, c, r, q, auth).0)
  {
  }

  lemma NextLater(l: Ledger, c: Call)
    ensures Later(l, Next(l, c))
  {
    match c
    case Creates(incident, id, payload, reversible) => CreateLater(l, incident, id, payload, reversible);
    case Revises(id, payload, changed) => ReviseLater(l, id, payload, changed);
    case Qualifies(id, q) => QualifyLater(l, id, q);
    case Submits(newId, key, payload) =>
      SubmitUntouched(l, newId, key, payload);
      UntouchedLater(l, SubmitIncident(l, newId, key, payload).0);
    case Appends(incident, eventType, payload, key) =>
      AppendUntouched(l, incident, eventType, payload, key);
      UntouchedLater(l, AppendEvent(l, incident, eventType, payload, key).0);
    case Promotes(newId, cid, r, q, auth) =>
      PromoteUntouched(l, newId, cid, r, q, auth);
      UntouchedLater(l, Promote(l, newId, cid, r, q, auth).0);
    case Revokes(id) => UntouchedLater(l, Revoke(l, id).0);
  }

  lemma LaterTransitive(l: Ledger, m: Ledger, n: Ledger)
    requires Later(l, m) && Later(m, n)
    ensures Later(l, n)
  {
  }

  lemma {:induction false} RunLater(l: Ledger, calls: seq<Call>)
    ensures Later(l, From(l, calls))
  {
    if calls != [] {
      RunLater(l, Front(calls));
      NextLater(From(l, Front(calls)), Last(calls));
      LaterTransitive(l, From(l, Front(calls)), From(l, calls));
    }
  }

  lemma CurrentIs(id: string, f: Family)
    requires Versioned(id, f)
    ensures Last(f.revisions).revision == |f.revisions|
  {
    assert f.revisions[|f.revisions| - 1] == Last(f.revisions);
  }

  lemma SameWhenNotRevised(id: string, f: Family, g: Family)
    requires Versioned(id, f) && Versioned(id, g) && Grew(f, g)
    ensures Last(g.revisions).revision == Last(f.revisions).revision <==> g.revisions == f.revisions
  {
    CurrentIs(id, f);
    CurrentIs(id, g);
    if |g.revisions| == |f.revisions| { assert g.revisions[..|f.revisions|] == g.revisions; }
  }

  /** The authorization is bound to this revision and a qualification that passes for it. */
  predicate Bound(auth: Authorization, current: CorrectionRevision, q: Qualification) {
    && auth.allow && auth.report == Evaluated(current, q, REQUIRED_KINDS).value
    && auth.report.passed && q.Matches(current) && Given(auth.scope) && Given(auth.rollback)
  }

  lemma PromotableExactly(l: Ledger, m: Ledger, id: string, qid: string, auth: Authorization)
    requires Later(l, m) && id in l.corrections && qid in l.qualifications
    requires Versioned(id, l.corrections[id]) && id in m.corrections && Versioned(id, m.corrections[id])
    requires Bound(auth, Last(l.corrections[id].revisions), l.qualifications[qid])
    ensures
      var n := Last(l.corrections[id].revisions).revision;
      PromotionRefusal(m, id, n, qid, auth).None? <==> m.corrections[id].revisions == l.corrections[id].revisions
  {
    assert Grew(l.corrections[id], m.corrections[id]);
    SameWhenNotRevised(id, l.corrections[id], m.corrections[id]);
    assert m.qualifications[qid] == l.qualifications[qid];
  }

  /**
   What the default policy allows for the current revision and a recorded qualification can be promoted
   exactly while the correction has not been revised, whatever else has happened in the meantime.
   */
  lemma AllowedUntilRevised(
    l: Ledger, calls: seq<Call>, id: string, qid: string, g: Grounds, scope: Option<Terms>, rollback: Option<Terms>)
    requires Inv(l) && ProperRun(l, calls) && id in l.corrections && qid in l.qualifications
    requires
      var auth := AuthorizePromotion(Last(l.corrections[id].revisions), l.qualifications[qid], g, scope, rollback);
      auth.Some? && auth.value.allow
    ensures
      var current := Last(l.corrections[id].revisions);
      var auth := AuthorizePromotion(current, l.qualifications[qid], g, scope, rollback).value;
      var m := From(l, calls);
      id in m.corrections &&
      (PromotionRefusal(m, id, current.revision, qid, auth).None? <==>
       m.corrections[id].revisions == l.corrections[id].revisions)
  {
    RunKept(l, calls);
    RunLater(l, calls);
    var auth := AuthorizePromotion(Last(l.corrections[id].revisions), l.qualifications[qid], g, scope, rollback).value;
    var m := From(l, calls);
    assert Grew(l.corrections[id], m.corrections[id]);
    assert Versioned(id, l.corrections[id]) && Versioned(id, m.corrections[id]);
    PromotableExactly(l, m, id, qid, auth);
  }

  // ---- the ledger as mutable state ----

  /** With a fresh id the ledger stays consistent exactly when the payload is JSON. */
  ghost predicate ConsistentIfJson(l: Ledger, m: Ledger, newId: string, payload: Fields) {
    Inv(l) && newId !in l.incidents ==> (Inv(m) <==> Dumpable(Dict(payload)))
  }

  /** What the invariant lemmas give a method that does not require the invariant. */
  lemma SubmitKept(l: Ledger, newId: string, key: FingerprintKey, payload: Fields)
    ensures ConsistentIfJson(l, SubmitIncident(l, newId, key, payload).0, newId, payload)
  {
    if Inv(l) && newId !in l.incidents { SubmitKeepsInvExactly(l, newId, key, payload); }
  }

  lemma AppendKept(l: Ledger, incident: string, eventType: string, payload: Fields, key: Option<string>)
    ensures Inv(l) ==> Inv(AppendEvent(l, incident, eventType, payload, key).0)
  {
    if Inv(l) { AppendKeepsInv(l, incident, eventType, payload, key); }
  }

  lemma CreateKept(l: Ledger, incident: string, id: string, payload: Fields, reversible: bool)
    ensures Inv(l) ==> Inv(CreateCorrection(l, incident, id, payload, reversible).0)
  {
    if Inv(l) { CreateKeepsInv(l, incident, id, payload, reversible); }
  }

  lemma ReviseKept(l: Ledger, id: string, payload: Fields, changed: Option<bool>)
    ensures Inv(l) ==> Inv(ReviseCorrection(l, id, payload, changed).0)
  {
    if Inv(l) { ReviseKeepsInv(l, id, payload, changed); }
  }

  lemma QualifyKept(l: Ledger, id: string, q: Qualification)
    ensures Inv(l) ==> Inv(RecordQualification(l, id, q).0)
  {
    if Inv(l) { QualifyKeepsInv(l, id, q); }
  }

  lemma PromoteKept(
    l: Ledger, newId: string, correction: string, revision: int, qualification: string, auth: Authorization)
    ensures Inv(l) ==> Inv(Promote(l, newId, correction, revision, qualification, auth).0)
  {
    if Inv(l) { PromoteKeepsInv(l, newId, correction, revision, qualification, auth); }
  }

  lemma RevokeKept(l: Ledger, id: string)
    ensures Inv(l) ==> Inv(Revoke(l, id).0)
  {
    if Inv(l) { RevokeKeepsInv(l, id); }
  }

  class InMemoryLedger {
    var incidents: map<string, Incident>
    var incidentByFingerprint: map<FingerprintKey, string>
    var occurrences: map<string, seq<Occurrence>>
    var events: seq<Event>
    var eventByIdempotency: map<string, Event>
    var corrections: map<string, Family>
    var qualifications: map<string, Qualification>
    var promotions: map<string, Promotion>

    function Snapshot(): Ledger
      reads this
    {
      Ledger(incidents, incidentByFingerprint, occurrences, events, eventByIdempotency, corrections, qualifications,
        promotions)
    }

    constructor ()
      ensures Snapshot() == EMPTY
    {
      incidents, incidentByFingerprint, occurrences, events := map[], map[], map[], [];
      eventByIdempotency, corrections, qualifications, promotions := map[], map[], map[], map[];
    }

    method RecordOccurrence(id: string, payload: Fields) returns (fault: Option<Fault>)
      modifies this`occurrences
      ensures (Snapshot(), fault) == Recorded(old(Snapshot()), id, payload)
    {
      if id !in occurrences {
        occurrences := occurrences[id := []];
      }
      var records := occurrences[id];
      if !Dumpable(Dict(payload)) {
        assert occurrences == occurrences[id := records];
        return Some(NotJson);
      }
      var more := records + [Occurrence(id, |records| + 1, payload, DigestOf(Dict(payload)))];
      occurrences := occurrences[id := more];
      assert occurrences == old(occurrences)[id := more];
      return None;
    }

    /** The incident the fingerprint already has, counted once more, or a new one. */
    method OpenIncident(newId: string, key: FingerprintKey, payload: Fields) returns (id: string, duplicate: bool)
      modifies this
      ensures (Snapshot(), id) == Opened(old(Snapshot()), newId, key, payload)
      ensures duplicate <==> key in old(incidentByFingerprint) && old(incidentByFingerprint)[key] in old(incidents)
    {
      if key in incidentByFingerprint && incidentByFingerprint[key] in incidents {
        id := incidentByFingerprint[key];
        incidents := incidents[id := incidents[id].(count := incidents[id].count + 1)];
        return id, true;
      }
      incidents := incidents[newId := Incident(newId, key, payload, 1)];
      incidentByFingerprint := incidentByFingerprint[key := newId];
      occurrences := occurrences[newId := []];
      return newId, false;
    }

    method Submit(newId: string, key: FingerprintKey, payload: Fields) returns (fault: Option<Fault>, duplicate: bool)
      modifies this
      ensures (Snapshot(), fault) == SubmitIncident(old(Snapshot()), newId, key, payload)
      ensures duplicate <==> key in old(incidentByFingerprint) && old(incidentByFingerprint)[key] in old(incidents)
      ensures ConsistentIfJson(old(Snapshot()), Snapshot(), newId, payload)
    {
      SubmitKept(Snapshot(), newId, key, payload);
      var id;
      id, duplicate := OpenIncident(newId, key, payload);
      fault := RecordOccurrence(id, payload);
    }

    method Append(incident: string, eventType: string, payload: Fields, key: Option<string>)
      returns (r: Result<(Event, bool), Fault>)
      modifies this`events, this`eventByIdempotency
      ensures (Snapshot(), r) == AppendEvent(old(Snapshot()), incident, eventType, payload, key)
      ensures Inv(old(Snapshot())) ==> Inv(Snapshot())
    {
      AppendKept(Snapshot(), incident, eventType, payload, key);
      if incident !in incidents {
        return Error(UnknownIncident);
      }
      if !Dumpable(Dict(payload)) {
        return Error(NotJson);
      }
      var digest := DigestOf(EventEnvelope(incident, eventType, payload));
      var keyed := key.Some? && key.value != "";
      if keyed && key.value in eventByIdempotency {
        var existing := eventByIdempotency[key.value];
        if existing.digest != digest {
          return Error(IdempotencyCollision);
        }
        return Ok((existing, true));
      }
      var e := Event(incident, eventType, payload, digest, key);
      events := events + [e];
      if keyed {
        eventByIdempotency := eventByIdempotency[key.value := e];
      }
      return Ok((e, false));
    }

    method Create(incident: string, id: string, payload: Fields, reversible: bool)
      returns (r: Result<CorrectionRevision, Fault>)
      modifies this`corrections
      ensures (Snapshot(), r) == CreateCorrection(old(Snapshot()), incident, id, payload, reversible)
      ensures Inv(old(Snapshot())) ==> Inv(Snapshot())
    {
      CreateKept(Snapshot(), incident, id, payload, reversible);
      if incident !in incidents {
        return Error(UnknownIncident);
      }
      if id in corrections {
        return Error(CorrectionExists);
      }
      if !Dumpable(Dict(payload)) {
        return Error(NotJson);
      }
      if id == "" {
        return Error(MissingId);
      }
      var revision := CorrectionRevision(id, 1, DigestOf(Dict(payload)), Freeze(Dict(payload)), reversible);
      corrections := corrections[id := Family(incident, [revision])];
      return Ok(revision);
    }

    method Revise(id: string, payload: Fields, reversible: Option<bool>) returns (r: Result<CorrectionRevision, Fault>)
      modifies this`corrections
      ensures (Snapshot(), r) == ReviseCorrection(old(Snapshot()), id, payload, reversible)
      ensures Inv(old(Snapshot())) ==> Inv(Snapshot())
    {
      ReviseKept(Snapshot(), id, payload, reversible);
      if id !in corrections || corrections[id].revisions == [] {
        return Error(UnknownCorrection);
      }
      var family := corrections[id];
      var previous := Last(family.revisions);
      if !Dumpable(Dict(payload)) {
        return Error(NotJson);
      }
      var still := if reversible.Some? then reversible.value else previous.reversible;
      var revision :=
        CorrectionRevision(id, previous.revision + 1, DigestOf(Dict(payload)), Freeze(Dict(payload)), still);
      corrections := corrections[id := family.(revisions := family.revisions + [revision])];
      return Ok(revision);
    }

    method Qualify(id: string, q: Qualification) returns (fault: Option<Fault>)
      modifies this`qualifications
      ensures (Snapshot(), fault) == RecordQualification(old(Snapshot()), id, q)
      ensures Inv(old(Snapshot())) ==> Inv(Snapshot())
    {
      QualifyKept(Snapshot(), id, q);
      if id in qualifications {
        return Some(QualificationExists);
      }
      if q.correction !in corrections {
        return Some(UnknownCorrection);
      }
      var revision := RevisionOf(corrections[q.correction], q.revision);
      if revision.None? {
        return Some(UnknownRevision);
      }
      if q.digest != revision.value.digest {
        return Some(StaleQualification);
      }
      qualifications := qualifications[id := q];
      return None;
    }

    method PromoteCorrection(
      newId: string, correction: string, revision: int, qualification: string, auth: Authorization)
      returns (fault: Option<Fault>)
      modifies this`promotions
      ensures (Snapshot(), fault) == Promote(old(Snapshot()), newId, correction, revision, qualification, auth)
      ensures Inv(old(Snapshot())) ==> Inv(Snapshot())
    {
      PromoteKept(Snapshot(), newId, correction, revision, qualification, auth);
      if !auth.allow {
        return Some(PromotionRejected);
      }
      if correction !in corrections || corrections[correction].revisions == [] {
        return Some(UnknownCorrection);
      }
      var current := Last(corrections[correction].revisions);
      if current.revision != revision {
        return Some(StaleQualification);
      }
      if qualification !in qualifications {
        return Some(UnknownQualification);
      }
      if !qualifications[qualification].Matches(current) {
        return Some(StaleQualification);
      }
      var report := Evaluate(current, qualifications[qualification], REQUIRED_KINDS);
      if !report.value.passed || auth.report != report.value || !Given(auth.scope) || !Given(auth.rollback) {
        return Some(PromotionRejected);
      }
      promotions := promotions[newId :=
        Promotion(correction, revision, qualification, auth.scope.value, auth.rollback.value, false)];
      return None;
    }

    /** A second revocation returns the first one's record. */
    method RevokePromotion(id: string) returns (fault: Option<Fault>)
      modifies this`promotions
      ensures (Snapshot(), fault) == Revoke(old(Snapshot()), id)
      ensures Inv(old(Snapshot())) ==> Inv(Snapshot())
    {
      RevokeKept(Snapshot(), id);
      if id !in promotions {
        return Some(UnknownPromotion);
      }
      if promotions[id].revoked {
        assert promotions == promotions[id := promotions[id].(revoked := true)];
        return None;
      }
      promotions := promotions[id := promotions[id].(revoked := true)];
      return None;
    }
  }
}
