/** Durable incident occurrences (`record_incident_occurrence`, 0004): ordinals, the counter and the last sighting. */
module Occurrences {
  import opened Prelude

  type Id = string
  type Time = int

  datatype Incident = Incident(firstSeen: Time, lastSeen: Time, count: int)

  datatype Row = Row(id: Id, incident: Id, ordinal: int, digest: string, observedAt: Time)

  datatype Tables = Tables(incidents: map<Id, Incident>, rows: seq<Row>)

  datatype Fault = DigestRequired | UnknownIncident | UniqueViolation

  /** The rows of one incident, oldest first. */
  function RowsOf(rows: seq<Row>, incident: Id): seq<Row> {
    if rows == [] then []
    else if Last(rows).incident == incident then RowsOf(Front(rows), incident) + [Last(rows)]
    else RowsOf(Front(rows), incident)
  }

  /** `COALESCE(max(ordinal), 0)`. */
  function MaxOrdinal(rows: seq<Row>, incident: Id): int {
    if rows == [] then 0
    else
      var before := MaxOrdinal(Front(rows), incident);
      if Last(rows).incident == incident && (before == 0 || Last(rows).ordinal > before) then Last(rows).ordinal
        else before
  }

  predicate Taken(rows: seq<Row>, id: Id, incident: Id, ordinal: int) {
    exists i | 0 <= i < |rows| :: rows[i].id == id || (rows[i].incident == incident && rows[i].ordinal == ordinal)
  }

  function Record(t: Tables, id: Id, incident: Id, digest: string, at: Time): (Tables, Option<Fault>) {
    if Blank(digest) then (t, Some(DigestRequired))
    else if incident !in t.incidents then (t, Some(UnknownIncident))
    else
      var ordinal := MaxOrdinal(t.rows, incident) + 1;
      if Taken(t.rows, id, incident, ordinal) then (t, Some(UniqueViolation))
      else
        var was := t.incidents[incident];
        var now := Incident(was.firstSeen, if at > was.lastSeen then at else was.lastSeen, ordinal);
        (Tables(t.incidents[incident := now], t.rows + [Row(id, incident, ordinal, digest, at)]), None)
  }

  function Submit(t: Tables, incident: Id, at: Time): Tables {
    if incident in t.incidents then t else t.(incidents := t.incidents[incident := Incident(at, at, 1)])
  }

  datatype Call = Submits(incident: Id, at: Time) | Records(id: Id, incident: Id, digest: string, at: Time)

  function After(calls: seq<Call>): Tables {
    if calls == [] then Tables(map[], [])
    else
      match Last(calls)
      case Submits(incident, at) => Submit(After(Front(calls)), incident, at)
      case Records(id, incident, digest, at) => Record(After(Front(calls)), id, incident, digest, at).0
  }

  /** Ordinals run from one without a gap, the counter is the last of them, and the last sighting is the latest. */
  ghost predicate Accounted(t: Tables, incident: Id) {
    var os := RowsOf(t.rows, incident);
    && (forall i {:trigger os[i]} | 0 <= i < |os| :: os[i].ordinal == i + 1)
    && MaxOrdinal(t.rows, incident) == |os|
    && (incident !in t.incidents ==> os == [])
    && (incident in t.incidents ==>
          && t.incidents[incident].count == (if os == [] then 1 else |os|)
          && (forall i {:trigger os[i]} | 0 <= i < |os| :: os[i].observedAt <= t.incidents[incident].lastSeen)
          && (t.incidents[incident].lastSeen == t.incidents[incident].firstSeen
              || exists i :: 0 <= i < |os| && os[i].observedAt == t.incidents[incident].lastSeen))
  }

  lemma RecordAccounted(t: Tables, id: Id, incident: Id, digest: string, at: Time, x: Id)
    requires Accounted(t, x)
    ensures Accounted(Record(t, id, incident, digest, at).0, x)
  {
    var u := Record(t, id, incident, digest, at).0;
    if Record(t, id, incident, digest, at).1.None? {
      assert Front(u.rows) == t.rows;
      var os, more := RowsOf(t.rows, x), RowsOf(u.rows, x);
      if x == incident {
        assert more == os + [Last(u.rows)];
        assert more[|os|].observedAt == at;
        if t.incidents[x].lastSeen >= at && t.incidents[x].lastSeen != t.incidents[x].firstSeen {
          var i :| 0 <= i < |os| && os[i].observedAt == t.incidents[x].lastSeen;
          assert more[i].observedAt == u.incidents[x].lastSeen;
        }
      }
    }
  }

  /** Over every run, for every incident. */
  lemma {:induction false} AlwaysAccounted(calls: seq<Call>, x: Id)
    ensures Accounted(After(calls), x)
  {
    if calls != [] {
      AlwaysAccounted(Front(calls), x);
      match Last(calls)
      case Submits(_, _) =>
      case Records(id, incident, digest, at) => RecordAccounted(After(Front(calls)), id, incident, digest, at, x);
    }
  }

  lemma {:induction false} NotBeyond(rows: seq<Row>, incident: Id, i: nat)
    requires i < |rows| && rows[i].incident == incident
    requires forall k {:trigger RowsOf(rows, incident)[k]}
      | 0 <= k < |RowsOf(rows, incident)| :: RowsOf(rows, incident)[k].ordinal == k + 1
    ensures rows[i].ordinal <= |RowsOf(rows, incident)|
  {
    var os := RowsOf(rows, incident);
    if i == |rows| - 1 {
      assert os[|os| - 1] == rows[i];
    } else {
      var before := RowsOf(Front(rows), incident);
      assert forall k | 0 <= k < |before| :: before[k] == os[k];
      NotBeyond(Front(rows), incident, i);
    }
  }

  /** The unique ordinal never decides: an occurrence with a digest and a new id is always recorded. */
  lemma RecordsExactly(calls: seq<Call>, id: Id, incident: Id, digest: string, at: Time)
    ensures
      var t := After(calls);
      Record(t, id, incident, digest, at).1.None? <==>
        !Blank(digest) && incident in t.incidents && forall i | 0 <= i < |t.rows| :: t.rows[i].id != id
  {
    var t := After(calls);
    AlwaysAccounted(calls, incident);
    forall i | 0 <= i < |t.rows| && t.rows[i].incident == incident
      ensures t.rows[i].ordinal != MaxOrdinal(t.rows, incident) + 1
    {
      NotBeyond(t.rows, incident, i);
    }
  }

  /** An incident is there exactly when it was submitted. */
  lemma {:induction false} KnownExactly(calls: seq<Call>, x: Id)
    ensures x in After(calls).incidents <==> exists k :: 0 <= k < |calls| && calls[k].Submits? && calls[k].incident == x
  {
    if calls != [] {
      var before := Front(calls);
      KnownExactly(before, x);
      assert forall k | 0 <= k < |before| :: calls[k] == before[k];
      assert calls[|before|] == Last(calls);
    }
  }

  /** Submitting opens an incident with one sighting, and leaves a known one as it is. */
  lemma SubmitsExactly(t: Tables, x: Id, at: Time)
    ensures Submit(t, x, at).rows == t.rows
    ensures Submit(t, x, at).incidents ==
      map y | y in t.incidents.Keys + {x} :: if y in t.incidents then t.incidents[y] else Incident(at, at, 1)
  {
  }

  /** With positive ordinals, the query's maximum is the greatest of the incident's, and 0 exactly when it has none. */
  lemma {:induction false} GreatestOrdinal(rows: seq<Row>, incident: Id)
    requires forall i | 0 <= i < |rows| :: rows[i].ordinal >= 1
    ensures forall i | 0 <= i < |rows| && rows[i].incident == incident ::
      rows[i].ordinal <= MaxOrdinal(rows, incident)
    ensures MaxOrdinal(rows, incident) == 0 || exists i ::
      0 <= i < |rows| && rows[i].incident == incident && rows[i].ordinal == MaxOrdinal(rows, incident)
  {
    if rows != [] {
      GreatestOrdinal(Front(rows), incident);
      var before := MaxOrdinal(Front(rows), incident);
      if before != 0 {
        var i :| 0 <= i < |Front(rows)| && Front(rows)[i].incident == incident && Front(rows)[i].ordinal == before;
        assert rows[i] == Front(rows)[i];
      }
      assert forall i | 0 <= i < |rows| - 1 :: rows[i] == Front(rows)[i];
    }
  }

  /** A recorded occurrence is the incident's next, moves only its counter and its last sighting, and only forwards. */
  lemma RecordsNext(t: Tables, id: Id, incident: Id, digest: string, at: Time)
    requires Accounted(t, incident) && Record(t, id, incident, digest, at).1.None?
    ensures incident in t.incidents
    ensures
      var n, was := |RowsOf(t.rows, incident)| + 1, t.incidents[incident];
      var later := if at <= was.lastSeen then was.lastSeen else at;
      Record(t, id, incident, digest, at).0 ==
        Tables(t.incidents[incident := Incident(was.firstSeen, later, n)],
               t.rows + [Row(id, incident, n, digest, at)])
  {
    assert MaxOrdinal(t.rows, incident) == |RowsOf(t.rows, incident)|;
  }

  lemma RecordKept(t: Tables, id: Id, incident: Id, digest: string, at: Time)
    ensures (forall x :: Accounted(t, x)) ==> forall x :: Accounted(Record(t, id, incident, digest, at).0, x)
  {
    if forall x :: Accounted(t, x) {
      forall x ensures Accounted(Record(t, id, incident, digest, at).0, x) {
        RecordAccounted(t, id, incident, digest, at, x);
      }
    }
  }

  class OccurrenceTables {
    var incidents: map<Id, Incident>
    var rows: seq<Row>

    function Snapshot(): Tables
      reads this
    {
      Tables(incidents, rows)
    }

    constructor ()
      ensures Snapshot() == Tables(map[], [])
    {
      incidents, rows := map[], [];
    }

    method HighestOrdinal(incident: Id) returns (highest: int)
      ensures highest == MaxOrdinal(rows, incident)
    {
      highest := 0;
      for i := 0 to |rows|
        invariant highest == MaxOrdinal(rows[..i], incident)
      {
        assert Front(rows[..i + 1]) == rows[..i] && Last(rows[..i + 1]) == rows[i];
        if rows[i].incident == incident && (highest == 0 || rows[i].ordinal > highest) {
          highest := rows[i].ordinal;
        }
      }
      assert rows[..|rows|] == rows;
    }

    /** `record_incident_occurrence`. */
    method RecordIncidentOccurrence(id: Id, incident: Id, digest: string, at: Time) returns (fault: Option<Fault>)
      modifies this
      ensures (Snapshot(), fault) == Record(old(Snapshot()), id, incident, digest, at)
      ensures (forall x :: Accounted(old(Snapshot()), x)) ==> forall x :: Accounted(Snapshot(), x)
    {
      RecordKept(Snapshot(), id, incident, digest, at);
      if Blank(digest) {
        return Some(DigestRequired);
      }
      if incident !in incidents {
        return Some(UnknownIncident);
      }
      var highest := HighestOrdinal(incident);
      var ordinal := highest + 1;
      if exists i ::
        0 <= i < |rows| && (rows[i].id == id || (rows[i].incident == incident && rows[i].ordinal == ordinal)) {
        return Some(UniqueViolation);
      }
      rows := rows + [Row(id, incident, ordinal, digest, at)];
      var was := incidents[incident];
      incidents :=
        incidents[incident := Incident(was.firstSeen, if at > was.lastSeen then at else was.lastSeen, ordinal)];
      return None;
    }
  }
}
