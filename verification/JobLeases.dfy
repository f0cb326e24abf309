/** What callers of the job table rely on: leases, delays, the order of claims, and the language of transitions. */
module JobLeases {
  import opened Prelude
  import opened Strings
  import opened Jobs

  // ---- the pure machine: a job is its history ----

  lemma {:induction false} RunSnoc(j: Job, ts: seq<Transition>, t: Transition)
    ensures Run(j, ts + [t]) ==
      match Run(j, ts)
      case None => None
      case Some(k) => if Step(k, t).Ok? then Some(Step(k, t).value) else None
    decreases |ts|
  {
    if ts == [] {
      RunCons(j, t, []);
      assert [] + [t] == [t] + [];
    } else {
      assert ts == [ts[0]] + ts[1..] && ts + [t] == [ts[0]] + (ts[1..] + [t]);
      RunCons(j, ts[0], ts[1..] + [t]);
      RunCons(j, ts[0], ts[1..]);
      if Step(j, ts[0]).Ok? { RunSnoc(Step(j, ts[0]).value, ts[1..], t); }
    }
  }

  /** After this transition the job waits to be claimed again, if its budget allows. */
  predicate Returns(t: Transition) { t.Recovering? || (t.Failing? && t.retryable) }

  /** The i-th transition may follow those before it. */
  predicate Follows(maxAttempts: int, ts: seq<Transition>, i: nat)
    requires i < |ts|
  {
    if i % 2 == 0 then
      ts[i].Claiming? && ts[i].worker != "" && i / 2 < maxAttempts && (i > 0 ==> Returns(ts[i - 1]))
    else !ts[i].Claiming?
  }

  /**
   Claims by named workers alternate with what ends them; only a retryable failure or a lost lease is followed
   by another claim, and only while fewer than the maximum have been made.
   */
  ghost predicate Legal(maxAttempts: int, ts: seq<Transition>) {
    forall i | 0 <= i < |ts| :: Follows(maxAttempts, ts, i)
  }

  /** What the job is after a legal history, by its last transition. */
  predicate Reflects(j: Job, maxAttempts: int, ts: seq<Transition>) {
    && j.maxAttempts == maxAttempts && j.attempts == (|ts| + 1) / 2
    && if ts == [] then j == Fresh(maxAttempts)
       else
         match Last(ts)
         case Claiming(worker) => j.status == Running && j.lockedBy == Some(worker)
         case Succeeding => j.status == Completed && j.lockedBy == None && j.lastError == None
         case Failing(error, retryable) =>
           && j.status == (if retryable && j.attempts < maxAttempts then Retry else DeadLettered)
           && j.lockedBy == None && j.lastError == Some(error)
         case Recovering(error) =>
           && j.status == (if j.attempts < maxAttempts then Retry else DeadLettered)
           && j.lockedBy == None && j.lastError == Some(error)
  }

  lemma LegalSnoc(maxAttempts: int, ts: seq<Transition>, t: Transition)
    ensures Legal(maxAttempts, ts + [t]) <==> Legal(maxAttempts, ts) && Follows(maxAttempts, ts + [t], |ts|)
  {
    var all := ts + [t];
    forall i | 0 <= i < |ts| ensures Follows(maxAttempts, all, i) <==> Follows(maxAttempts, ts, i) {
      assert all[i] == ts[i] && (i > 0 ==> all[i - 1] == ts[i - 1]);
    }
    if Legal(maxAttempts, all) {
      forall i | 0 <= i < |ts| ensures Follows(maxAttempts, ts, i) { assert Follows(maxAttempts, all, i); }
    }
  }

  lemma StepReflects(j: Job, maxAttempts: int, ts: seq<Transition>, t: Transition)
    requires maxAttempts > 0 && Legal(maxAttempts, ts) && Reflects(j, maxAttempts, ts)
    ensures Step(j, t).Ok? <==> Legal(maxAttempts, ts + [t])
    ensures Step(j, t).Ok? ==> Reflects(Step(j, t).value, maxAttempts, ts + [t])
  {
    LegalSnoc(maxAttempts, ts, t);
    if ts != [] {
      assert Follows(maxAttempts, ts, |ts| - 1);
      assert (ts + [t])[|ts| - 1] == Last(ts);
    }
    assert Last(ts + [t]) == t;
  }

  /** The machine accepts exactly the legal histories, and the job is then what its history says. */
  lemma {:induction false} RunsExactly(maxAttempts: int, ts: seq<Transition>)
    requires maxAttempts > 0
    ensures Run(Fresh(maxAttempts), ts).Some? <==> Legal(maxAttempts, ts)
    ensures Legal(maxAttempts, ts) ==> Reflects(Run(Fresh(maxAttempts), ts).value, maxAttempts, ts)
  {
    if ts != [] {
      var before, t := Front(ts), Last(ts);
      assert ts == before + [t];
      RunsExactly(maxAttempts, before);
      RunSnoc(Fresh(maxAttempts), before, t);
      LegalSnoc(maxAttempts, before, t);
      if Legal(maxAttempts, before) { StepReflects(Run(Fresh(maxAttempts), before).value, maxAttempts, before, t); }
    }
  }

  // ---- which job a claim gives out ----

  predicate Named(worker: string) { exists i :: 0 <= i < |worker| && worker[i] != ' ' }

  predicate GoodClaim(worker: string, lease: int) { Named(worker) && 1 <= lease <= 86400 }

  lemma GoodClaimExactly(worker: string, lease: int)
    ensures GoodClaim(worker, lease) <==> !(Blank(worker) || lease <= 0 || lease > 86400)
  {
  }

  /** Waiting, or held under a lease that is over. */
  predicate Loose(r: Row, now: Time) {
    || r.job.status in {Pending, Retry}
    || (r.job.status == Running && r.leaseExpiresAt.Some? && r.leaseExpiresAt.value <= now)
  }

  /** Loose and due, with budget left. */
  predicate Available(r: Row, now: Time) {
    Loose(r, now) && r.availableAt <= now && r.job.attempts < r.job.maxAttempts
  }

  /** Earlier due, then earlier created, then smaller id. */
  predicate Ahead(t: Table, a: Id, b: Id)
    requires a in t && b in t
  {
    var x, y := t[a], t[b];
    if x.availableAt != y.availableAt then x.availableAt < y.availableAt
    else if x.createdAt != y.createdAt then x.createdAt < y.createdAt
    else Less(a, b)
  }

  lemma SweepKeepsAvailable(t: Table, now: Time, locked: set<Id>, id: Id)
    ensures Candidate(Expired(t, now), now, locked, id) <==> id in t && id !in locked && Available(t[id], now)
    ensures id in t && Available(t[id], now) ==> Expired(t, now)[id] == t[id]
  {
  }

  lemma {:induction false} FirstOf(t: Table, ids: set<Id>) returns (id: Id)
    requires ids != {} && ids <= t.Keys
    ensures id in ids && forall x | x in ids && x != id :: Before(t, id, x)
    decreases |ids|
  {
    var x :| x in ids;
    if ids == {x} {
      id := x;
    } else {
      var y := FirstOf(t, ids - {x});
      LessTotal(x, y);
      if Before(t, x, y) {
        id := x;
        forall z | z in ids && z != id ensures Before(t, id, z) { if z != y { BeforeTransitive(t, x, y, z); } }
      } else {
        id := y;
      }
    }
  }

  lemma ChosenExactly(t: Table, now: Time, locked: set<Id>, id: Id)
    ensures Chosen(t, now, locked) == Some(id) <==> First(t, now, locked, id)
    ensures Chosen(t, now, locked).None? <==> forall x :: !Candidate(t, now, locked, x)
  {
    if First(t, now, locked, id) { FirstUnique(t, now, locked, id, Chosen(t, now, locked).value); }
    if x :| Candidate(t, now, locked, x) {
      var ids := set y | y in t && Candidate(t, now, locked, y);
      assert x in ids;
      var y := FirstOf(t, ids);
      assert First(t, now, locked, y);
    }
  }

  /** A claim gives out the first available row that no other transaction has locked, and nothing when there is none. */
  lemma ClaimsTheFirst(t: Table, now: Time, locked: set<Id>, id: Id)
    ensures Chosen(Expired(t, now), now, locked) == Some(id) <==>
      && id in t && id !in locked && Available(t[id], now)
      && forall o | o in t && o !in locked && o != id && Available(t[o], now) :: Ahead(t, id, o)
    ensures Chosen(Expired(t, now), now, locked).None? <==> forall o | o in t && o !in locked :: !Available(t[o], now)
  {
    var swept := Expired(t, now);
    ChosenExactly(swept, now, locked, id);
    forall o ensures Candidate(swept, now, locked, o) <==> o in t && o !in locked && Available(t[o], now) {
      SweepKeepsAvailable(t, now, locked, o);
    }
    if id in t && Available(t[id], now) { SweepKeepsAvailable(t, now, locked, id); }
    forall o | o in t && Available(t[o], now) ensures swept[o] == t[o] { SweepKeepsAvailable(t, now, locked, o); }
  }

  // ---- what each call does to a row ----

  /** Loose, with no budget left. */
  predicate Spent(r: Row, now: Time) { Loose(r, now) && r.job.attempts >= r.job.maxAttempts }

  function Buried(r: Row): Row {
    var reason := match r.job.lastError case Some(e) => e case None => "retry budget exhausted";
    Row(Job(DeadLettered, r.job.attempts, r.job.maxAttempts, None, Some(reason)), None, r.availableAt, r.createdAt)
  }

  /**
   A claim buries every spent row, gives one available row to the worker until its lease ends, and touches no
   other.
   */
  lemma ClaimDoes(t: Table, now: Time, worker: string, lease: int, locked: set<Id>, id: Id)
    requires id in t
    ensures
      var u := Next(t, now, Takes(worker, lease, locked));
      id in u && u[id] ==
        if !GoodClaim(worker, lease) then t[id]
        else if Spent(t[id], now) then Buried(t[id])
        else if Chosen(Expired(t, now), now, locked) == Some(id) then
          Row(Job(Running, t[id].job.attempts + 1, t[id].job.maxAttempts, Some(worker), t[id].job.lastError),
              Some(now + lease), t[id].availableAt, t[id].createdAt)
        else t[id]
  {
    GoodClaimExactly(worker, lease);
    ClaimsTheFirst(t, now, locked, id);
    var chosen := Chosen(Expired(t, now), now, locked);
    if chosen.Some? { ClaimsTheFirst(t, now, locked, chosen.value); }
  }

  /** Only a claim, or the holder's own call, changes a row. */
  lemma OthersLeaveIt(t: Table, now: Time, c: Call, id: Id)
    requires id in t && !c.Takes?
    requires c.Completes? || c.Fails? ==>
      c.id != id || t[id].job.status != Running || t[id].job.lockedBy != Some(c.worker)
    ensures id in Next(t, now, c) && Next(t, now, c)[id] == t[id]
  {
  }

  lemma InsertDoes(t: Table, now: Time, id: Id, maxAttempts: int, at: Time)
    ensures Next(t, now, Inserts(id, maxAttempts, at)) ==
      if id !in t && maxAttempts >= 1
      then t[id := Row(Job(Pending, 0, maxAttempts, None, None), None, at, now)] else t
  {
  }

  lemma CompleteDoes(t: Table, now: Time, id: Id, worker: string)
    requires id in t && t[id].job.status == Running && t[id].job.lockedBy == Some(worker) && Named(worker)
    ensures
      var j := t[id].job;
      Next(t, now, Completes(id, worker)) ==
        t[id := Row(Job(Completed, j.attempts, j.maxAttempts, None, None), None, t[id].availableAt, t[id].createdAt)]
  {
  }

  lemma FailDoes(t: Table, now: Time, id: Id, worker: string, error: string, retryable: bool, delay: int)
    requires id in t && t[id].job.status == Running && t[id].job.lockedBy == Some(worker) && Named(worker)
    ensures
      var r, j := t[id], t[id].job;
      Next(t, now, Fails(id, worker, error, retryable, delay)) ==
        if !(0 <= delay <= 86400) then t
        else if retryable && j.attempts < j.maxAttempts
        then t[id := Row(Job(Retry, j.attempts, j.maxAttempts, None, Some(error)), None, now + delay, r.createdAt)]
        else
          t[id := Row(
            Job(DeadLettered, j.attempts, j.maxAttempts, None, Some(error)), None, r.availableAt, r.createdAt)]
  {
  }

  // ---- leases ----

  ghost function From(t: Table, run: seq<Timed>): Table {
    if run == [] then t else Next(From(t, Front(run)), Last(run).now, Last(run).call)
  }

  predicate Held(t: Table, id: Id, worker: string, until: Time) {
    id in t && t[id].job.status == Running && t[id].job.lockedBy == Some(worker) && t[id].leaseExpiresAt == Some(until)
  }

  predicate OwnEnd(c: Call, id: Id, worker: string) { (c.Completes? || c.Fails?) && c.id == id && c.worker == worker }

  /** While the lease runs, nobody but its holder moves the job. */
  lemma StepKeepsLease(t: Table, now: Time, c: Call, id: Id, worker: string, until: Time)
    requires Held(t, id, worker, until) && now < until && !OwnEnd(c, id, worker)
    ensures id in Next(t, now, c) && Next(t, now, c)[id] == t[id] && Claimant(t, now, c, id) == []
  {
    if c.Takes? {
      ClaimDoes(t, now, c.worker, c.lease, c.locked, id);
      ClaimsTheFirst(t, now, c.locked, id);
    } else {
      OthersLeaveIt(t, now, c, id);
    }
  }

  ghost predicate Undisturbed(more: seq<Timed>, id: Id, worker: string, until: Time) {
    forall i {:trigger more[i]} | 0 <= i < |more| :: more[i].now < until && !OwnEnd(more[i].call, id, worker)
  }

  /** The workers given the job in a run that starts from t. */
  ghost function HoldersFrom(t: Table, run: seq<Timed>, id: Id): seq<string> {
    if run == [] then []
    else HoldersFrom(t, Front(run), id) + Claimant(From(t, Front(run)), Last(run).now, Last(run).call, id)
  }

  lemma {:induction false} LeaseKept(t: Table, more: seq<Timed>, id: Id, worker: string, until: Time)
    requires Held(t, id, worker, until) && Undisturbed(more, id, worker, until)
    ensures id in From(t, more) && From(t, more)[id] == t[id] && HoldersFrom(t, more, id) == []
  {
    if more != [] {
      var before := Front(more);
      forall i {:trigger before[i]} | 0 <= i < |before|
        ensures before[i].now < until && !OwnEnd(before[i].call, id, worker)
      {
        assert before[i] == more[i];
      }
      assert more[|more| - 1] == Last(more);
      LeaseKept(t, before, id, worker, until);
      StepKeepsLease(From(t, before), Last(more).now, Last(more).call, id, worker, until);
    }
  }

  /**
   A job claimed at a time for a lease stays RUNNING under its worker, given to nobody else and touched by no
   recovery, over every run whose clocks are before the end of the lease and in which that worker does not end it.
   */
  lemma LeaseProtects(t: Table, now: Time, worker: string, lease: int, locked: set<Id>, id: Id, more: seq<Timed>)
    requires GoodClaim(worker, lease) && Chosen(Expired(t, now), now, locked) == Some(id)
    requires Undisturbed(more, id, worker, now + lease)
    ensures id in t
    ensures
      var u := From(Next(t, now, Takes(worker, lease, locked)), more);
      && Held(u, id, worker, now + lease) && u[id].job.attempts == t[id].job.attempts + 1
      && HoldersFrom(Next(t, now, Takes(worker, lease, locked)), more, id) == []
  {
    ClaimsTheFirst(t, now, locked, id);
    ClaimDoes(t, now, worker, lease, locked, id);
    LeaseKept(Next(t, now, Takes(worker, lease, locked)), more, id, worker, now + lease);
  }

  /**
   From the end of the lease on, a due job is available again while it has budget, and else buried by the next
   claim.
   */
  lemma LeaseEnds(t: Table, now: Time, worker: string, until: Time, id: Id, other: string, lease: int, locked: set<Id>)
    requires Held(t, id, worker, until) && until <= now && t[id].availableAt <= now && GoodClaim(other, lease)
    ensures t[id].job.attempts < t[id].job.maxAttempts ==> Available(t[id], now)
    ensures t[id].job.attempts >= t[id].job.maxAttempts ==>
      var u := Next(t, now, Takes(other, lease, locked));
      id in u && u[id].job.status == DeadLettered && u[id].job.lockedBy == None && u[id].leaseExpiresAt == None
  {
    ClaimDoes(t, now, other, lease, locked, id);
  }

  // ---- delays and ends ----

  /** A row no call at this time can give out or change: due later, and waiting or ended for good. */
  lemma NotDueStays(t: Table, now: Time, c: Call, id: Id)
    requires id in t && t[id].job.status in {Pending, Retry} && now < t[id].availableAt
    requires t[id].job.attempts < t[id].job.maxAttempts
    ensures id in Next(t, now, c) && Next(t, now, c)[id] == t[id] && Claimant(t, now, c, id) == []
  {
    if c.Takes? {
      ClaimDoes(t, now, c.worker, c.lease, c.locked, id);
      ClaimsTheFirst(t, now, c.locked, id);
    } else {
      OthersLeaveIt(t, now, c, id);
    }
  }

  lemma {:induction false} DelayKept(t: Table, more: seq<Timed>, id: Id)
    requires id in t && t[id].job.status in {Pending, Retry} && t[id].job.attempts < t[id].job.maxAttempts
    requires forall i {:trigger more[i]} | 0 <= i < |more| :: more[i].now < t[id].availableAt
    ensures id in From(t, more) && From(t, more)[id] == t[id] && HoldersFrom(t, more, id) == []
  {
    if more != [] {
      var before := Front(more);
      forall i {:trigger before[i]} | 0 <= i < |before| ensures before[i].now < t[id].availableAt {
        assert before[i] == more[i];
      }
      assert more[|more| - 1] == Last(more);
      DelayKept(t, before, id);
      NotDueStays(From(t, before), Last(more).now, Last(more).call, id);
    }
  }

  /**
   A retryable failure with budget left puts the job off: until the delay is over it is given to nobody, and then it
   is available.
   */
  lemma RetryWaits(
    t: Table, now: Time, id: Id, worker: string, error: string, delay: int, more: seq<Timed>)
    requires id in t && t[id].job.status == Running && t[id].job.lockedBy == Some(worker) && Named(worker)
    requires 0 <= delay <= 86400 && t[id].job.attempts < t[id].job.maxAttempts
    requires forall i {:trigger more[i]} | 0 <= i < |more| :: more[i].now < now + delay
    ensures
      var v := Next(t, now, Fails(id, worker, error, true, delay));
      var u := From(v, more);
      && id in u && u[id].job.status == Retry && u[id].job.lastError == Some(error) && HoldersFrom(v, more, id) == []
      && forall later | later >= now + delay :: Available(u[id], later)
  {
    FailDoes(t, now, id, worker, error, true, delay);
    DelayKept(Next(t, now, Fails(id, worker, error, true, delay)), more, id);
  }

  lemma {:induction false} EndedForGood(t: Table, more: seq<Timed>, id: Id)
    requires id in t && t[id].job.status in {Completed, DeadLettered}
    ensures id in From(t, more) && From(t, more)[id] == t[id] && HoldersFrom(t, more, id) == []
  {
    if more != [] {
      EndedForGood(t, Front(more), id);
      var u, m := From(t, Front(more)), Last(more);
      if m.call.Takes? {
        ClaimDoes(u, m.now, m.call.worker, m.call.lease, m.call.locked, id);
        ClaimsTheFirst(u, m.now, m.call.locked, id);
      } else {
        OthersLeaveIt(u, m.now, m.call, id);
      }
    }
  }
}
