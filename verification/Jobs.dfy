/** The worker-job machine: the pure transitions (jobs.py) and the guarded table functions (0001, 0002). */
module Jobs {
  import opened Prelude
  import opened Strings

  datatype JobStatus = Pending | Running | Retry | Completed | DeadLettered

  datatype Job = Job(
    status: JobStatus, attempts: int, maxAttempts: int, lockedBy: Option<string>, lastError: Option<string>)
  {
    /** The constructor accepts the job. */
    predicate Valid() { 0 <= attempts <= maxAttempts && maxAttempts > 0 }
  }

  datatype Fault = InvalidTransition | BudgetExhausted | WorkerRequired

  datatype Transition =
    | Claiming(worker: string)
    | Succeeding
    | Failing(error: string, retryable: bool)
    | Recovering(error: string)

  function Claim(j: Job, worker: string): Result<Job, Fault> {
    if j.status != Pending && j.status != Retry then Error(InvalidTransition)
    else if j.attempts >= j.maxAttempts then Error(BudgetExhausted)
    else if worker == "" then Error(WorkerRequired)
    else Ok(j.(status := Running, attempts := j.attempts + 1, lockedBy := Some(worker)))
  }

  function Succeed(j: Job): Result<Job, Fault> {
    if j.status != Running then Error(InvalidTransition)
    else Ok(j.(status := Completed, lockedBy := None, lastError := None))
  }

  function Fail(j: Job, error: string, retryable: bool): Result<Job, Fault> {
    if j.status != Running then Error(InvalidTransition)
    else if !retryable || j.attempts >= j.maxAttempts
    then Ok(j.(status := DeadLettered, lockedBy := None, lastError := Some(error)))
    else Ok(j.(status := Retry, lockedBy := None, lastError := Some(error)))
  }

  function RecoverExpiredLease(j: Job, error: string): Result<Job, Fault> {
    if j.status != Running then Error(InvalidTransition)
    else if j.attempts >= j.maxAttempts
    then Ok(j.(status := DeadLettered, lockedBy := None, lastError := Some(error)))
    else Ok(j.(status := Retry, lockedBy := None, lastError := Some(error)))
  }

  function Step(j: Job, t: Transition): Result<Job, Fault> {
    match t
    case Claiming(worker) => Claim(j, worker)
    case Succeeding => Succeed(j)
    case Failing(error, retryable) => Fail(j, error, retryable)
    case Recovering(error) => RecoverExpiredLease(j, error)
  }

  /** All transitions in turn; None when one of them raises. */
  function Run(j: Job, ts: seq<Transition>): Option<Job>
    decreases |ts|
  {
    if ts == [] then Some(j)
    else
      match Step(j, ts[0])
      case Error(_) => None
      case Ok(k) => Run(k, ts[1..])
  }

  function Fresh(maxAttempts: int): Job { Job(Pending, 0, maxAttempts, None, None) }

  // ---- every job is bounded ----

  predicate Waiting(j: Job) { j.status == Pending || j.status == Retry }

  /** A waiting job always has budget left, and only a running one has a holder. */
  predicate Sound(j: Job) {
    && j.Valid()
    && (Waiting(j) ==> j.attempts < j.maxAttempts)
    && (j.lockedBy.Some? <==> j.status == Running)
    && (j.status == Running ==> j.attempts > 0)
  }

  /** The transitions a job can still make. */
  function Rank(j: Job): int {
    if Waiting(j) then 2 * (j.maxAttempts - j.attempts)
    else if j.status == Running then 2 * (j.maxAttempts - j.attempts) + 1
    else 0
  }

  lemma StepKeepsSound(j: Job, t: Transition)
    requires Sound(j) && Step(j, t).Ok?
    ensures Sound(Step(j, t).value) && Rank(Step(j, t).value) < Rank(j)
    ensures Step(j, t).value.attempts == j.attempts + (if t.Claiming? then 1 else 0)
    ensures Step(j, t).value.maxAttempts == j.maxAttempts
  {
  }

  function Claims(ts: seq<Transition>): nat {
    if ts == [] then 0 else (if ts[0].Claiming? then 1 else 0) + Claims(ts[1..])
  }

  lemma {:induction false} RunBounded(j: Job, ts: seq<Transition>)
    requires Sound(j) && Run(j, ts).Some?
    ensures Sound(Run(j, ts).value) && Run(j, ts).value.maxAttempts == j.maxAttempts
    ensures |ts| + Rank(Run(j, ts).value) <= Rank(j)
    ensures Run(j, ts).value.attempts == j.attempts + Claims(ts)
    decreases |ts|
  {
    if ts != [] {
      StepKeepsSound(j, ts[0]);
      RunBounded(Step(j, ts[0]).value, ts[1..]);
    }
  }

  /**
   A job makes at most twice its maximum of transitions and at most its maximum of claims, and while it waits it
   has budget left.
   */
  lemma JobsAreBounded(maxAttempts: int, ts: seq<Transition>)
    requires maxAttempts > 0 && Run(Fresh(maxAttempts), ts).Some?
    ensures |ts| <= 2 * maxAttempts && Claims(ts) <= maxAttempts
    ensures
      var j := Run(Fresh(maxAttempts), ts).value;
      j.attempts == Claims(ts) && (Waiting(j) ==> Claims(ts) < maxAttempts)
  {
    RunBounded(Fresh(maxAttempts), ts);
  }

  lemma RunCons(j: Job, t: Transition, ts: seq<Transition>)
    ensures Run(j, [t] + ts) == if Step(j, t).Ok? then Run(Step(j, t).value, ts) else None
    ensures Claims([t] + ts) == (if t.Claiming? then 1 else 0) + Claims(ts)
  {
    assert ([t] + ts)[1..] == ts;
  }

  lemma RunOne(j: Job, t: Transition)
    requires Step(j, t).Ok?
    ensures Run(j, [t]) == Some(Step(j, t).value)
  {
    RunCons(j, t, []);
    assert [t] + [] == [t];
  }

  function Exhaust(n: nat): seq<Transition> {
    if n == 0 then [] else [Claiming("worker")] + ([Failing("error", true)] + Exhaust(n - 1))
  }

  /** Both bounds are reached: a job that always fails retryably spends its whole budget. */
  lemma {:induction false} BoundsReached(j: Job, n: nat)
    requires Sound(j) && Waiting(j) && n == j.maxAttempts - j.attempts
    ensures Run(j, Exhaust(n)).Some? && Run(j, Exhaust(n)).value.status == DeadLettered
    ensures |Exhaust(n)| == Rank(j) && Claims(Exhaust(n)) == n
    decreases n
  {
    RunCons(j, Claiming("worker"), [Failing("error", true)] + Exhaust(n - 1));
    var k := Step(j, Claiming("worker")).value;
    RunCons(k, Failing("error", true), Exhaust(n - 1));
    if n > 1 { BoundsReached(Step(k, Failing("error", true)).value, n - 1); }
  }

  // ---- the table ----

  type Id = string
  type Time = int

  datatype Row = Row(
    job: Job, leaseExpiresAt: Option<Time>, availableAt: Time, createdAt: Time)

  type Table = map<Id, Row>

  /** A row whose lease ran out, or that waits. */
  predicate Free(r: Row, now: Time) {
    Waiting(r.job) || (r.job.status == Running && r.leaseExpiresAt.Some? && r.leaseExpiresAt.value <= now)
  }

  /** The first statement of claim_worker_job: free rows without budget are dead-lettered. */
  function Expire(r: Row, now: Time): Row {
    if Free(r, now) && r.job.attempts >= r.job.maxAttempts then
      Row(r.job.(status := DeadLettered, lockedBy := None,
                 lastError := if r.job.lastError.Some? then r.job.lastError else Some("retry budget exhausted")),
          None, r.availableAt, r.createdAt)
    else r
  }

  predicate Claimable(r: Row, now: Time) {
    r.availableAt <= now && r.job.attempts < r.job.maxAttempts && Free(r, now)
  }

  function Take(r: Row, worker: string, now: Time, lease: int): Row {
    Row(r.job.(status := Running, attempts := r.job.attempts + 1, lockedBy := Some(worker)),
        Some(now + lease), r.availableAt, r.createdAt)
  }

  /** `ORDER BY available_at, created_at, id`. */
  predicate Before(t: Table, a: Id, b: Id)
    requires a in t && b in t
  {
    || t[a].availableAt < t[b].availableAt
    || (t[a].availableAt == t[b].availableAt && t[a].createdAt < t[b].createdAt)
    || (t[a].availableAt == t[b].availableAt && t[a].createdAt == t[b].createdAt && Less(a, b))
  }

  predicate Candidate(t: Table, now: Time, locked: set<Id>, id: Id) {
    id in t && id !in locked && Claimable(t[id], now)
  }

  /** The row the query returns: the first candidate that no other transaction has locked. */
  ghost predicate First(t: Table, now: Time, locked: set<Id>, id: Id) {
    Candidate(t, now, locked, id) && forall o | Candidate(t, now, locked, o) && o != id :: Before(t, id, o)
  }

  lemma FirstUnique(t: Table, now: Time, locked: set<Id>, a: Id, b: Id)
    requires First(t, now, locked, a) && First(t, now, locked, b)
    ensures a == b
  {
    if a != b { LessTotal(a, b); }
  }

  function Expired(t: Table, now: Time): Table { map id | id in t :: Expire(t[id], now) }

  ghost function Chosen(t: Table, now: Time, locked: set<Id>): Option<Id> {
    if exists id :: First(t, now, locked, id) then
      var id :| First(t, now, locked, id);
      Some(id)
    else None
  }

  datatype Call =
    | Inserts(id: Id, maxAttempts: int, at: Time)
    | Takes(worker: string, lease: int, locked: set<Id>)
    | Completes(id: Id, worker: string)
    | Fails(id: Id, worker: string, error: string, retryable: bool, delay: int)

  predicate HeldBy(t: Table, id: Id, worker: string) {
    id in t && t[id].job.status == Running && t[id].job.lockedBy == Some(worker)
  }

  /** One guarded call at a time; a call that raises leaves the table as it was. */
  ghost function Next(t: Table, now: Time, c: Call): Table {
    match c
    case Inserts(id, maxAttempts, at) =>
      if id in t || maxAttempts <= 0 then t else t[id := Row(Fresh(maxAttempts), None, at, now)]
    case Takes(worker, lease, locked) =>
      if Blank(worker) || lease <= 0 || lease > 86400 then t
      else
        var swept := Expired(t, now);
        var chosen := Chosen(swept, now, locked);
        if chosen.None? then swept else swept[chosen.value := Take(swept[chosen.value], worker, now, lease)]
    case Completes(id, worker) =>
      if Blank(worker) || !HeldBy(t, id, worker) then t
      else t[id := Row(t[id].job.(status := Completed, lockedBy := None, lastError := None), None, t[id].availableAt,
        t[id].createdAt)]
    case Fails(id, worker, error, retryable, delay) =>
      if Blank(worker) || delay < 0 || delay > 86400 || !HeldBy(t, id, worker) then t
      else
        var again := retryable && t[id].job.attempts < t[id].job.maxAttempts;
        t[id := Row(
          t[id].job.(status := if again then Retry else DeadLettered, lockedBy := None, lastError := Some(error)),
          None, if again then now + delay else t[id].availableAt, t[id].createdAt)]
  }

  // ---- the table against the pure machine, ignoring last_error ----

  function Erase(j: Job): Job { j.(lastError := None) }

  predicate SameButError(a: Option<Job>, b: Job) { a.Some? && Erase(a.value) == Erase(b) }

  /** Reclaiming an expired lease with budget left is recovering it and then claiming. */
  lemma ReclaimIsRecoverThenClaim(r: Row, worker: string, now: Time, lease: int)
    requires Sound(r.job) && r.job.status == Running && Claimable(r, now) && !Blank(worker)
    ensures SameButError(Run(r.job, [Recovering("worker lease expired"), Claiming(worker)]),
      Take(Expire(r, now), worker, now, lease).job)
  {
    assert Blank("");
    var k := Step(r.job, Recovering("worker lease expired")).value;
    RunCons(r.job, Recovering("worker lease expired"), [Claiming(worker)]);
    assert [Recovering("worker lease expired")] + [Claiming(worker)] ==
      [Recovering("worker lease expired"), Claiming(worker)];
    RunOne(k, Claiming(worker));
  }

  /** What a call did to a row, in the pure machine's transitions. */
  ghost function Explained(t: Table, now: Time, c: Call, id: Id): seq<Transition>
    requires id in t
  {
    match c
    case Inserts(_, _, _) => []
    case Takes(worker, lease, locked) =>
      if Blank(worker) || lease <= 0 || lease > 86400 then []
      else if Chosen(Expired(t, now), now, locked) == Some(id) then
        if t[id].job.status == Running then [Recovering("worker lease expired"), Claiming(worker)]
          else [Claiming(worker)]
      else if Expire(t[id], now) != t[id] then [Recovering("worker lease expired")]
      else []
    case Completes(x, worker) => if x == id && !Blank(worker) && HeldBy(t, id, worker) then [Succeeding] else []
    case Fails(x, worker, error, retryable, delay) =>
      if x == id && !Blank(worker) && 0 <= delay <= 86400 && HeldBy(t, id, worker) then [Failing(error, retryable)]
        else []
  }

  ghost predicate AllSound(t: Table) {
    forall id {:trigger t[id]} | id in t :: Sound(t[id].job)
  }

  /** Every call is a run of the pure machine on every row, up to last_error. */
  lemma TableRefinesMachine(t: Table, now: Time, c: Call, id: Id)
    requires AllSound(t) && id in t
    ensures id in Next(t, now, c)
    ensures SameButError(Run(t[id].job, Explained(t, now, c, id)), Next(t, now, c)[id].job)
  {
    var j := t[id].job;
    match c
    case Inserts(_, _, _) =>
    case Completes(_, _) => if Explained(t, now, c, id) != [] { RunOne(j, Succeeding); }
    case Fails(_, _, error, retryable, _) => if Explained(t, now, c, id) != [] { RunOne(j, Failing(error, retryable)); }
    case Takes(worker, lease, locked) =>
      if !Blank(worker) && 0 < lease <= 86400 {
        var swept := Expired(t, now);
        if Chosen(swept, now, locked) == Some(id) {
          assert First(swept, now, locked, id);
          TakeRefines(t[id], worker, now, lease);
        } else if Expire(t[id], now) != t[id] {
          RunOne(j, Recovering("worker lease expired"));
        }
      }
  }

  lemma TakeRefines(r: Row, worker: string, now: Time, lease: int)
    requires Sound(r.job) && Claimable(Expire(r, now), now) && !Blank(worker)
    ensures Expire(r, now) == r
    ensures SameButError(
      Run(r.job, if r.job.status == Running then [Recovering("worker lease expired"), Claiming(worker)]
        else [Claiming(worker)]),
      Take(r, worker, now, lease).job)
  {
    assert Blank("");
    if r.job.status == Running {
      ReclaimIsRecoverThenClaim(r, worker, now, lease);
    } else {
      RunOne(r.job, Claiming(worker));
    }
  }

  // ---- whole runs of the table ----

  datatype Timed = Timed(now: Time, call: Call)

  ghost function After(run: seq<Timed>): Table {
    if run == [] then map[] else Next(After(Front(run)), Last(run).now, Last(run).call)
  }

  /** The worker that claimed the job in this step, if any. */
  ghost function Claimant(t: Table, now: Time, c: Call, id: Id): seq<string> {
    if c.Takes? && !Blank(c.worker) && 0 < c.lease <= 86400 && Chosen(Expired(t, now), now, c.locked) == Some(id)
    then [c.worker] else []
  }

  /** Every worker that was given the job, in order. */
  ghost function Holders(run: seq<Timed>, id: Id): seq<string> {
    if run == [] then []
    else Holders(Front(run), id) + Claimant(After(Front(run)), Last(run).now, Last(run).call, id)
  }

  /** A running job is held by the last worker it was given to, and has been attempted once for each. */
  ghost predicate Accounted(t: Table, holders: seq<string>, id: Id) {
    if id !in t then holders == []
    else
      && Sound(t[id].job) && t[id].job.attempts == |holders|
      && (t[id].job.status == Running ==> t[id].job.lockedBy == Some(Last(holders)))
  }

  lemma ChosenIsThere(t: Table, now: Time, locked: set<Id>, id: Id)
    requires Chosen(Expired(t, now), now, locked) == Some(id)
    ensures id in t && Claimable(Expire(t[id], now), now)
  {
    assert First(Expired(t, now), now, locked, id);
  }

  lemma StepAccounted(t: Table, now: Time, c: Call, holders: seq<string>, id: Id)
    requires Accounted(t, holders, id)
    ensures Accounted(Next(t, now, c), holders + Claimant(t, now, c, id), id)
  {
    if c.Takes? && !Blank(c.worker) && 0 < c.lease <= 86400 {
      var chosen := Chosen(Expired(t, now), now, c.locked);
      if chosen.Some? { ChosenIsThere(t, now, c.locked, chosen.value); }
    }
  }

  lemma {:induction false} AlwaysAccounted(run: seq<Timed>, id: Id)
    ensures Accounted(After(run), Holders(run, id), id)
  {
    if run != [] {
      AlwaysAccounted(Front(run), id);
      StepAccounted(After(Front(run)), Last(run).now, Last(run).call, Holders(Front(run), id), id);
    }
  }

  /**
   Over every run of the guarded functions, a job is given out at most its maximum of times, and waits only with
   budget left.
   */
  lemma TableJobsAreBounded(run: seq<Timed>, id: Id)
    requires id in After(run)
    ensures |Holders(run, id)| <= After(run)[id].job.maxAttempts
    ensures Waiting(After(run)[id].job) ==> |Holders(run, id)| < After(run)[id].job.maxAttempts
  {
    AlwaysAccounted(run, id);
  }

  /**
   When every claim uses its own worker id, only the last holder can complete or fail the job: a superseded one
   changes nothing.
   */
  lemma SupersededHolderRefused(run: seq<Timed>, id: Id, n: nat, now: Time, error: string, retryable: bool, delay: int)
    requires n + 1 < |Holders(run, id)|
    requires forall i, j | 0 <= i < j < |Holders(run, id)| :: Holders(run, id)[i] != Holders(run, id)[j]
    ensures !HeldBy(After(run), id, Holders(run, id)[n])
    ensures Next(After(run), now, Completes(id, Holders(run, id)[n])) == After(run)
    ensures Next(After(run), now, Fails(id, Holders(run, id)[n], error, retryable, delay)) == After(run)
  {
    AlwaysAccounted(run, id);
  }

  // ---- the table as mutable state ----

  class WorkerJobs {
    var jobs: Table

    constructor ()
      ensures jobs == map[]
    {
      jobs := map[];
    }

    /** `claim_worker_job`: sweep, then take the first candidate no other transaction has locked. */
    method ClaimWorkerJob(worker: string, lease: int, now: Time, locked: set<Id>) returns (claimed: Option<Id>)
      modifies this
      ensures jobs == Next(old(jobs), now, Takes(worker, lease, locked))
      ensures Blank(worker) || lease <= 0 || lease > 86400 ==> claimed.None?
      ensures !Blank(worker) && 0 < lease <= 86400 ==> claimed == Chosen(Expired(old(jobs), now), now, locked)
    {
      if Blank(worker) || lease <= 0 || lease > 86400 {
        return None;
      }
      jobs := map id | id in jobs :: Expire(jobs[id], now);
      claimed := FirstCandidate(now, locked);
      if claimed.Some? {
        jobs := jobs[claimed.value := Take(jobs[claimed.value], worker, now, lease)];
      }
    }

    method FirstCandidate(now: Time, locked: set<Id>) returns (best: Option<Id>)
      ensures best == Chosen(jobs, now, locked)
      ensures best.Some? ==> best.value in jobs
    {
      best := None;
      var left := jobs.Keys;
      while left != {}
        invariant left <= jobs.Keys
        invariant best.Some? ==> Candidate(jobs, now, locked, best.value) && best.value !in left
        invariant best.Some? ==>
          forall o | Candidate(jobs, now, locked, o) && o !in left && o != best.value :: Before(jobs, best.value, o)
        invariant best.None? ==> forall o | o in jobs && o !in left :: !Candidate(jobs, now, locked, o)
        decreases |left|
      {
        var id :| id in left;
        left := left - {id};
        if id !in locked && Claimable(jobs[id], now) {
          if best.None? {
            best := Some(id);
          } else {
            LessTotal(id, best.value);
            if Before(jobs, id, best.value) {
              forall o | Candidate(jobs, now, locked, o) && o !in left && o != id ensures Before(jobs, id, o) {
                if o != best.value { BeforeTransitive(jobs, id, best.value, o); }
              }
              best := Some(id);
            }
          }
        }
      }
      if best.Some? {
        assert First(jobs, now, locked, best.value);
        FirstUnique(jobs, now, locked, best.value, Chosen(jobs, now, locked).value);
      }
    }

    /** `complete_worker_job`. */
    method CompleteWorkerJob(id: Id, worker: string, now: Time) returns (ok: bool)
      modifies this
      ensures jobs == Next(old(jobs), now, Completes(id, worker))
      ensures ok <==> !Blank(worker) && HeldBy(old(jobs), id, worker)
    {
      if Blank(worker) || !(id in jobs && jobs[id].job.status == Running && jobs[id].job.lockedBy == Some(worker)) {
        return false;
      }
      var r := jobs[id];
      jobs := jobs[id :=
        Row(r.job.(status := Completed, lockedBy := None, lastError := None), None, r.availableAt, r.createdAt)];
      return true;
    }

    /** `fail_worker_job`. */
    method FailWorkerJob(id: Id, worker: string, error: string, retryable: bool, delay: int, now: Time)
      returns (ok: bool)
      modifies this
      ensures jobs == Next(old(jobs), now, Fails(id, worker, error, retryable, delay))
      ensures ok <==> !Blank(worker) && 0 <= delay <= 86400 && HeldBy(old(jobs), id, worker)
    {
      if Blank(worker) || delay < 0 || delay > 86400
         || !(id in jobs && jobs[id].job.status == Running && jobs[id].job.lockedBy == Some(worker)) {
        return false;
      }
      var r := jobs[id];
      var again := retryable && r.job.attempts < r.job.maxAttempts;
      var status := if again then Retry else DeadLettered;
      var available := if again then now + delay else r.availableAt;
      jobs := jobs[id :=
        Row(r.job.(status := status, lockedBy := None, lastError := Some(error)), None, available, r.createdAt)];
      return true;
    }
  }

  lemma BeforeTransitive(t: Table, a: Id, b: Id, c: Id)
    requires a in t && b in t && c in t && Before(t, a, b) && Before(t, b, c)
    ensures Before(t, a, c)
  {
    if Less(a, b) && Less(b, c) { LessTransitive(a, b, c); }
  }
}
