/** The durable job table (system/job_store.py) and the lease protocol it enforces.

    Every store method is one SQL statement in one transaction, so it is one atomic step here. The
    database clock now() is an argument of each step; the model assumes that steps commit in the order
    of their clocks, and that uuid4 never repeats an attempt id. */
module JobLease {
  import opened Wrappers

  type JobId = nat       // UUIDs, which PostgreSQL orders as 128-bit numbers
  type AttemptId = nat
  type Json = string
  type Time = int        // microseconds of the database clock

  const SECOND: Time := 1_000_000

  datatype Status = Queued | Running | Succeeded | Failed

  datatype Error = Error(code: string, message: string)

  const DEADLINE_ERROR := Error("deadline_exceeded", "job deadline exceeded")

  datatype Row = Row(
    status: Status,
    spec: Json,
    specSha: string,
    attemptId: Option<AttemptId>,
    attempts: nat,
    leaseUntil: Option<Time>,
    nextAttemptAt: Time,
    deadlineAt: Time,
    createdAt: Time,
    result: Option<Json>,
    error: Option<Error>
  ) {
    predicate Terminal() {
      status in {Succeeded, Failed}
    }

    /** The WHERE clause shared by renew, complete and defer. */
    predicate HeldBy(attempt: AttemptId, now: Time) {
      && attemptId == Some(attempt)
      && status == Running
      && leaseUntil.Some? && now < leaseUntil.value
      && now < deadlineAt
    }

    /** The WHERE clause of claim, without the optional job id. */
    predicate Due(now: Time) {
      && now < deadlineAt
      && (|| (status == Queued && nextAttemptAt <= now)
          || (status == Running && leaseUntil.Some? && leaseUntil.value <= now))
    }

    predicate Expired(now: Time) {
      status in {Queued, Running} && deadlineAt <= now
    }
  }

  /** A successful claim and a successful call of complete. */
  datatype Claim = Claim(job: JobId, attempt: AttemptId, at: Time)
  datatype Completion = Completion(job: JobId, attempt: AttemptId, result: Option<Json>, error: Option<Error>)

  /** The table, the clock of its last step, and the history of what succeeded. */
  datatype Store = Store(
    rows: map<JobId, Row>,
    now: Time,
    issued: set<AttemptId>,
    claims: seq<Claim>,
    completions: seq<Completion>
  )

  /** A row returned by claim, with its key. */
  datatype Claimed = Claimed(job: JobId, row: Row)

  datatype Op =
    | InsertJob(job: JobId, row: Row)   // the business backend creates rows
    | ClaimJob(wanted: Option<JobId>, attempt: AttemptId, leaseSeconds: int, locked: set<JobId>)
    | RenewLease(job: JobId, attempt: AttemptId, leaseSeconds: int)
    | CompleteJob(job: JobId, attempt: AttemptId, result: Option<Json>, error: Option<Error>)
    | DeferJob(job: JobId, attempt: AttemptId, error: Option<Error>, retrySeconds: int)
    | ExpireJobs

  datatype Event = Event(at: Time, op: Op)

  function Min(a: Time, b: Time): Time { if a <= b then a else b }

  // ---------------------------------------------------------------------------------------------
  // Choosing the row to claim
  // ---------------------------------------------------------------------------------------------

  /** ORDER BY next_attempt_at, created_at, job_id */
  predicate Before(rows: map<JobId, Row>, a: JobId, b: JobId)
    requires a in rows && b in rows
  {
    var x, y := rows[a], rows[b];
    || x.nextAttemptAt < y.nextAttemptAt
    || (x.nextAttemptAt == y.nextAttemptAt
        && (x.createdAt < y.createdAt || (x.createdAt == y.createdAt && a < b)))
  }

  /** Rows locked by a concurrent transaction are skipped (FOR UPDATE SKIP LOCKED). */
  predicate Candidate(rows: map<JobId, Row>, now: Time, wanted: Option<JobId>, locked: set<JobId>, j: JobId) {
    && j in rows && j !in locked
    && (wanted == None || wanted == Some(j))
    && rows[j].Due(now)
  }

  predicate First(rows: map<JobId, Row>, now: Time, wanted: Option<JobId>, locked: set<JobId>, j: JobId) {
    && Candidate(rows, now, wanted, locked, j)
    && forall k | k in rows :: Candidate(rows, now, wanted, locked, k) && k != j ==> Before(rows, j, k)
  }

  lemma BeforeOrder(rows: map<JobId, Row>, a: JobId, b: JobId, c: JobId)
    requires a in rows && b in rows && c in rows && a != b
    ensures Before(rows, a, b) || Before(rows, b, a)
    ensures Before(rows, a, b) && Before(rows, b, c) ==> Before(rows, a, c)
  {
  }

  lemma {:induction false} LeastExists(rows: map<JobId, Row>, ids: set<JobId>) returns (least: JobId)
    requires ids != {} && ids <= rows.Keys
    ensures least in ids && forall k | k in ids && k != least :: Before(rows, least, k)
    decreases |ids|
  {
    hide Before;
    var first :| first in ids;
    var rest := ids - {first};
    least := first;
    if rest != {} {
      var other := LeastExists(rows, rest);
      if Before(rows, other, first) {
        least := other;
      }
      forall k | k in ids && k != least ensures Before(rows, least, k) {
        if k != first {
          assert k in rest;
          BeforeOrder(rows, first, other, k);
        } else {
          assert Before(rows, other, first);
        }
      }
    } else {
      assert ids == {first};
    }
  }

  /** A claim finds a row exactly when some row qualifies. */
  lemma FirstExists(rows: map<JobId, Row>, now: Time, wanted: Option<JobId>, locked: set<JobId>)
    ensures (exists j :: Candidate(rows, now, wanted, locked, j)) <==> (exists j :: First(rows, now, wanted, locked, j))
  {
    if c :| Candidate(rows, now, wanted, locked, c) {
      var ids := set j | j in rows && Candidate(rows, now, wanted, locked, j);
      assert c in ids;
      var least := LeastExists(rows, ids);
      assert First(rows, now, wanted, locked, least);
    }
  }

  lemma BeforeAsymmetric(rows: map<JobId, Row>, a: JobId, b: JobId)
    requires a in rows && b in rows
    ensures !(Before(rows, a, b) && Before(rows, b, a))
  {
  }

  lemma FirstUnique(rows: map<JobId, Row>, now: Time, wanted: Option<JobId>, locked: set<JobId>, j: JobId, k: JobId)
    requires First(rows, now, wanted, locked, j) && First(rows, now, wanted, locked, k)
    ensures j == k
  {
    BeforeAsymmetric(rows, j, k);
  }

  ghost function Chosen(rows: map<JobId, Row>, now: Time, wanted: Option<JobId>, locked: set<JobId>): Option<JobId> {
    if exists j :: First(rows, now, wanted, locked, j) then
      var j :| First(rows, now, wanted, locked, j); Some(j)
    else None
  }

  // ---------------------------------------------------------------------------------------------
  // One step
  // ---------------------------------------------------------------------------------------------

  function Leased(r: Row, at: Time, attempt: AttemptId, leaseSeconds: int): Row {
    r.(status := Running, attemptId := Some(attempt), attempts := r.attempts + 1,
       leaseUntil := Some(Min(at + leaseSeconds * SECOND, r.deadlineAt)))
  }

  function Finished(r: Row, result: Option<Json>, error: Option<Error>): Row {
    r.(status := if error == None then Succeeded else Failed,
       result := result, error := error, leaseUntil := None)
  }

  function Postponed(r: Row, at: Time, error: Option<Error>, retrySeconds: int): Row {
    r.(status := Queued, leaseUntil := None, nextAttemptAt := at + retrySeconds * SECOND, error := error)
  }

  function TimedOut(r: Row): Row {
    r.(status := Failed, leaseUntil := None, error := Some(DEADLINE_ERROR))
  }

  /** Whether the step changes a row: the row count of an update, or a returned row for a claim. */
  ghost predicate Hits(s: Store, e: Event) {
    match e.op
    case InsertJob(j, _) => true
    case ClaimJob(wanted, _, _, locked) => Chosen(s.rows, e.at, wanted, locked).Some?
    case RenewLease(j, a, _) => j in s.rows && s.rows[j].HeldBy(a, e.at)
    case CompleteJob(j, a, _, _) => j in s.rows && s.rows[j].HeldBy(a, e.at)
    case DeferJob(j, a, _, _) => j in s.rows && s.rows[j].HeldBy(a, e.at)
    case ExpireJobs => exists j :: j in s.rows && s.rows[j].Expired(e.at)
  }

  ghost function Apply(s: Store, e: Event): Store {
    var s0 := s.(now := e.at);
    match e.op
    case InsertJob(j, row) => s0.(rows := s.rows[j := row])
    case ClaimJob(wanted, a, lease, locked) =>
      var s1 := s0.(issued := s.issued + {a});
      (match Chosen(s.rows, e.at, wanted, locked)
       case None => s1
       case Some(j) =>
         if j !in s.rows then s1 else
         s1.(rows := s.rows[j := Leased(s.rows[j], e.at, a, lease)], claims := s.claims + [Claim(j, a, e.at)]))
    case RenewLease(j, a, lease) =>
      if !Hits(s, e) then s0 else
      s0.(rows := s.rows[j := s.rows[j].(leaseUntil := Some(Min(e.at + lease * SECOND, s.rows[j].deadlineAt)))])
    case CompleteJob(j, a, result, error) =>
      if !Hits(s, e) then s0 else
      s0.(rows := s.rows[j := Finished(s.rows[j], result, error)],
          completions := s.completions + [Completion(j, a, result, error)])
    case DeferJob(j, a, error, retry) =>
      if !Hits(s, e) then s0 else
      s0.(rows := s.rows[j := Postponed(s.rows[j], e.at, error, retry)])
    case ExpireJobs =>
      s0.(rows := map j | j in s.rows :: if s.rows[j].Expired(e.at) then TimedOut(s.rows[j]) else s.rows[j])
  }

  /** The schema defaults of a row the backend inserts. */
  predicate NewRow(r: Row) {
    && r.status == Queued && r.attemptId == None && r.attempts == 0
    && r.leaseUntil == None && r.result == None && r.error == None
  }

  predicate Enabled(s: Store, e: Event) {
    && s.now <= e.at
    && (e.op.ClaimJob? ==> e.op.attempt !in s.issued)
    && (e.op.InsertJob? ==> e.op.job !in s.rows && NewRow(e.op.row))
  }

  // ---------------------------------------------------------------------------------------------
  // The row invariant
  // ---------------------------------------------------------------------------------------------

  predicate RowOk(r: Row) {
    && (r.status == Running <==> r.leaseUntil.Some?)
    && (r.leaseUntil.Some? ==> r.leaseUntil.value <= r.deadlineAt)
    && (r.attempts == 0 <==> r.attemptId == None)
    && (r.status in {Running, Succeeded} ==> r.attemptId.Some?)
    && (r.result.Some? ==> r.Terminal())
    && (r.Terminal() ==> (r.status == Succeeded <==> r.error == None))
  }

  /** The outcome of a finished row is the one recorded when complete succeeded under the attempt the row
      shows, unless the row expired, which leaves the deadline error and no result. */
  ghost predicate Recorded(s: Store, j: JobId)
    requires j in s.rows
  {
    var r := s.rows[j];
    r.Terminal() ==>
      || (r.attemptId.Some? && Completion(j, r.attemptId.value, r.result, r.error) in s.completions)
      || (r.status == Failed && r.error == Some(DEADLINE_ERROR) && r.result == None)
  }

  ghost predicate Inv(s: Store) {
    && (forall j | j in s.rows :: RowOk(s.rows[j]) && Recorded(s, j))
    && (forall j | j in s.rows :: s.rows[j].attemptId.Some? ==> s.rows[j].attemptId.value in s.issued)
    && (forall c | c in s.completions :: c.job in s.rows && s.rows[c.job].Terminal() && c.attempt in s.issued)
    && (forall c | c in s.claims :: c.job in s.rows && c.attempt in s.issued)
    && (forall i, k | 0 <= i < k < |s.completions| :: s.completions[i].job != s.completions[k].job)
  }

  lemma InitInv(now: Time)
    ensures Inv(Store(map[], now, {}, [], []))
  {
  }

  lemma InvInsert(s: Store, e: Event)
    requires Inv(s) && Enabled(s, e) && e.op.InsertJob?
    ensures Inv(Apply(s, e))
  {
  }

  lemma InvClaim(s: Store, e: Event)
    requires Inv(s) && Enabled(s, e) && e.op.ClaimJob?
    ensures Inv(Apply(s, e))
  {
  }

  lemma InvComplete(s: Store, e: Event)
    requires Inv(s) && Enabled(s, e) && e.op.CompleteJob?
    ensures Inv(Apply(s, e))
  {
  }

  lemma InvExpire(s: Store, e: Event)
    requires Inv(s) && Enabled(s, e) && e.op.ExpireJobs?
    ensures Inv(Apply(s, e))
  {
  }

  lemma InvHold(s: Store, e: Event)
    requires Inv(s) && Enabled(s, e) && (e.op.RenewLease? || e.op.DeferJob?)
    ensures Inv(Apply(s, e))
  {
  }

  lemma InvStep(s: Store, e: Event)
    requires Inv(s) && Enabled(s, e)
    ensures Inv(Apply(s, e))
  {
    match e.op
    case InsertJob(_, _) => InvInsert(s, e);
    case ClaimJob(_, _, _, _) => InvClaim(s, e);
    case CompleteJob(_, _, _, _) => InvComplete(s, e);
    case ExpireJobs => InvExpire(s, e);
    case RenewLease(_, _, _) => InvHold(s, e);
    case DeferJob(_, _, _, _) => InvHold(s, e);
  }
}
