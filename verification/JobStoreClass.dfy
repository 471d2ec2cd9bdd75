/** The store object (system/job_store.py) over a mutable table. Its trace is the run of the lease
    protocol it has performed, so everything proved about runs holds of it. */
module JobStores {
  import opened Wrappers
  import opened JobLease
  import opened JobLeaseRuns

  lemma RunAppend(s: Store, es: seq<Event>, e: Event)
    requires Inv(s) && Legal(s, es) && Enabled(Run(s, es), e)
    ensures Legal(s, es + [e]) && Run(s, es + [e]) == Apply(Run(s, es), e)
    ensures Inv(Run(s, es + [e]))
    decreases |es|
  {
    if es == [] {
      assert es + [e] == [e] && [e][1..] == [];
      InvStep(s, e);
    } else {
      assert (es + [e])[1..] == es[1..] + [e];
      InvStep(s, es[0]);
      RunAppend(Apply(s, es[0]), es[1..], e);
    }
  }

  /** The attempt holds the job: the columns that renew, complete and defer ask for. */
  predicate Holding(rows: map<JobId, Row>, job: JobId, attempt: AttemptId, at: Time) {
    && job in rows && rows[job].status == Running && rows[job].attemptId == Some(attempt)
    && rows[job].leaseUntil.Some? && at < rows[job].leaseUntil.value && at < rows[job].deadlineAt
  }

  /** The columns that claim asks for, of a row that is not locked and is the one wanted, if any is. */
  predicate Claimable(rows: map<JobId, Row>, job: JobId, at: Time, wanted: Option<JobId>, locked: set<JobId>) {
    && job in rows && job !in locked && (wanted.Some? ==> wanted.value == job) && at < rows[job].deadlineAt
    && match rows[job].status
       case Queued => rows[job].nextAttemptAt <= at
       case Running => rows[job].leaseUntil.Some? && rows[job].leaseUntil.value <= at
       case _ => false
  }

  /** Not later in the order of next_attempt_at, then created_at, then job_id. */
  predicate NoLater(rows: map<JobId, Row>, j: JobId, k: JobId)
    requires j in rows && k in rows
  {
    if rows[j].nextAttemptAt != rows[k].nextAttemptAt then rows[j].nextAttemptAt < rows[k].nextAttemptAt
    else if rows[j].createdAt != rows[k].createdAt then rows[j].createdAt < rows[k].createdAt
    else j <= k
  }

  lemma CandidateColumns(rows: map<JobId, Row>, at: Time, wanted: Option<JobId>, locked: set<JobId>, j: JobId)
    ensures Candidate(rows, at, wanted, locked, j) <==> Claimable(rows, j, at, wanted, locked)
    ensures Candidate(rows, at, wanted, locked, j) ==> j in rows
  {
  }

  lemma BeforeColumns(rows: map<JobId, Row>, j: JobId, k: JobId)
    requires j in rows && k in rows
    ensures NoLater(rows, j, k) <==> j == k || Before(rows, j, k)
  {
  }

  /** The choice of a claim by the columns: some claimable row that no other precedes, if there is one. */
  lemma ChosenColumns(rows: map<JobId, Row>, at: Time, wanted: Option<JobId>, locked: set<JobId>)
    ensures Chosen(rows, at, wanted, locked) == None <==>
              forall j | j in rows :: !Claimable(rows, j, at, wanted, locked)
    ensures forall j | Chosen(rows, at, wanted, locked) == Some(j) ::
              && Claimable(rows, j, at, wanted, locked)
              && forall k | k in rows && Claimable(rows, k, at, wanted, locked) :: NoLater(rows, j, k)
  {
    hide Candidate, Before, Claimable, NoLater;
    forall j | j in rows
      ensures Candidate(rows, at, wanted, locked, j) <==> Claimable(rows, j, at, wanted, locked)
    {
      CandidateColumns(rows, at, wanted, locked, j);
    }
    FirstExists(rows, at, wanted, locked);
    if c :| Candidate(rows, at, wanted, locked, c) {
      CandidateColumns(rows, at, wanted, locked, c);
    }
    var chosen := Chosen(rows, at, wanted, locked);
    if chosen.Some? {
      var j := chosen.value;
      assert First(rows, at, wanted, locked, j);
      CandidateColumns(rows, at, wanted, locked, j);
      forall k | k in rows && Claimable(rows, k, at, wanted, locked) ensures NoLater(rows, j, k) {
        BeforeColumns(rows, j, k);
      }
    }
  }

  /** The end of a lease taken now. */
  function LeaseEnd(at: Time, leaseSeconds: int, deadline: Time): (end: Time)
    ensures end <= deadline && end <= at + leaseSeconds * 1_000_000
    ensures end == deadline || end == at + leaseSeconds * 1_000_000
  {
    if deadline < at + leaseSeconds * 1_000_000 then deadline else at + leaseSeconds * 1_000_000
  }

  class JobStore {
    var rows: map<JobId, Row>
    var now: Time
    var issued: set<AttemptId>
    ghost const start: Store
    ghost var trace: seq<Event>

    ghost function Contents(): Store
      reads this
    {
      Run(start, trace)
    }

    ghost predicate Valid()
      reads this
    {
      && Inv(start) && Legal(start, trace) && Inv(Contents())
      && Contents().rows == rows && Contents().now == now && Contents().issued == issued
    }

    constructor (now: Time)
      ensures Valid() && rows == map[] && trace == [] && start == Store(map[], now, {}, [], [])
    {
      rows, issued := map[], {};
      this.now := now;
      start, trace := Store(map[], now, {}, [], []), [];
    }

    method Get(job: JobId) returns (row: Option<Row>)
      ensures row == if job in rows then Some(rows[job]) else None
    {
      row := if job in rows then Some(rows[job]) else None;
    }

    method Insert(at: Time, job: JobId, row: Row)
      requires Valid() && Enabled(Contents(), Event(at, InsertJob(job, row)))
      modifies this
      ensures Valid() && trace == old(trace) + [Event(at, InsertJob(job, row))]
      ensures Contents() == Apply(old(Contents()), Event(at, InsertJob(job, row)))
    {
      RunAppend(start, trace, Event(at, InsertJob(job, row)));
      rows, now := rows[job := row], at;
      trace := trace + [Event(at, InsertJob(job, row))];
    }

    /** SELECT .. FOR UPDATE SKIP LOCKED: the row a claim takes. */
    method Pick(at: Time, wanted: Option<JobId>, locked: set<JobId>) returns (pick: Option<JobId>)
      ensures pick == Chosen(rows, at, wanted, locked)
      ensures pick.Some? ==> pick.value in rows
      ensures pick == None <==> forall j | j in rows :: !Claimable(rows, j, at, wanted, locked)
      ensures pick.Some? ==>
                && Claimable(rows, pick.value, at, wanted, locked)
                && forall k | k in rows && Claimable(rows, k, at, wanted, locked) :: NoLater(rows, pick.value, k)
    {
      hide Candidate, Before, Claimable, NoLater;
      ChosenColumns(rows, at, wanted, locked);
      pick := None;
      if exists j :: j in rows && First(rows, at, wanted, locked, j) {
        var j :| j in rows && First(rows, at, wanted, locked, j);
        FirstUnique(rows, at, wanted, locked, j, Chosen(rows, at, wanted, locked).value);
        pick := Some(j);
      } else if j :| First(rows, at, wanted, locked, j) {
        CandidateColumns(rows, at, wanted, locked, j);
      }
    }

    /** Claim one due row, of the given job if one is named. */
    method Claim(at: Time, wanted: Option<JobId>, attempt: AttemptId, leaseSeconds: int, locked: set<JobId>)
      returns (claimed: Option<Claimed>)
      requires Valid() && now <= at && attempt !in issued
      modifies this
      ensures Valid() && trace == old(trace) + [Event(at, ClaimJob(wanted, attempt, leaseSeconds, locked))]
      ensures Contents() == Apply(old(Contents()), Event(at, ClaimJob(wanted, attempt, leaseSeconds, locked)))
      ensures claimed.Some? <==> Hits(old(Contents()), Event(at, ClaimJob(wanted, attempt, leaseSeconds, locked)))
      ensures claimed.Some? ==>
                && Chosen(old(rows), at, wanted, locked) == Some(claimed.value.job)
                && claimed.value.job in rows && claimed.value.row == rows[claimed.value.job]
                && claimed.value.row.attemptId == Some(attempt) && (wanted == None || wanted == Some(claimed.value.job))
      ensures issued == old(issued) + {attempt} && rows == Contents().rows
      ensures claimed == None <==> forall j | j in old(rows) :: !Claimable(old(rows), j, at, wanted, locked)
      ensures claimed.None? ==> rows == old(rows)
      ensures claimed.Some? ==>
                var j := claimed.value.job;
                && j in old(rows) && Claimable(old(rows), j, at, wanted, locked)
                && (forall k | k in old(rows) && Claimable(old(rows), k, at, wanted, locked) ::
                      NoLater(old(rows), j, k))
                && claimed.value.row.status == Running && claimed.value.row.attempts == old(rows)[j].attempts + 1
                && claimed.value.row.leaseUntil == Some(LeaseEnd(at, leaseSeconds, old(rows)[j].deadlineAt))
                && claimed.value.row == old(rows)[j].(status := Running, attemptId := Some(attempt),
                     attempts := claimed.value.row.attempts, leaseUntil := claimed.value.row.leaseUntil)
                && rows == old(rows)[j := claimed.value.row]
    {
      ghost var e := Event(at, ClaimJob(wanted, attempt, leaseSeconds, locked));
      RunAppend(start, trace, e);
      var pick := Pick(at, wanted, locked);
      hide Chosen, Claimable, NoLater;
      claimed := None;
      if pick.Some? {
        var j := pick.value;
        rows := rows[j := Leased(rows[j], at, attempt, leaseSeconds)];
        claimed := Some(Claimed(j, rows[j]));
      }
      now, issued := at, issued + {attempt};
      trace := trace + [e];
    }

    method Renew(at: Time, job: JobId, attempt: AttemptId, leaseSeconds: int) returns (held: bool)
      requires Valid() && now <= at
      modifies this
      ensures Valid() && trace == old(trace) + [Event(at, RenewLease(job, attempt, leaseSeconds))]
      ensures Contents() == Apply(old(Contents()), Event(at, RenewLease(job, attempt, leaseSeconds)))
      ensures held == Hits(old(Contents()), Event(at, RenewLease(job, attempt, leaseSeconds)))
      ensures held <==> Holding(old(rows), job, attempt, at)
      ensures !held ==> rows == old(rows)
      ensures held ==>
                rows == old(rows)[job := old(rows)[job].(
                  leaseUntil := Some(LeaseEnd(at, leaseSeconds, old(rows)[job].deadlineAt)))]
    {
      RunAppend(start, trace, Event(at, RenewLease(job, attempt, leaseSeconds)));
      held := job in rows && rows[job].HeldBy(attempt, at);
      if held {
        rows := rows[job := rows[job].(leaseUntil := Some(Min(at + leaseSeconds * SECOND, rows[job].deadlineAt)))];
      }
      now := at;
      trace := trace + [Event(at, RenewLease(job, attempt, leaseSeconds))];
    }

    method Complete(at: Time, job: JobId, attempt: AttemptId, result: Option<Json>, error: Option<Error>)
        returns (held: bool)
      requires Valid() && now <= at
      modifies this
      ensures Valid() && trace == old(trace) + [Event(at, CompleteJob(job, attempt, result, error))]
      ensures Contents() == Apply(old(Contents()), Event(at, CompleteJob(job, attempt, result, error)))
      ensures held == Hits(old(Contents()), Event(at, CompleteJob(job, attempt, result, error)))
      ensures held <==> Holding(old(rows), job, attempt, at)
      ensures !held ==> rows == old(rows)
      ensures held ==>
                && rows == old(rows)[job := rows[job]]
                && rows[job].status == (if error.Some? then Failed else Succeeded)
                && rows[job] == old(rows)[job].(status := rows[job].status, result := result, error := error,
                                                leaseUntil := None)
    {
      RunAppend(start, trace, Event(at, CompleteJob(job, attempt, result, error)));
      held := job in rows && rows[job].HeldBy(attempt, at);
      if held {
        rows := rows[job := rows[job].(status := if error == None then Succeeded else Failed,
                                       result := result, error := error, leaseUntil := None)];
      }
      now := at;
      trace := trace + [Event(at, CompleteJob(job, attempt, result, error))];
    }

    method Defer(at: Time, job: JobId, attempt: AttemptId, error: Option<Error>, retrySeconds: int) returns (held: bool)
      requires Valid() && now <= at
      modifies this
      ensures Valid() && trace == old(trace) + [Event(at, DeferJob(job, attempt, error, retrySeconds))]
      ensures Contents() == Apply(old(Contents()), Event(at, DeferJob(job, attempt, error, retrySeconds)))
      ensures held == Hits(old(Contents()), Event(at, DeferJob(job, attempt, error, retrySeconds)))
      ensures held <==> Holding(old(rows), job, attempt, at)
      ensures !held ==> rows == old(rows)
      ensures held ==>
                rows == old(rows)[job := old(rows)[job].(
                  status := Queued, nextAttemptAt := at + retrySeconds * 1_000_000, error := error, leaseUntil := None)]
    {
      RunAppend(start, trace, Event(at, DeferJob(job, attempt, error, retrySeconds)));
      held := job in rows && rows[job].HeldBy(attempt, at);
      if held {
        rows := rows[job := rows[job].(status := Queued, leaseUntil := None,
                                       nextAttemptAt := at + retrySeconds * SECOND, error := error)];
      }
      now := at;
      trace := trace + [Event(at, DeferJob(job, attempt, error, retrySeconds))];
    }

    /** Fail every unfinished job past its deadline; the count is the number of rows changed. */
    method ExpireDeadlines(at: Time) returns (count: nat)
      requires Valid() && now <= at
      modifies this
      ensures Valid() && trace == old(trace) + [Event(at, ExpireJobs)]
      ensures Contents() == Apply(old(Contents()), Event(at, ExpireJobs))
      ensures count == |set j | j in old(rows) && old(rows)[j].Expired(at)|
      ensures rows.Keys == old(rows).Keys
      ensures forall j | j in old(rows) ::
                if (old(rows)[j].status == Queued || old(rows)[j].status == Running)
                   && at >= old(rows)[j].deadlineAt then
                  rows[j] == old(rows)[j].(status := Failed, leaseUntil := None,
                                           error := Some(Error("deadline_exceeded", "job deadline exceeded")))
                else rows[j] == old(rows)[j]
    {
      RunAppend(start, trace, Event(at, ExpireJobs));
      count := |set j | j in rows && rows[j].Expired(at)|;
      rows := map j | j in rows :: if rows[j].Expired(at) then TimedOut(rows[j]) else rows[j];
      now := at;
      trace := trace + [Event(at, ExpireJobs)];
    }

    /** One statement, whichever it is. */
    method Perform(e: Event) returns (hit: bool)
      requires Valid() && Enabled(Contents(), e)
      modifies this
      ensures Valid() && trace == old(trace) + [e] && Contents() == Apply(old(Contents()), e)
      ensures !e.op.ExpireJobs? ==> hit == Hits(old(Contents()), e)
    {
      match e.op
      case InsertJob(j, row) =>
        Insert(e.at, j, row);
        hit := true;
      case ClaimJob(wanted, attempt, lease, locked) =>
        var claimed := Claim(e.at, wanted, attempt, lease, locked);
        hit := claimed.Some?;
      case RenewLease(j, a, lease) => hit := Renew(e.at, j, a, lease);
      case CompleteJob(j, a, result, error) => hit := Complete(e.at, j, a, result, error);
      case DeferJob(j, a, error, retry) => hit := Defer(e.at, j, a, error, retry);
      case ExpireJobs =>
        var count := ExpireDeadlines(e.at);
        hit := count > 0;
    }

    /** Everything other clients of the table may do before our next statement: any legal steps. */
    method Others()
      requires Valid()
      modifies this
      ensures Valid() && old(trace) <= trace && old(issued) <= issued && old(now) <= now
    {
      var n: nat := *;
      while n > 0
        invariant Valid() && old(trace) <= trace && old(issued) <= issued && old(now) <= now
      {
        var e: Event := *;
        if now <= e.at && (e.op.ClaimJob? ==> e.op.attempt !in issued)
           && (e.op.InsertJob? ==> e.op.job !in rows && NewRow(e.op.row)) {
          var hit := Perform(e);
        }
        n := n - 1;
      }
    }
  }
}
