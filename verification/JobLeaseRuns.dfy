/** Safety of the lease protocol over every run: any number of gateways call the store in any order,
    and the table only ever sees the resulting sequence of atomic steps. */
module JobLeaseRuns {
  import opened Wrappers
  import opened JobLease

  ghost function Run(s: Store, es: seq<Event>): Store
    decreases |es|
  {
    if es == [] then s else Run(Apply(s, es[0]), es[1..])
  }

  ghost predicate Legal(s: Store, es: seq<Event>)
    decreases |es|
  {
    es == [] || (Enabled(s, es[0]) && Legal(Apply(s, es[0]), es[1..]))
  }

  /** The state before step n of the run. */
  ghost function At(s: Store, es: seq<Event>, n: nat): Store
    requires n <= |es|
  {
    Run(s, es[..n])
  }

  lemma {:induction false} AtStep(s: Store, es: seq<Event>, n: nat)
    requires n < |es|
    ensures At(s, es, n + 1) == Apply(At(s, es, n), es[n])
    ensures Legal(s, es) ==> Enabled(At(s, es, n), es[n])
    decreases n
  {
    if n == 0 {
      assert es[..0] == [] && es[..1] == [es[0]] && es[..1][1..] == [];
      assert Run(s, es[..1]) == Run(Apply(s, es[0]), []);
    } else {
      AtStep(Apply(s, es[0]), es[1..], n - 1);
      assert es[..n][1..] == es[1..][..n - 1];
      assert es[..n + 1][1..] == es[1..][..n];
    }
  }

  lemma {:induction false} InvAt(s: Store, es: seq<Event>, n: nat)
    requires Inv(s) && Legal(s, es) && n <= |es|
    ensures Inv(At(s, es, n))
    decreases n
  {
    if n > 0 {
      InvAt(s, es, n - 1);
      AtStep(s, es, n - 1);
      InvStep(At(s, es, n - 1), es[n - 1]);
    }
  }

  // ---------------------------------------------------------------------------------------------
  // Fencing
  // ---------------------------------------------------------------------------------------------

  /** Attempt a was handed out, and job j is not held under it. */
  ghost predicate Fenced(s: Store, j: JobId, a: AttemptId) {
    a in s.issued && j in s.rows && s.rows[j].attemptId != Some(a)
  }

  predicate ActsFor(op: Op, j: JobId, a: AttemptId) {
    match op
    case RenewLease(k, b, _) => k == j && b == a
    case CompleteJob(k, b, _, _) => k == j && b == a
    case DeferJob(k, b, _, _) => k == j && b == a
    case _ => false
  }

  lemma FencedStep(s: Store, e: Event, j: JobId, a: AttemptId)
    requires Inv(s) && Enabled(s, e) && Fenced(s, j, a)
    ensures Fenced(Apply(s, e), j, a)
    ensures ActsFor(e.op, j, a) ==> !Hits(s, e)
  {
  }

  lemma {:induction false} FencedFrom(s: Store, es: seq<Event>, m: nat, n: nat, j: JobId, a: AttemptId)
    requires Inv(s) && Legal(s, es) && m <= n <= |es| && Fenced(At(s, es, m), j, a)
    ensures Fenced(At(s, es, n), j, a)
    decreases n - m
  {
    if m < n {
      FencedFrom(s, es, m, n - 1, j, a);
      InvAt(s, es, n - 1);
      AtStep(s, es, n - 1);
      FencedStep(At(s, es, n - 1), es[n - 1], j, a);
    }
  }

  /** Once step k claims job j anew, no renew, complete or defer of any attempt handed out before
      that step ever succeeds on j again. */
  lemma FencingAfterReclaim(s: Store, es: seq<Event>, k: nat, n: nat, j: JobId, a: AttemptId)
    requires Inv(s) && Legal(s, es) && k < n < |es|
    requires es[k].op.ClaimJob? && Chosen(At(s, es, k).rows, es[k].at, es[k].op.wanted, es[k].op.locked) == Some(j)
    requires a in At(s, es, k).issued
    requires ActsFor(es[n].op, j, a)
    ensures !Hits(At(s, es, n), es[n])
  {
    InvAt(s, es, k);
    AtStep(s, es, k);
    assert Fenced(At(s, es, k + 1), j, a);
    FencedFrom(s, es, k + 1, n, j, a);
    InvAt(s, es, n);
    AtStep(s, es, n);
    FencedStep(At(s, es, n), es[n], j, a);
  }

  /** Attempt a holds job j under the lease it got when it claimed it. */
  predicate Keeps(s: Store, j: JobId, a: AttemptId, until: Time, deadline: Time) {
    && j in s.rows && s.rows[j].status == Running && s.rows[j].attemptId == Some(a)
    && s.rows[j].leaseUntil == Some(until) && s.rows[j].deadlineAt == deadline && a in s.issued
  }

  lemma KeepsStep(s: Store, e: Event, j: JobId, a: AttemptId, until: Time, deadline: Time)
    requires Inv(s) && Enabled(s, e) && Keeps(s, j, a, until, deadline) && e.at < until && e.at < deadline
    requires !ActsFor(e.op, j, a)
    ensures Keeps(Apply(s, e), j, a, until, deadline)
  {
  }

  lemma KeepsActs(s: Store, e: Event, j: JobId, a: AttemptId, until: Time, deadline: Time)
    requires Keeps(s, j, a, until, deadline) && e.at < until && e.at < deadline && ActsFor(e.op, j, a)
    ensures Hits(s, e)
  {
  }

  lemma {:induction false} KeepsFrom(s: Store, es: seq<Event>, m: nat, n: nat, j: JobId, a: AttemptId,
                                     until: Time, deadline: Time)
    requires Inv(s) && Legal(s, es) && m <= n < |es| && Keeps(At(s, es, m), j, a, until, deadline)
    requires es[n].at < until && es[n].at < deadline
    requires forall i | m <= i < n :: !ActsFor(es[i].op, j, a)
    ensures Keeps(At(s, es, n), j, a, until, deadline)
    decreases n - m
  {
    hide Inv, Apply, Keeps, ActsFor, Hits;
    if m < n {
      AtStep(s, es, n);
      AtStep(s, es, n - 1);
      ClockOf(At(s, es, n - 1), es[n - 1]);
      KeepsFrom(s, es, m, n - 1, j, a, until, deadline);
      InvAt(s, es, n - 1);
      KeepsStep(At(s, es, n - 1), es[n - 1], j, a, until, deadline);
    }
  }

  lemma ClockOf(s: Store, e: Event)
    ensures Apply(s, e).now == e.at
  {
  }

  lemma KeepsClaimed(s: Store, e: Event, j: JobId)
    requires e.op.ClaimJob? && Chosen(s.rows, e.at, e.op.wanted, e.op.locked) == Some(j) && j in s.rows
    ensures var deadline := s.rows[j].deadlineAt;
      Keeps(Apply(s, e), j, e.op.attempt, Min(e.at + e.op.leaseSeconds * SECOND, deadline), deadline)
  {
    hide Chosen;
  }

  /** A claim is worth something: whatever other attempts and clients do, until the lease or the deadline
      ends, the first renew, complete or defer of the attempt that claimed the job succeeds. */
  lemma HoldsUntilLeaseEnds(s: Store, es: seq<Event>, k: nat, n: nat, j: JobId)
    requires Inv(s) && Legal(s, es) && k < n < |es| && es[k].op.ClaimJob?
    requires Chosen(At(s, es, k).rows, es[k].at, es[k].op.wanted, es[k].op.locked) == Some(j)
    requires j in At(s, es, k).rows
    requires es[n].at < es[k].at + es[k].op.leaseSeconds * 1_000_000 && es[n].at < At(s, es, k).rows[j].deadlineAt
    requires ActsFor(es[n].op, j, es[k].op.attempt)
    requires forall i | k < i < n :: !ActsFor(es[i].op, j, es[k].op.attempt)
    ensures Hits(At(s, es, n), es[n])
  {
    var deadline, a := At(s, es, k).rows[j].deadlineAt, es[k].op.attempt;
    var until := Min(es[k].at + es[k].op.leaseSeconds * SECOND, deadline);
    hide Inv, Apply, Hits, Keeps, ActsFor, Chosen;
    AtStep(s, es, k);
    KeepsClaimed(At(s, es, k), es[k], j);
    KeepsFrom(s, es, k + 1, n, j, a, until, deadline);
    KeepsActs(At(s, es, n), es[n], j, a, until, deadline);
  }

  /** An attempt that does not hold its job now, whether reclaimed, finished, deferred or lapsed. */
  ghost predicate LostLease(s: Store, j: JobId, a: AttemptId) {
    a in s.issued && j in s.rows && !s.rows[j].HeldBy(a, s.now)
  }

  lemma LostLeaseStep(s: Store, e: Event, j: JobId, a: AttemptId)
    requires Inv(s) && Enabled(s, e) && LostLease(s, j, a)
    ensures LostLease(Apply(s, e), j, a)
    ensures ActsFor(e.op, j, a) ==> !Hits(s, e)
  {
  }

  lemma {:induction false} LostLeaseFrom(s: Store, es: seq<Event>, m: nat, n: nat, j: JobId, a: AttemptId)
    requires Inv(s) && Legal(s, es) && m <= n <= |es| && LostLease(At(s, es, m), j, a)
    ensures LostLease(At(s, es, n), j, a)
    decreases n - m
  {
    hide Inv, Enabled, Hits, Apply, LostLease;
    if m < n {
      LostLeaseFrom(s, es, m, n - 1, j, a);
      InvAt(s, es, n - 1);
      AtStep(s, es, n - 1);
      LostLeaseStep(At(s, es, n - 1), es[n - 1], j, a);
    }
  }

  /** An attempt that lost its lease by step k never acts on the job from then on. */
  lemma LostForGood(s: Store, es: seq<Event>, k: nat, n: nat, j: JobId, a: AttemptId)
    requires Inv(s) && Legal(s, es) && k <= n < |es| && LostLease(At(s, es, k), j, a)
    requires ActsFor(es[n].op, j, a)
    ensures !Hits(At(s, es, n), es[n])
  {
    hide Inv, Enabled, Hits, Apply, LostLease;
    LostLeaseFrom(s, es, k, n, j, a);
    InvAt(s, es, n);
    AtStep(s, es, n);
    LostLeaseStep(At(s, es, n), es[n], j, a);
  }

  lemma RefusedStep(s: Store, e: Event, j: JobId, a: AttemptId)
    requires Enabled(s, e) && a in s.issued && j in s.rows && ActsFor(e.op, j, a) && !Hits(s, e)
    ensures LostLease(Apply(s, e), j, a)
  {
  }

  /** A refused renew, complete or defer is final: once an attempt was refused at step k, no renew,
      complete or defer it makes at any later step succeeds. */
  lemma RefusedIsFinal(s: Store, es: seq<Event>, k: nat, n: nat, j: JobId, a: AttemptId)
    requires Inv(s) && Legal(s, es) && k < n < |es|
    requires a in At(s, es, k).issued && j in At(s, es, k).rows
    requires ActsFor(es[k].op, j, a) && !Hits(At(s, es, k), es[k])
    requires ActsFor(es[n].op, j, a)
    ensures !Hits(At(s, es, n), es[n])
  {
    hide Inv, Enabled, Hits, Apply, LostLease;
    AtStep(s, es, k);
    RefusedStep(At(s, es, k), es[k], j, a);
    LostForGood(s, es, k + 1, n, j, a);
  }

  // ---------------------------------------------------------------------------------------------
  // Terminal rows
  // ---------------------------------------------------------------------------------------------

  lemma TerminalStep(s: Store, e: Event, j: JobId)
    requires Inv(s) && Enabled(s, e) && j in s.rows && s.rows[j].Terminal()
    ensures j in Apply(s, e).rows && Apply(s, e).rows[j] == s.rows[j]
    ensures forall a :: ActsFor(e.op, j, a) ==> !Hits(s, e)
  {
  }

  /** A succeeded or failed row never changes again. */
  lemma {:induction false} TerminalForever(s: Store, es: seq<Event>, m: nat, n: nat, j: JobId)
    requires Inv(s) && Legal(s, es) && m <= n <= |es|
    requires j in At(s, es, m).rows && At(s, es, m).rows[j].Terminal()
    ensures j in At(s, es, n).rows && At(s, es, n).rows[j] == At(s, es, m).rows[j]
    decreases n - m
  {
    if m < n {
      TerminalForever(s, es, m, n - 1, j);
      InvAt(s, es, n - 1);
      AtStep(s, es, n - 1);
      TerminalStep(At(s, es, n - 1), es[n - 1], j);
    }
  }

  predicate CompletesJob(op: Op, j: JobId) {
    op.CompleteJob? && op.job == j
  }

  /** At most one call of complete succeeds for a job, whichever attempt makes it. */
  lemma CompleteOnce(s: Store, es: seq<Event>, m: nat, n: nat, j: JobId)
    requires Inv(s) && Legal(s, es) && m < n < |es|
    requires CompletesJob(es[m].op, j) && CompletesJob(es[n].op, j)
    requires Hits(At(s, es, m), es[m])
    ensures !Hits(At(s, es, n), es[n])
  {
    AtStep(s, es, m);
    TerminalForever(s, es, m + 1, n, j);
    InvAt(s, es, n);
    AtStep(s, es, n);
    TerminalStep(At(s, es, n), es[n], j);
    assert ActsFor(es[n].op, j, es[n].op.attempt);
  }

  // ---------------------------------------------------------------------------------------------
  // No stuck job
  // ---------------------------------------------------------------------------------------------

  /** The time from which an unfinished job may be claimed. */
  function FreeAt(r: Row): Time
    requires RowOk(r) && !r.Terminal()
  {
    if r.status == Queued then r.nextAttemptAt else r.leaseUntil.value
  }

  /** A call naming the job claims it exactly in the window between its lease or retry time and its
      deadline, unless a concurrent transaction holds the row lock. */
  lemma ClaimableInWindow(s: Store, e: Event, j: JobId)
    requires Inv(s) && j in s.rows && e.op.ClaimJob? && e.op.wanted == Some(j)
    ensures Hits(s, e) <==>
              j !in e.op.locked && !s.rows[j].Terminal() && FreeAt(s.rows[j]) <= e.at < s.rows[j].deadlineAt
    ensures Hits(s, e) ==> Apply(s, e).rows[j].attemptId == Some(e.op.attempt) && Apply(s, e).rows[j].status == Running
  {
    FirstExists(s.rows, e.at, e.op.wanted, e.op.locked);
    if Candidate(s.rows, e.at, e.op.wanted, e.op.locked, j) {
      assert exists c :: Candidate(s.rows, e.at, e.op.wanted, e.op.locked, c);
    }
  }

  /** A call naming no job claims something whenever any unlocked job is claimable. */
  lemma PollClaimsSomething(s: Store, e: Event, j: JobId)
    requires Inv(s) && j in s.rows && e.op.ClaimJob? && e.op.wanted == None
    requires j !in e.op.locked && !s.rows[j].Terminal() && FreeAt(s.rows[j]) <= e.at < s.rows[j].deadlineAt
    ensures Hits(s, e)
  {
    assert Candidate(s.rows, e.at, e.op.wanted, e.op.locked, j);
    FirstExists(s.rows, e.at, e.op.wanted, e.op.locked);
  }

  /** Expiry makes every unfinished job past its deadline failed, and touches nothing else. */
  lemma ExpiryAtDeadline(s: Store, e: Event, j: JobId)
    requires Inv(s) && e.op.ExpireJobs? && j in s.rows
    ensures !s.rows[j].Terminal() && s.rows[j].deadlineAt <= e.at ==>
              Apply(s, e).rows[j].status == Failed && Apply(s, e).rows[j].error == Some(DEADLINE_ERROR)
    ensures s.rows[j].Terminal() || e.at < s.rows[j].deadlineAt ==> Apply(s, e).rows[j] == s.rows[j]
  {
  }

  // ---------------------------------------------------------------------------------------------
  // How often a job can be claimed
  // ---------------------------------------------------------------------------------------------

  /** The times at which job j was claimed, in order. */
  function ClaimTimes(cs: seq<Claim>, j: JobId): seq<Time> {
    if cs == [] then []
    else
      var before := ClaimTimes(cs[..|cs| - 1], j);
      if cs[|cs| - 1].job == j then before + [cs[|cs| - 1].at] else before
  }

  lemma ClaimTimesAppend(cs: seq<Claim>, c: Claim, j: JobId)
    ensures ClaimTimes(cs + [c], j) == ClaimTimes(cs, j) + (if c.job == j then [c.at] else [])
  {
    assert (cs + [c])[..|cs|] == cs;
  }

  /** Leases and retry delays are all at least gap. */
  predicate AtLeast(op: Op, gap: Time) {
    match op
    case ClaimJob(_, _, lease, _) => gap <= lease * SECOND
    case RenewLease(_, _, lease) => gap <= lease * SECOND
    case DeferJob(_, _, _, retry) => gap <= retry * SECOND
    case _ => true
  }

  predicate Spaced(ts: seq<Time>, gap: Time) {
    forall i | 0 < i < |ts| :: ts[i - 1] + gap <= ts[i]
  }

  /** Claims so far are gap apart and precede the deadline, and the row blocks the next one for gap. */
  predicate Paced(r: Row, ts: seq<Time>, gap: Time, now: Time) {
    && |ts| == r.attempts
    && Spaced(ts, gap)
    && (forall i | 0 <= i < |ts| :: ts[i] < r.deadlineAt && ts[i] <= now)
    && (ts != [] && r.status == Running ==>
          r.leaseUntil.Some? && Min(ts[|ts| - 1] + gap, r.deadlineAt) <= r.leaseUntil.value)
    && (ts != [] && r.status == Queued ==> ts[|ts| - 1] + gap <= r.nextAttemptAt)
  }

  ghost predicate AllPaced(s: Store, gap: Time) {
    forall j | j in s.rows :: Paced(s.rows[j], ClaimTimes(s.claims, j), gap, s.now)
  }

  lemma PacedClaim(r: Row, ts: seq<Time>, gap: Time, e: Event, now: Time)
    requires RowOk(r) && Paced(r, ts, gap, now) && now <= e.at && gap > 0
    requires e.op.ClaimJob? && AtLeast(e.op, gap) && r.Due(e.at)
    ensures Paced(Leased(r, e.at, e.op.attempt, e.op.leaseSeconds), ts + [e.at], gap, e.at)
  {
  }

  lemma UnclaimedJob(cs: seq<Claim>, j: JobId)
    requires forall c | c in cs :: c.job != j
    ensures ClaimTimes(cs, j) == []
  {
  }

  /** What a step that claims nothing may do to one row. */
  predicate RowMoves(r: Row, r': Row, e: Event) {
    || r' == r
    || (r'.Terminal() && r'.attempts == r.attempts && r'.deadlineAt == r.deadlineAt)
    || (e.op.RenewLease? && r.status == Running
        && r' == r.(leaseUntil := Some(Min(e.at + e.op.leaseSeconds * SECOND, r.deadlineAt))))
    || (e.op.DeferJob? && r' == Postponed(r, e.at, e.op.error, e.op.retrySeconds))
  }

  lemma RowMovesOf(s: Store, e: Event, j: JobId)
    requires j in s.rows && Apply(s, e).claims == s.claims && !e.op.InsertJob?
    ensures j in Apply(s, e).rows && RowMoves(s.rows[j], Apply(s, e).rows[j], e)
  {
    assert |s.claims + [Claim(j, 0, 0)]| != |s.claims|;
  }

  lemma PacedMove(r: Row, r': Row, ts: seq<Time>, gap: Time, now: Time, e: Event)
    requires RowOk(r) && Paced(r, ts, gap, now) && now <= e.at && gap > 0
    requires AtLeast(e.op, gap) && RowMoves(r, r', e)
    ensures Paced(r', ts, gap, e.at)
  {
  }

  /** Steps that claim nothing leave the claim times alone and never free a row earlier. */
  lemma PacedOther(s: Store, e: Event, gap: Time, j: JobId)
    requires Inv(s) && Enabled(s, e) && AllPaced(s, gap) && AtLeast(e.op, gap) && gap > 0
    requires j in s.rows && !e.op.InsertJob? && Apply(s, e).claims == s.claims
    ensures j in Apply(s, e).rows && Paced(Apply(s, e).rows[j], ClaimTimes(s.claims, j), gap, e.at)
  {
    RowMovesOf(s, e, j);
    PacedMove(s.rows[j], Apply(s, e).rows[j], ClaimTimes(s.claims, j), gap, s.now, e);
  }

  lemma PacedAfterClaim(s: Store, e: Event, gap: Time, k: JobId, j: JobId)
    requires Inv(s) && Enabled(s, e) && AllPaced(s, gap) && AtLeast(e.op, gap) && gap > 0
    requires e.op.ClaimJob? && Chosen(s.rows, e.at, e.op.wanted, e.op.locked) == Some(k)
    requires j in s.rows
    ensures j in Apply(s, e).rows && Paced(Apply(s, e).rows[j], ClaimTimes(Apply(s, e).claims, j), gap, e.at)
  {
    ClaimTimesAppend(s.claims, Claim(k, e.op.attempt, e.at), j);
    var ts := ClaimTimes(s.claims, j);
    assert ts + [] == ts;
    assert Paced(s.rows[j], ts, gap, s.now);
    if k == j {
      PacedClaim(s.rows[j], ts, gap, e, s.now);
    } else {
      PacedMove(s.rows[j], s.rows[j], ts, gap, s.now, e);
    }
  }

  lemma PacedStep(s: Store, e: Event, gap: Time)
    requires Inv(s) && Enabled(s, e) && AllPaced(s, gap) && AtLeast(e.op, gap) && gap > 0
    ensures AllPaced(Apply(s, e), gap)
  {
    var t := Apply(s, e);
    forall j | j in t.rows ensures Paced(t.rows[j], ClaimTimes(t.claims, j), gap, t.now) {
      if e.op.InsertJob? {
        if e.op.job == j {
          UnclaimedJob(s.claims, j);
        } else {
          PacedMove(s.rows[j], s.rows[j], ClaimTimes(s.claims, j), gap, s.now, e);
        }
      } else if e.op.ClaimJob? && Chosen(s.rows, e.at, e.op.wanted, e.op.locked).Some? {
        PacedAfterClaim(s, e, gap, Chosen(s.rows, e.at, e.op.wanted, e.op.locked).value, j);
      } else {
        PacedOther(s, e, gap, j);
      }
    }
  }

  lemma {:induction false} PacedAt(s: Store, es: seq<Event>, n: nat, gap: Time)
    requires Inv(s) && Legal(s, es) && n <= |es| && gap > 0 && AllPaced(s, gap)
    requires forall i | 0 <= i < |es| :: AtLeast(es[i].op, gap)
    ensures AllPaced(At(s, es, n), gap)
    decreases n
  {
    if n > 0 {
      PacedAt(s, es, n - 1, gap);
      InvAt(s, es, n - 1);
      AtStep(s, es, n - 1);
      PacedStep(At(s, es, n - 1), es[n - 1], gap);
    }
  }

  lemma {:induction false} SpacedSum(ts: seq<Time>, gap: Time, i: nat, k: nat)
    requires Spaced(ts, gap) && i <= k < |ts|
    ensures (k - i) * gap <= ts[k] - ts[i]
    decreases k
  {
    if i < k {
      SpacedSum(ts, gap, i, k - 1);
      assert (k - i) * gap == (k - 1 - i) * gap + gap;
    }
  }

  /** From an empty table, with every lease at least leaseSeconds and every retry delay at least
      retrySeconds: claims of one job are min(lease, retry) apart and precede its deadline, so their
      number is bounded by the time from the first claim to the deadline. */
  lemma AttemptBound(es: seq<Event>, start: Time, j: JobId, leaseSeconds: int, retrySeconds: int)
    requires leaseSeconds > 0 && retrySeconds > 0
    requires Legal(Store(map[], start, {}, [], []), es)
    requires forall i | 0 <= i < |es| :: AtLeast(es[i].op, Min(leaseSeconds, retrySeconds) * SECOND)
    requires j in Run(Store(map[], start, {}, [], []), es).rows
    requires Run(Store(map[], start, {}, [], []), es).rows[j].attempts > 0
    ensures
      var end := Run(Store(map[], start, {}, [], []), es);
      var r, ts := end.rows[j], ClaimTimes(end.claims, j);
      && |ts| == r.attempts
      && (forall i, k | 0 <= i < k < |ts| :: ts[i] + Min(leaseSeconds, retrySeconds) * SECOND <= ts[k])
      && (forall i | 0 <= i < |ts| :: ts[i] < r.deadlineAt)
      && (r.attempts - 1) * (Min(leaseSeconds, retrySeconds) * SECOND) < r.deadlineAt - ts[0]
  {
    var s := Store(map[], start, {}, [], []);
    var gap := Min(leaseSeconds, retrySeconds) * SECOND;
    InitInv(start);
    PacedAt(s, es, |es|, gap);
    assert es[..|es|] == es;
    var ts := ClaimTimes(Run(s, es).claims, j);
    SpacedSum(ts, gap, 0, |ts| - 1);
    forall i, k | 0 <= i < k < |ts| ensures ts[i] + gap <= ts[k] {
      SpacedSum(ts, gap, i, k);
      assert gap <= (k - i) * gap by { GapTimes(k - i, gap); }
    }
  }

  /** The attempts job j was claimed under. */
  ghost function AttemptsOf(cs: seq<Claim>, j: JobId): set<AttemptId> {
    set c | c in cs && c.job == j :: c.attempt
  }

  ghost predicate AttemptsCounted(s: Store) {
    forall j | j in s.rows :: |AttemptsOf(s.claims, j)| == s.rows[j].attempts
  }

  lemma AttemptsAfterClaim(cs: seq<Claim>, c: Claim, j: JobId)
    requires forall d | d in cs :: d.attempt != c.attempt
    ensures |AttemptsOf(cs + [c], j)| == |AttemptsOf(cs, j)| + (if c.job == j then 1 else 0)
  {
    assert c in cs + [c];
    if c.job == j {
      assert AttemptsOf(cs + [c], j) == AttemptsOf(cs, j) + {c.attempt};
      assert c.attempt !in AttemptsOf(cs, j);
    } else {
      assert AttemptsOf(cs + [c], j) == AttemptsOf(cs, j);
    }
  }

  lemma AttemptsCountedStep(s: Store, e: Event)
    requires Inv(s) && Enabled(s, e) && AttemptsCounted(s)
    ensures AttemptsCounted(Apply(s, e))
  {
    hide AttemptsOf;
    var t := Apply(s, e);
    forall j | j in t.rows ensures |AttemptsOf(t.claims, j)| == t.rows[j].attempts {
      if e.op.InsertJob? && e.op.job == j {
        NoAttempts(s.claims, j);
      } else if e.op.ClaimJob? && Chosen(s.rows, e.at, e.op.wanted, e.op.locked).Some? {
        AttemptsAfterClaim(s.claims, Claim(Chosen(s.rows, e.at, e.op.wanted, e.op.locked).value, e.op.attempt, e.at),
              j);
      } else {
        assert t.claims == s.claims && t.rows[j].attempts == s.rows[j].attempts;
      }
    }
  }

  lemma NoAttempts(cs: seq<Claim>, j: JobId)
    requires forall c | c in cs :: c.job != j
    ensures |AttemptsOf(cs, j)| == 0
  {
    assert AttemptsOf(cs, j) == {};
  }

  lemma GapTimes(n: int, gap: Time)
    requires n >= 1 && gap > 0
    ensures gap <= n * gap
  {
    assert n * gap == (n - 1) * gap + gap;
    assert (n - 1) * gap >= 0;
  }

  lemma DeadlineStep(s: Store, e: Event, j: JobId)
    requires Enabled(s, e) && j in s.rows
    ensures j in Apply(s, e).rows
    ensures
      var r, r' := s.rows[j], Apply(s, e).rows[j];
      r'.deadlineAt == r.deadlineAt && r'.spec == r.spec && r'.specSha == r.specSha && r.attempts <= r'.attempts
  {
  }

  /** The deadline, the spec and its fingerprint are fixed when the row is created. */
  lemma {:induction false} DeadlineFixed(s: Store, es: seq<Event>, n: nat, j: JobId)
    requires Inv(s) && Legal(s, es) && n <= |es| && j in s.rows
    ensures j in At(s, es, n).rows
    ensures
      var r, r' := s.rows[j], At(s, es, n).rows[j];
      r'.deadlineAt == r.deadlineAt && r'.spec == r.spec && r'.specSha == r.specSha && r.attempts <= r'.attempts
    decreases n
  {
    hide Inv, Apply, Enabled;
    if n > 0 {
      DeadlineFixed(s, es, n - 1, j);
      AtStep(s, es, n - 1);
      DeadlineStep(At(s, es, n - 1), es[n - 1], j);
    }
  }

  // ---------------------------------------------------------------------------------------------
  // Renewals
  // ---------------------------------------------------------------------------------------------

  /** The claim and the renewals of attempt a on job j write leases of one length, that of the gateway
      that made the claim; other attempts may use other lengths. */
  predicate SameLease(op: Op, j: JobId, a: AttemptId, leaseSeconds: int) {
    match op
    case ClaimJob(_, b, lease, _) => b == a ==> lease == leaseSeconds
    case RenewLease(k, b, lease) => k == j && b == a ==> lease == leaseSeconds
    case _ => true
  }

  /** A lease held under attempt a ends within one lease length from now. */
  ghost predicate LeaseBounded(s: Store, j: JobId, a: AttemptId, leaseSeconds: int) {
    j in s.rows && s.rows[j].attemptId == Some(a) && s.rows[j].leaseUntil.Some? ==>
      s.rows[j].leaseUntil.value <= Min(s.now + leaseSeconds * SECOND, s.rows[j].deadlineAt)
  }

  lemma LeaseBoundedStep(s: Store, e: Event, j: JobId, a: AttemptId, leaseSeconds: int)
    requires Enabled(s, e) && LeaseBounded(s, j, a, leaseSeconds) && SameLease(e.op, j, a, leaseSeconds)
    ensures LeaseBounded(Apply(s, e), j, a, leaseSeconds)
  {
  }

  lemma {:induction false} LeaseBoundedAt(s: Store, es: seq<Event>, n: nat, j: JobId, a: AttemptId, leaseSeconds: int)
    requires Inv(s) && Legal(s, es) && n <= |es| && a !in s.issued
    requires forall i | 0 <= i < |es| :: SameLease(es[i].op, j, a, leaseSeconds)
    ensures LeaseBounded(At(s, es, n), j, a, leaseSeconds)
    decreases n
  {
    hide Apply, Enabled, SameLease;
    if n > 0 {
      LeaseBoundedAt(s, es, n - 1, j, a, leaseSeconds);
      hide LeaseBounded, Inv;
      AtStep(s, es, n - 1);
      LeaseBoundedStep(At(s, es, n - 1), es[n - 1], j, a, leaseSeconds);
    }
  }

  lemma RenewExtends(s: Store, e: Event, j: JobId, a: AttemptId, leaseSeconds: int)
    requires Enabled(s, e) && LeaseBounded(s, j, a, leaseSeconds) && e.op == RenewLease(j, a, leaseSeconds)
              && Hits(s, e)
    ensures Extended(s, Apply(s, e), j)
  {
  }

  /** The lease of the row ends no earlier, and not after the deadline; nothing else of it changed. */
  ghost predicate Extended(s: Store, t: Store, j: JobId) {
    && j in s.rows && j in t.rows
    && var r, r' := s.rows[j], t.rows[j];
       && r.leaseUntil.Some? && r'.leaseUntil.Some?
       && r.leaseUntil.value <= r'.leaseUntil.value <= r'.deadlineAt
       && r' == r.(leaseUntil := r'.leaseUntil)
  }

  /** A renewal that succeeds never shortens the lease, and never passes the deadline, when the attempt
      claimed and renews the job with one lease length. */
  lemma RenewNeverShortens(s: Store, es: seq<Event>, n: nat, leaseSeconds: int)
    requires Inv(s) && Legal(s, es) && n < |es| && es[n].op.RenewLease? && Hits(At(s, es, n), es[n])
    requires es[n].op.attempt !in s.issued
    requires forall i | 0 <= i < |es| :: SameLease(es[i].op, es[n].op.job, es[n].op.attempt, leaseSeconds)
    ensures Extended(At(s, es, n), At(s, es, n + 1), es[n].op.job)
  {
    hide Inv, Apply, Enabled, Hits, LeaseBounded, Extended;
    LeaseBoundedAt(s, es, n, es[n].op.job, es[n].op.attempt, leaseSeconds);
    AtStep(s, es, n);
    RenewExtends(At(s, es, n), es[n], es[n].op.job, es[n].op.attempt, leaseSeconds);
  }
}
