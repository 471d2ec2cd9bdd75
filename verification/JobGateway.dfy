/** The gateway object (system/job_gateway.py). Every store call is preceded by any number of steps of
    other clients, and may raise before or after it takes effect. */
module JobGateways {
  import opened Wrappers
  import opened JobLease
  import opened JobLeaseRuns
  import opened JobStores
  import opened GatewaySystem
  import opened TaskQueues
  import T = Tasks

  /** The entry a settling call is about, and the state its task had when the call was made. */
  datatype About = About(slot: Slot<T.Task>, state: T.TaskState)

  /** A call that completes or defers a job answers a finished task of the attempt, or a claimed row that made
      no task; a claim or renewal is for the configured lease. */
  predicate Honest(op: Op, about: Option<About>, config: Config) {
    && (op.ClaimJob? || op.RenewLease? ==> about == None && op.leaseSeconds == config.leaseSeconds)
    && (op.CompleteJob? || op.DeferJob? ==>
          if about.Some? then
            && about.value.state.Terminal()
            && Reports(op, op.job, about.value.slot.attempt, about.value.state, config.retrySeconds)
          else if op.CompleteJob? then op.error == Some(Error("invalid_spec", "spec fingerprint mismatch"))
          else op.error == Some(Error("overloaded", "task queue is full")) && op.retrySeconds == config.retrySeconds)
  }

  /** One store call: the table it met, the statement, how the call ended, and what it is about. */
  datatype Call = Call(seen: Store, event: Event, fate: Fate, about: Option<About>) {
    ghost predicate Won() {
      fate == Answered && Hits(seen, event)
    }

    ghost predicate Refused() {
      fate == Answered && !Hits(seen, event)
    }

    /** The call returned for entry (j, slot): its outcome was written, or its renewal was refused. */
    ghost predicate Disposes(j: JobId, slot: Slot<T.Task>, config: Config) {
      || (fate == Answered && about.Some? && about.value.state.Terminal()
          && about.value.slot.task == slot.task && about.value.slot.attempt == slot.attempt
          && Reports(event.op, j, slot.attempt, about.value.state, config.retrySeconds))
      || (Refused() && event.op == RenewLease(j, slot.attempt, config.leaseSeconds))
    }

    /** A claim, or the answer to a claimed row that makes no task: it says nothing of any entry. */
    predicate IsClaiming() {
      event.op.ClaimJob? || (about == None && !event.op.RenewLease?)
    }

    ghost predicate Claims(j: JobId) {
      event.op.ClaimJob? && Won() && Chosen(seen.rows, event.at, event.op.wanted, event.op.locked) == Some(j)
    }
  }

  datatype Submitted = Snapshot(row: Option<Row>) | UnknownJob | StoreFailed

  /** The kinds and fields of a durable task. */
  function JobInput(spec: Json, attempt: AttemptId): T.Input {
    T.Fields(Some(T.Text("synthx_v73")), Some(spec), Some(attempt))
  }

  /** A call from the given one on claimed job j anew. */
  ghost predicate Reclaimed(calls: seq<Call>, since: nat, j: JobId) {
    exists i | since <= i < |calls| :: calls[i].Claims(j)
  }

  /** A call from the given one on disposed of the entry. */
  ghost predicate Disposed(calls: seq<Call>, since: nat, j: JobId, slot: Slot<T.Task>, config: Config) {
    exists i | since <= i < |calls| :: calls[i].Disposes(j, slot, config)
  }

  /** How many of the calls are claims. */
  function NumClaims(calls: seq<Call>): nat {
    if calls == [] then 0
    else NumClaims(calls[..|calls| - 1]) + if calls[|calls| - 1].event.op.ClaimJob? then 1 else 0
  }

  lemma {:induction false} NumClaimsBoth(a: seq<Call>, b: seq<Call>)
    ensures NumClaims(a + b) == NumClaims(a) + NumClaims(b)
  {
    if b == [] {
      assert a + b == a;
    } else {
      assert (a + b)[..|a + b| - 1] == a + b[..|b| - 1];
      NumClaimsBoth(a, b[..|b| - 1]);
    }
  }

  lemma OneClaim(calls: seq<Call>)
    requires 1 <= |calls| <= 2 && calls[0].event.op.ClaimJob? && (|calls| == 2 ==> !calls[1].event.op.ClaimJob?)
    ensures NumClaims(calls) == 1
  {
    assert calls[..1] == [calls[0]] && calls[..1][..0] == [];
    assert |calls| == 1 ==> calls == [calls[0]];
  }

  /** Claims counted from a point before the earlier calls ended. */
  lemma NumClaimsLater(prior: seq<Call>, calls: seq<Call>, since: nat)
    requires prior <= calls && since <= |prior|
    ensures NumClaims(calls[since..]) == NumClaims(prior[since..]) + NumClaims(calls[|prior|..])
  {
    assert calls[since..] == prior[since..] + calls[|prior|..];
    NumClaimsBoth(prior[since..], calls[|prior|..]);
  }

  lemma {:induction false} NoClaims(calls: seq<Call>)
    requires forall c | c in calls :: !c.event.op.ClaimJob?
    ensures NumClaims(calls) == 0
  {
    if calls != [] {
      NoClaims(calls[..|calls| - 1]);
    }
  }

  lemma DisposedLater(prior: seq<Call>, calls: seq<Call>, since: nat, j: JobId, slot: Slot<T.Task>, config: Config)
    requires prior <= calls && since <= |prior|
    requires Disposed(prior, since, j, slot, config) || Disposed(calls, |prior|, j, slot, config)
    ensures Disposed(calls, since, j, slot, config)
  {
    hide Hits;
    if i :| since <= i < |prior| && prior[i].Disposes(j, slot, config) {
      assert calls[i].Disposes(j, slot, config);
    }
  }

  lemma ReclaimedLater(prior: seq<Call>, calls: seq<Call>, since: nat, j: JobId)
    requires prior <= calls && since <= |prior|
    requires Reclaimed(prior, since, j) || Reclaimed(calls, |prior|, j)
    ensures Reclaimed(calls, since, j)
  {
    hide Hits;
    if i :| since <= i < |prior| && prior[i].Claims(j) {
      assert calls[i].Claims(j);
    }
  }

  type Entries = map<JobId, Slot<T.Task>>

  /** The next call wrote the claimed job back under the attempt that claimed it. */
  predicate WrittenBack(calls: seq<Call>, i: nat, j: JobId, a: AttemptId) {
    && i + 1 < |calls| && calls[i + 1].about == None
    && match calls[i + 1].event.op
       case CompleteJob(k, b, _, _) => k == j && b == a
       case DeferJob(k, b, _, _) => k == j && b == a
       case _ => false
  }

  /** What became of a claim that won job j: its entry, an answer at once, or a later claim of the job. */
  ghost predicate Placed(entries: Entries, calls: seq<Call>, i: nat, j: JobId)
    requires i < |calls|
  {
    calls[i].Claims(j) ==>
      || (j in entries && entries[j].attempt == calls[i].event.op.attempt)
      || WrittenBack(calls, i, j, calls[i].event.op.attempt)
      || Reclaimed(calls, i + 1, j)
  }

  /** Claims that were placed stay so while one more is made. */
  lemma PlacedLater(was: Entries, now: Entries, prior: seq<Call>, calls: seq<Call>, i: nat, j: JobId)
    requires prior <= calls && i < |prior| && Placed(was, prior, i, j)
    requires j in was ==> SameEntry(was, now, j) || Reclaimed(calls, |prior|, j)
    ensures Placed(now, calls, i, j)
  {
    hide Call.Claims;
    assert calls[i] == prior[i];
    if calls[i].Claims(j) {
      if Reclaimed(prior, i + 1, j) || Reclaimed(calls, |prior|, j) {
        ReclaimedLater(prior, calls, i + 1, j);
      }
    }
  }

  lemma PlacedAll(was: Entries, now: Entries, prior: seq<Call>, calls: seq<Call>, since: nat)
    requires prior <= calls && since <= |prior| < |calls| <= |prior| + 2
    requires forall i, j | since <= i < |prior| :: Placed(was, prior, i, j)
    requires forall j | j in was :: SameEntry(was, now, j) || Reclaimed(calls, |prior|, j)
    requires forall j :: Placed(now, calls, |prior|, j)
    requires |calls| == |prior| + 2 ==> !calls[|prior| + 1].event.op.ClaimJob?
    ensures forall i, j | since <= i < |calls| :: Placed(now, calls, i, j)
  {
    hide Placed, Reclaimed;
    forall i, j | since <= i < |calls| ensures Placed(now, calls, i, j) {
      if i < |prior| {
        PlacedLater(was, now, prior, calls, i, j);
      } else if i == |prior| + 1 {
        PlacedIdle(now, calls, i, j);
      }
    }
  }

  lemma PlacedIdle(entries: Entries, calls: seq<Call>, i: nat, j: JobId)
    requires i < |calls| && !calls[i].event.op.ClaimJob?
    ensures Placed(entries, calls, i, j)
  {
  }

  /** Still the same entry, whether or not it was renewed. */
  predicate SameEntry(before: Entries, after: Entries, j: JobId)
    requires j in before
  {
    j in after && after[j].task == before[j].task && after[j].attempt == before[j].attempt
  }

  /** The entry is still there, or a call about it returned; or, with several places, it was claimed over. */
  ghost predicate Accounted(before: Entries, after: Entries, calls: seq<Call>, since: nat, config: Config, j: JobId)
    requires j in before
  {
    || SameEntry(before, after, j)
    || Disposed(calls, since, j, before[j], config)
    || (config.maxInflight > 1 && Reclaimed(calls, since, j))
  }

  /** poll's first loop: entries not yet visited are untouched, and what is gone was disposed of. */
  ghost predicate Visited(before: Entries, after: Entries, keys: set<JobId>, calls: seq<Call>, since: nat,
        config: Config)
  {
    && (forall j | j in after :: j in before && SameEntry(before, after, j))
    && (forall j | j in keys :: j in before && j in after && after[j] == before[j])
    && (forall j | j in before :: j !in after <==> Disposed(calls, since, j, before[j], config))
  }

  lemma VisitAll(before: Entries, calls: seq<Call>, config: Config)
    ensures Visited(before, before, before.Keys, calls, |calls|, config)
  {
  }

  lemma VisitNow(before: Entries, after: Entries, keys: set<JobId>, calls: seq<Call>, since: nat, config: Config)
    requires Visited(before, after, keys, calls, since, config)
    ensures forall j | j in after :: j in before && SameEntry(before, after, j)
    ensures forall j | j in keys :: j in before && j in after && after[j] == before[j]
    ensures forall j | j in before :: j !in after <==> Disposed(calls, since, j, before[j], config)
  {
  }

  /** Which calls dispose of an entry depends on its task and attempt only. */
  lemma SameDisposed(calls: seq<Call>, since: nat, j: JobId, one: Slot<T.Task>, two: Slot<T.Task>, config: Config)
    requires one.task == two.task && one.attempt == two.attempt
    ensures Disposed(calls, since, j, one, config) <==> Disposed(calls, since, j, two, config)
  {
    hide Hits;
    if i :| since <= i < |calls| && calls[i].Disposes(j, one, config) {
      assert calls[i].Disposes(j, two, config);
    }
    if i :| since <= i < |calls| && calls[i].Disposes(j, two, config) {
      assert calls[i].Disposes(j, one, config);
    }
  }

  lemma DisposedSplit(prior: seq<Call>, calls: seq<Call>, since: nat, j: JobId, slot: Slot<T.Task>, config: Config)
    requires prior <= calls && since <= |prior| && Disposed(calls, since, j, slot, config)
    ensures Disposed(prior, since, j, slot, config) || Disposed(calls, |prior|, j, slot, config)
  {
    hide Hits;
    var i :| since <= i < |calls| && calls[i].Disposes(j, slot, config);
    if i < |prior| {
      assert prior[i].Disposes(j, slot, config);
    }
  }

  lemma NotByExpiry(calls: seq<Call>, since: nat, j: JobId, slot: Slot<T.Task>, config: Config)
    requires since < |calls| && calls[since].event.op.ExpireJobs?
    ensures Disposed(calls, since, j, slot, config) <==> Disposed(calls, since + 1, j, slot, config)
  {
    hide Hits;
    if i :| since <= i < |calls| && calls[i].Disposes(j, slot, config) {
      assert since + 1 <= i;
    }
  }

  /** Claims and their answers dispose of nothing. */
  lemma ClaimingDisposesNothing(calls: seq<Call>, since: nat, j: JobId, slot: Slot<T.Task>, config: Config)
    requires forall i | since <= i < |calls| :: calls[i].IsClaiming()
    ensures !Disposed(calls, since, j, slot, config)
  {
    hide Hits;
  }

  lemma VisitOne(before: Entries, was: Entries, now: Entries, keys: set<JobId>, job: JobId,
                 prior: seq<Call>, calls: seq<Call>, since: nat, config: Config)
    requires Visited(before, was, keys, prior, since, config) && job in keys
    requires prior <= calls && since <= |prior|
    requires was.Keys - {job} <= now.Keys <= was.Keys
    requires forall j | j in now && j != job :: now[j] == was[j]
    requires job in now ==> SameEntry(was, now, job)
    requires forall j | j in was :: j !in now <==> Disposed(calls, |prior|, j, was[j], config)
    ensures Visited(before, now, keys - {job}, calls, since, config)
  {
    hide Disposed;
    forall j | j in before ensures j !in now <==> Disposed(calls, since, j, before[j], config) {
      if j in was {
        SameDisposed(calls, |prior|, j, was[j], before[j], config);
      }
      if j !in now {
        DisposedLater(prior, calls, since, j, before[j], config);
      } else if Disposed(calls, since, j, before[j], config) {
        DisposedSplit(prior, calls, since, j, before[j], config);
      }
    }
  }

  /** poll's second loop: a claim enters one job, and with a single place it finds no entry to overwrite. */
  lemma FillOne(before: Entries, was: Entries, now: Entries, prior: seq<Call>, calls: seq<Call>, since: nat,
        config: Config)
    requires prior <= calls && since <= |prior| && |was| < config.maxInflight
    requires forall j | j in before :: Accounted(before, was, prior, since, config, j)
    requires forall j | j in was :: (j in before && SameEntry(before, was, j)) || Reclaimed(prior, since, j)
    requires forall j | j in was :: SameEntry(was, now, j) || Reclaimed(calls, |prior|, j)
    requires forall j | j in now && j !in was :: Reclaimed(calls, |prior|, j)
    ensures forall j | j in before :: Accounted(before, now, calls, since, config, j)
    ensures forall j | j in now :: (j in before && SameEntry(before, now, j)) || Reclaimed(calls, since, j)
  {
    hide Disposed, Reclaimed;
    assert config.maxInflight == 1 ==> was == map[];
    forall j | j in before ensures Accounted(before, now, calls, since, config, j) {
      Carry(prior, calls, since, j, before[j], config);
    }
    forall j | j in now ensures (j in before && SameEntry(before, now, j)) || Reclaimed(calls, since, j) {
      Carry(prior, calls, since, j, now[j], config);
    }
  }

  lemma Carry(prior: seq<Call>, calls: seq<Call>, since: nat, j: JobId, slot: Slot<T.Task>, config: Config)
    requires prior <= calls && since <= |prior|
    ensures Disposed(prior, since, j, slot, config) ==> Disposed(calls, since, j, slot, config)
    ensures Reclaimed(prior, since, j) || Reclaimed(calls, |prior|, j) ==> Reclaimed(calls, since, j)
  {
    hide Disposed, Reclaimed;
    if Disposed(prior, since, j, slot, config) {
      DisposedLater(prior, calls, since, j, slot, config);
    }
    if Reclaimed(prior, since, j) || Reclaimed(calls, |prior|, j) {
      ReclaimedLater(prior, calls, since, j);
    }
  }

  class JobGateway {
    const store: JobStore
    const queue: TaskQueue
    const config: Config
    var active: Entries
    var stopping: bool
    var mono: T.Time              // time.monotonic() at its last reading
    ghost var log: seq<Call>      // every store call that can change the table, in order

    ghost predicate Valid()
      reads this, store, queue
    {
      && store.Valid() && queue.Valid() && ConfigOk(config)
      && |active| <= config.maxInflight
      && (forall j, k | j in active && k in active && active[j].task == active[k].task :: j == k)
      && (forall j | j in active :: active[j].attempt in store.issued)
      && (forall c | c in log :: Honest(c.event.op, c.about, config) && Enabled(c.seen, c.event))
    }

    constructor (store: JobStore, queue: TaskQueue, config: Config, mono: T.Time)
      requires store.Valid() && queue.Valid() && ConfigOk(config)
      ensures Valid() && active == map[] && log == [] && !stopping
      ensures this.store == store && this.queue == queue && this.config == config
    {
      this.store, this.queue, this.config, this.mono := store, queue, config, mono;
      active, stopping, log := map[], false, [];
    }

    method Monotonic() returns (t: T.Time)
      modifies this`mono
      ensures t == mono && old(mono) <= t
    {
      t :| mono <= t;
      mono := t;
    }

    /** Other clients act, the database clock advances, and the connection decides the fate of the call. */
    method Prepare() returns (at: Time, fate: Fate)
      requires store.Valid()
      modifies store
      ensures store.Valid() && old(store.trace) <= store.trace && old(store.issued) <= store.issued
      ensures store.now <= at && Inv(store.Contents())
      ensures store.Contents().now <= at && store.Contents().issued == store.issued
    {
      store.Others();
      at :| store.now <= at;
      fate := *;
    }

    /** Send one statement that changes at most a row, and learn its row count unless the call raises. */
    method Send(op: Op, ghost about: Option<About>) returns (reply: Reply<bool>)
      requires Valid() && !op.InsertJob? && !op.ClaimJob? && Honest(op, about, config)
      modifies store, this`log
      ensures Valid() && old(store.trace) <= store.trace && old(store.issued) <= store.issued
      ensures |log| == |old(log)| + 1 && log[..|old(log)|] == old(log)
      ensures
        var c := log[|old(log)|];
        && c.event.op == op && c.about == about && Enabled(c.seen, c.event) && Inv(c.seen)
        && store.Contents() == (if c.fate == Lost then c.seen else Apply(c.seen, c.event))
        && (reply.Raised? <==> c.fate != Answered)
        && (reply.Returned? && !op.ExpireJobs? ==> reply.value == Hits(c.seen, c.event))
    {
      var at, fate := Prepare();
      log := log + [Call(store.Contents(), Event(at, op), fate, about)];
      if fate == Lost {
        return Raised;
      }
      var hit := store.Perform(Event(at, op));
      return if fate == Unheard then Raised else Returned(hit);
    }

    method SendClaim(wanted: Option<JobId>) returns (reply: Reply<Option<Claimed>>)
      requires Valid()
      modifies store, this`log
      ensures Valid() && old(store.trace) <= store.trace && old(store.issued) <= store.issued
      ensures |log| == |old(log)| + 1 && log[..|old(log)|] == old(log)
      ensures
        var c := log[|old(log)|];
        && c.event.op.ClaimJob? && c.event.op.wanted == wanted && c.event.op.leaseSeconds == config.leaseSeconds
        && Enabled(c.seen, c.event) && Inv(c.seen)
        && store.Contents() == (if c.fate == Lost then c.seen else Apply(c.seen, c.event))
        && (reply.Raised? <==> c.fate != Answered)
        && (reply.Returned? && reply.value.Some? <==> c.Won())
        && (c.Won() ==>
              && Chosen(c.seen.rows, c.event.at, wanted, c.event.op.locked) == Some(reply.value.value.job)
              && (wanted == None || wanted == Some(reply.value.value.job))
              && reply.value.value.row.attemptId == Some(c.event.op.attempt) && c.event.op.attempt in store.issued
              && reply.value.value.job in store.rows && reply.value.value.row == store.rows[reply.value.value.job]
              && store.rows == Apply(c.seen, c.event).rows)
    {
      hide Apply, Hits, Chosen, Legal, Run, TaskQueue.Valid, Claimable, NoLater, LeaseEnd, Reports;
      hide JobStore.Valid, Inv, Leased;
      var at, fate := Prepare();
      var attempt := NewAttemptId(store.issued);
      var locked: set<JobId> := *;
      log := log + [Call(store.Contents(), Event(at, ClaimJob(wanted, attempt, config.leaseSeconds, locked)), fate,
            None)];
      if fate == Lost {
        return Raised;
      }
      var claimed := store.Claim(at, wanted, attempt, config.leaseSeconds, locked);
      return if fate == Unheard then Raised else Returned(claimed);
    }

    /** One call settled a finished task: its verdict was sent, and the entry goes only if it returned. */
    ghost predicate Settled(before: Entries, job: JobId, calls: nat, raised: bool)
      requires job in before
      reads this, before[job].task
    {
      var was := before[job];
      && |log| == calls + 1 && was.task.State().Terminal()
      && log[calls].about == Some(About(was, was.task.State()))
      && Reports(log[calls].event.op, job, was.attempt, was.task.State(), config.retrySeconds)
      && raised == (log[calls].fate != Answered)
      && active == if raised then before else before - {job}
    }

    /** One call renewed a due lease: a refusal drops the entry and fails its task. */
    ghost predicate Extended(before: Entries, job: JobId, calls: nat, began: T.Time, raised: bool)
      requires job in before
      reads this, before[job].task
    {
      var was, s := before[job], before[job].task.State();
      && began <= mono
      && |log| == calls + 1
      && log[calls].event.op == RenewLease(job, was.attempt, config.leaseSeconds)
      && config.renewInterval * SECOND <= mono - was.renewed
      && raised == (log[calls].fate != Answered)
      && (raised ==> active == before && !s.Terminal())
      && (log[calls].Won() ==> active == before[job := was.(renewed := mono)] && !s.Terminal() && !s.Expired(began))
      && (log[calls].Refused() ==>
            active == before - {job} && s.status == T.Failed && s.errorCode == Some("lease_lost"))
    }

    /** An entry that needs nothing: its task is unfinished, had time left when the pass began, and its
        lease was renewed since or not longer before than the renewal interval. */
    ghost predicate Current(slot: Slot<T.Task>, began: T.Time)
      reads slot.task
    {
      && !slot.task.State().Terminal() && !slot.task.State().Expired(began)
      && (began <= slot.renewed || began - slot.renewed < config.renewInterval * SECOND)
    }

    /** What one pass that begins at the given time does with an entry. Only an unfinished task with time
        left and a recent lease is left alone. */
    ghost predicate Polled(before: Entries, job: JobId, calls: nat, began: T.Time, raised: bool)
      requires job in before
      reads this, before[job].task
    {
      || (|log| == calls && !raised && active == before && Current(before[job], began)
          && began <= mono && mono - before[job].renewed < config.renewInterval * SECOND)
      || Settled(before, job, calls, raised)
      || Extended(before, job, calls, began, raised)
    }

    method Settle(job: JobId) returns (raised: bool)
      requires Valid() && job in active && active[job].task.State().Terminal()
      modifies store, this`log, this`active
      ensures Valid() && old(store.trace) <= store.trace && old(log) <= log
      ensures Settled(old(active), job, old(|log|), raised)
    {
      hide Inv, Hits, Apply, Enabled, Legal, Run, Reports;
      VerdictReports(job, active[job].attempt, active[job].task.State(), config);
      var reply := Send(Verdict(job, active[job].attempt, active[job].task.State(), config),
                        Some(About(active[job], active[job].task.State())));
      raised := reply.Raised?;
      if !raised {
        SmallerMap(active, job);
        active := active - {job};
      }
    }

    /** Prevent a task waiting in the queue from executing a lost lease. */
    method Abandon(job: JobId, clock: T.Time)
      requires Valid() && job in active
      modifies this`active, active[job].task
      ensures Valid() && active == old(active) - {job}
      ensures old(active)[job].task.State()
              == T.Move(old(active[job].task.State()), T.Fail(clock, LEASE_LOST.0, Some(LEASE_LOST.1)))
    {
      active[job].task.MarkFailed(LEASE_LOST.0, Some(LEASE_LOST.1), clock);
      SmallerMap(active, job);
      active := active - {job};
    }

    method Touch(job: JobId, clock: T.Time)
      requires Valid() && job in active
      modifies this`active
      ensures Valid() && active == old(active)[job := old(active)[job].(renewed := clock)]
    {
      var entry := active[job];
      assert active[job := Slot(entry.task, entry.attempt, clock)].Keys == active.Keys;
      active := active[job := Slot(entry.task, entry.attempt, clock)];
    }

    method Extend(job: JobId, ghost began: T.Time) returns (raised: bool)
      requires Valid() && job in active && !active[job].task.State().Terminal()
      requires began <= mono && !active[job].task.State().Expired(began)
      requires config.renewInterval * SECOND <= mono - active[job].renewed
      modifies store, this`log, this`active, this`mono, active[job].task
      ensures Valid() && old(store.trace) <= store.trace && old(log) <= log && old(mono) <= mono
      ensures Extended(old(active), job, old(|log|), began, raised)
      ensures old(active)[job].task.State() ==
              if log[old(|log|)].Refused()
              then T.Move(old(active[job].task.State()), T.Fail(mono, LEASE_LOST.0, Some(LEASE_LOST.1)))
              else old(active[job].task.State())
    {
      hide Inv, Hits, Apply, Enabled, Legal, Run, Valid, JobStore.Valid, TaskQueue.Valid;
      var reply := Send(RenewLease(job, active[job].attempt, config.leaseSeconds), None);
      if reply.Raised? {
        return true;
      }
      raised := false;
      var clock := Monotonic();
      if reply.value {
        Touch(job, clock);
      } else {
        Abandon(job, clock);
      }
    }

    method FailIfExpired(task: T.Task)
      modifies this`mono, task
      ensures old(mono) <= mono
      ensures task.State() == if old(task.State()).Expired(mono)
                              then T.Move(old(task.State()),
                                    T.Fail(mono, "job deadline exceeded", Some("deadline_exceeded")))
                              else old(task.State())
    {
      var clock := Monotonic();
      var expired := task.IsExpired(clock);
      if expired {
        task.MarkFailed("job deadline exceeded", Some("deadline_exceeded"), clock);
      }
    }

    /** One pass of poll's loop over _active, for one entry. */
    method PollEntry(job: JobId) returns (raised: bool)
      requires Valid() && job in active
      modifies this`active, this`mono, this`log, store, active[job].task
      ensures Valid() && old(store.trace) <= store.trace && old(log) <= log
      ensures old(mono) <= mono && Polled(old(active), job, old(|log|), old(mono), raised)
      ensures
        var was, now := old(active[job].task.State()), old(active)[job].task.State();
        && (was.Terminal() || !now.Terminal() ==> now == was)
        && (was.Expired(old(mono)) && !was.Terminal() ==> now.errorCode == Some("deadline_exceeded"))
        && (now != was ==>
              || (now.errorCode == Some("deadline_exceeded") && was.Expired(mono))
              || (now.errorCode == Some("lease_lost") && |log| == old(|log|) + 1 && log[old(|log|)].Refused()))
    {
      var task := active[job].task;
      FailIfExpired(task);
      raised := false;
      if task.status == T.Done || task.status == T.Failed {
        raised := Settle(job);
      } else {
        var clock := Monotonic();
        if clock - active[job].renewed >= config.renewInterval * SECOND {
          raised := Extend(job, old(mono));
        }
      }
    }

    // -------------------------------------------------------------------------------------------
    // Claims
    // -------------------------------------------------------------------------------------------

    method NewTask(row: Row, attempt: AttemptId, wallClock: T.Time) returns (task: T.Task)
      modifies this`mono
      ensures fresh(task) && task.State().status == T.Pending && old(mono) <= mono
      ensures task.input == T.Fields(Some(T.Text("synthx_v73")), Some(row.spec), Some(attempt))
      ensures task.deadline.Some? && Budgeted(task.deadline.value, row.deadlineAt - wallClock, old(mono), mono)
    {
      var clock := Monotonic();
      var remaining := row.deadlineAt - wallClock;
      var id: nat :| 0 <= id;
      task := new T.Task(id, JobInput(row.spec, attempt), clock, Some(clock + if remaining > 0 then remaining else 0));
    }

    /** Create the task of a claimed row and put it on the queue, with an entry, unless the queue is full. */
    method Enter(claimed: Claimed, attempt: AttemptId, wallClock: T.Time) returns (full: bool)
      requires Valid() && attempt in store.issued && |active| < config.maxInflight
      modifies this`active, this`mono, queue
      ensures Valid() && old(queue.accepted) <= queue.accepted && |active| <= old(|active|) + 1
      ensures full ==> active == old(active) && queue.accepted == old(queue.accepted)
      ensures full <==> queue.maxsize > 0 && old(|queue.items|) >= queue.maxsize
      ensures old(mono) <= mono
      ensures !full ==>
                && Entered(old(active), claimed, attempt, old(queue.accepted), old(mono), wallClock)
                && fresh(active[claimed.job].task) && active[claimed.job].task.State().status == T.Pending
    {
      hide Inv, Hits, Apply, Enabled, Legal, Run, Chosen, Honest, JobStore.Valid, TaskQueue.Valid, T.Task.State;
      var task := NewTask(claimed.row, attempt, wallClock);
      full := queue.Put(task);
      if !full {
        var clock := Monotonic();
        Hold(claimed.job, Slot(task, attempt, clock));
      }
    }

    /** A new entry, over an old one of the same job if there is one. */
    method Hold(job: JobId, entry: Slot<T.Task>)
      requires Valid() && entry.attempt in store.issued && |active| < config.maxInflight
      requires forall j | j in active :: active[j].task != entry.task
      modifies this`active
      ensures Valid() && active == old(active)[job := entry] && |active| <= old(|active|) + 1
    {
      BiggerMap(active, job, entry);
      active := active[job := entry];
    }

    /** The time left, if any, is counted from a reading taken between the two times. */
    predicate Budgeted(deadline: T.Time, left: T.Time, began: T.Time, ended: T.Time) {
      if left < 0 then began <= deadline <= ended else began + left <= deadline <= ended + left
    }

    /** One new task with the row's spec and attempt, and what the row's deadline leaves, was queued and
        entered. */
    ghost predicate Entered(before: Entries, claimed: Claimed, attempt: AttemptId, queued: seq<T.Task>,
                            began: T.Time, wallClock: T.Time)
      reads this, queue
    {
      && claimed.job in active && active[claimed.job].attempt == attempt
      && began <= active[claimed.job].renewed <= mono
      && active == before[claimed.job := active[claimed.job]]
      && queue.accepted == queued + [active[claimed.job].task]
      && active[claimed.job].task.input
         == T.Fields(Some(T.Text("synthx_v73")), Some(claimed.row.spec), Some(attempt))
      && active[claimed.job].task.deadline.Some?
      && Budgeted(active[claimed.job].task.deadline.value, claimed.row.deadlineAt - wallClock, began, mono)
    }

    /** A claimed row became one queued task and one entry if its fingerprint is right and the queue had room,
        and otherwise was written back by one call. */
    ghost predicate Answers(claimed: Claimed, attempt: AttemptId, before: Entries, calls: nat, queued: seq<T.Task>,
                            waiting: seq<T.Task>, began: T.Time, wallClock: T.Time, raised: bool)
      reads this, queue
    {
      if config.sha256(claimed.row.spec) == claimed.row.specSha
         && (queue.maxsize <= 0 || |waiting| < queue.maxsize) then
        |log| == calls && !raised && Entered(before, claimed, attempt, queued, began, wallClock)
      else
        && |log| == calls + 1 && active == before && queue.accepted == queued
        && WritesBack(log[calls].event.op, claimed, attempt, config) && log[calls].about == None
        && raised == (log[calls].fate != Answered)
    }

    /** _enqueue: a claimed row becomes one queued task and one entry, or is written back at once. */
    method Enqueue(claimed: Claimed, attempt: AttemptId, wallClock: T.Time) returns (raised: bool)
      requires Valid() && claimed.row.attemptId == Some(attempt) && attempt in store.issued
      requires |active| < config.maxInflight
      modifies this`log, this`active, this`mono, store, queue
      ensures Valid() && old(store.trace) <= store.trace && old(log) <= log && |active| <= old(|active|) + 1
      ensures Answers(claimed, attempt, old(active), old(|log|), old(queue.accepted), old(queue.items), old(mono),
                      wallClock, raised)
      ensures log == old(log) ==> fresh(active[claimed.job].task)
    {
      hide Inv, Hits, Apply, Enabled, Legal, Run, Valid, JobStore.Valid, TaskQueue.Valid;
      if config.sha256(claimed.row.spec) != claimed.row.specSha {
        var reply := Send(CompleteJob(claimed.job, attempt, None, Some(INVALID_SPEC)), None);
        return reply.Raised?;
      }
      var full := Enter(claimed, attempt, wallClock);
      if full {
        var reply := Send(DeferJob(claimed.job, attempt, Some(OVERLOADED), config.retrySeconds), None);
        return reply.Raised?;
      }
      raised := false;
    }

    /** One claim was made, for the named job if one is named. The row it won, if it won one, is the row it left
        in the table, and became a task with an entry or was written back. */
    ghost predicate ClaimMade(wanted: Option<JobId>, claimed: Option<Claimed>, before: Entries, calls: nat,
                              queued: seq<T.Task>, waiting: seq<T.Task>, began: T.Time, wallClock: T.Time, raised: bool)
      reads this, queue
    {
      && calls < |log| && log[calls].event.op.ClaimJob? && log[calls].event.op.wanted == wanted
      && (claimed.Some? <==> log[calls].Won())
      && (claimed.None? ==> |log| == calls + 1 && active == before && raised == (log[calls].fate != Answered))
      && (claimed.Some? ==>
            && log[calls].Claims(claimed.value.job)
            && claimed.value.job in Apply(log[calls].seen, log[calls].event).rows
            && claimed.value.row == Apply(log[calls].seen, log[calls].event).rows[claimed.value.job]
            && Answers(claimed.value, log[calls].event.op.attempt, before, calls + 1, queued, waiting, began, wallClock,
                       raised))
    }

    lemma PlacedNow(wanted: Option<JobId>, claimed: Option<Claimed>, before: Entries, calls: nat,
                    queued: seq<T.Task>, waiting: seq<T.Task>, began: T.Time, wallClock: T.Time, raised: bool)
      requires ClaimMade(wanted, claimed, before, calls, queued, waiting, began, wallClock, raised)
      ensures calls < |log| <= calls + 2 && forall j :: Placed(active, log, calls, j)
      ensures log[calls].event.op.ClaimJob? && log[calls].event.op.wanted == wanted
      ensures forall i | calls < i < |log| :: !log[i].event.op.ClaimJob?
    {
      hide Hits, Chosen, Apply, Reclaimed;
    }

    /** Claim one row and enqueue it; found is false when nothing was due. */
    method ClaimOne(wanted: Option<JobId>, wallClock: T.Time)
      returns (found: bool, raised: bool, ghost claimed: Option<Claimed>)
      requires Valid() && |active| < config.maxInflight
      modifies this`log, this`active, this`mono, store, queue
      ensures Valid() && old(store.trace) <= store.trace && old(log) <= log
      ensures forall j | j in old(active) :: SameEntry(old(active), active, j) || Reclaimed(log, old(|log|), j)
      ensures forall j | j in active && j !in old(active) :: Reclaimed(log, old(|log|), j) && fresh(active[j].task)
      ensures wanted.Some? ==>
                forall j | j in active && j != wanted.value :: j in old(active) && active[j] == old(active)[j]
      ensures wanted.Some? ==> forall j | j in old(active) && j != wanted.value :: j in active
      ensures !found ==> active == old(active)
      ensures |active| <= old(|active|) + 1
      ensures forall j | j in active :: (j in old(active) && active[j] == old(active)[j]) || fresh(active[j].task)
      ensures |old(log)| < |log| && NumClaims(log[|old(log)|..]) == 1
      ensures forall i | |old(log)| <= i < |log| :: log[i].IsClaiming()
      ensures !found && !raised ==> log[|log| - 1].event.op.ClaimJob? && log[|log| - 1].Refused()
      ensures ClaimMade(wanted, claimed, old(active), |old(log)|, old(queue.accepted), old(queue.items), old(mono),
                        wallClock, raised)
    {
      hide Inv, Hits, Apply, Enabled, Legal, Run, Valid, Chosen, JobStore.Valid, TaskQueue.Valid;
      var reply := SendClaim(wanted);
      ghost var c := log[|old(log)|];
      OneClaim(log[|old(log)|..]);
      if reply.Raised? {
        return true, true, None;
      }
      claimed := reply.value;
      if reply.value == None {
        return false, false, None;
      }
      found := true;
      raised := Enqueue(reply.value.value, reply.value.value.row.attemptId.value, wallClock);
      assert log[|old(log)|] == c && c.Claims(reply.value.value.job);
      assert Reclaimed(log, old(|log|), reply.value.value.job);
      OneClaim(log[|old(log)|..]);
    }

    lemma DistinctTasks()
      requires Valid()
      ensures forall j, k | j in active && k in active && active[j].task == active[k].task :: j == k
    {
    }

    /** poll's loop over the entries that existed when it began. */
    method PollEntries(ghost tasks: set<T.Task>) returns (raised: bool)
      requires Valid() && forall j | j in active :: active[j].task in tasks
      modifies this`log, this`active, this`mono, store, tasks
      ensures Valid() && old(store.trace) <= store.trace && old(log) <= log
      ensures forall j | j in active :: j in old(active) && SameEntry(old(active), active, j)
      ensures forall j | j in old(active) :: j !in active <==> Disposed(log, old(|log|), j, old(active)[j], config)
      ensures !raised ==> forall j | j in active :: Current(active[j], old(mono))
      ensures forall i | |old(log)| <= i < |log| :: !log[i].event.op.ClaimJob?
      ensures old(mono) <= mono
    {
      hide *;
      ghost var before := active;
      var keys := active.Keys;
      raised := false;
      VisitAll(before, log, config);
      while keys != {} && !raised
        invariant Valid() && old(store.trace) <= store.trace && old(log) <= log
        invariant Visited(before, active, keys, log, |old(log)|, config)
        invariant !raised ==> forall j | j in active && j !in keys :: Current(active[j], old(mono))
        invariant forall i | |old(log)| <= i < |log| :: !log[i].event.op.ClaimJob?
        invariant old(mono) <= mono
        decreases |keys|
      {
        var job :| job in keys;
        VisitNow(before, active, keys, log, |old(log)|, config);
        DistinctTasks();
        ghost var began := mono;
        raised := PollOne(before, keys, job, |old(log)|);
        if job in active && !raised {
          CurrentEarlier(active[job], old(mono), began);
        }
        keys := keys - {job};
      }
      VisitNow(before, active, keys, log, |old(log)|, config);
    }

    lemma CurrentEarlier(slot: Slot<T.Task>, before: T.Time, began: T.Time)
      requires before <= began && Current(slot, began)
      ensures Current(slot, before)
    {
    }

    lemma PolledFacts(was: Entries, job: JobId, calls: nat, began: T.Time, raised: bool)
      requires job in was && calls <= |log| && Polled(was, job, calls, began, raised)
      ensures was.Keys - {job} <= active.Keys <= was.Keys
      ensures forall j | j in active && j != job :: active[j] == was[j]
      ensures job in active ==> SameEntry(was, active, job)
      ensures forall j | j in was :: j !in active <==> Disposed(log, calls, j, was[j], config)
      ensures job in active && !raised ==> Current(active[job], began)
      ensures forall i | calls <= i < |log| :: !log[i].event.op.ClaimJob?
    {
      hide Inv, Hits, Apply, Enabled;
      forall j | j in was ensures j !in active <==> Disposed(log, calls, j, was[j], config) {
        if j !in active {
          assert log[calls].Disposes(j, was[j], config);
        }
      }
    }

    /** PollEntry, as the loop sees it. */
    method PollOne(ghost before: Entries, ghost keys: set<JobId>, job: JobId, ghost since: nat) returns (raised: bool)
      requires Valid() && since <= |log| && job in keys && Visited(before, active, keys, log, since, config)
      modifies this`log, this`active, this`mono, store, active[job].task
      ensures Valid() && old(store.trace) <= store.trace && old(log) <= log
      ensures Visited(before, active, keys - {job}, log, since, config)
      ensures active.Keys <= old(active.Keys) && forall j | j in active && j != job :: active[j] == old(active)[j]
      ensures job in active && !raised ==> Current(active[job], old(mono))
      ensures forall i | |old(log)| <= i < |log| :: !log[i].event.op.ClaimJob?
      ensures old(mono) <= mono
    {
      hide *;
      VisitNow(before, active, keys, log, since, config);
      raised := PollEntry(job);
      PolledFacts(old(active), job, old(|log|), old(mono), raised);
      VisitOne(before, old(active), active, keys, job, old(log), log, since, config);
    }

    /** The last call was a claim that found nothing due. */
    ghost predicate NothingDue()
      reads this`log
    {
      log != [] && log[|log| - 1].event.op.ClaimJob? && log[|log| - 1].Refused()
    }

    /** The entries that no call from the given one on disposed of. */
    ghost function Kept(before: Entries, since: nat): set<JobId>
      reads this`log
    {
      set j | j in before && !Disposed(log, since, j, before[j], config)
    }

    /** poll: expire deadlines, pass over every entry, then fill the free places with new claims. An
        entry that was there before is still the same, or a call about it returned; or, only if
        max_inflight exceeds 1, its job was claimed anew over it. Unless the pass raises, every entry that is
        still the same is unfinished, has time left and was renewed recently, and a claim was made for every
        place that was free, up to one that found nothing due. */
    method Poll(wallClock: T.Time) returns (raised: bool)
      requires Valid()
      modifies this`log, this`active, this`mono, store, queue, set j | j in active :: active[j].task
      ensures Valid() && old(store.trace) <= store.trace && old(log) <= log
      ensures forall j | j in old(active) :: Accounted(old(active), active, log, |old(log)|, config, j)
      ensures forall j | j in active && j !in old(active) :: Reclaimed(log, |old(log)|, j)
      ensures |old(log)| < |log| && log[|old(log)|].event.op.ExpireJobs?
      ensures !raised ==>
                forall j | j in old(active) && SameEntry(old(active), active, j) :: Current(active[j], old(mono))
      ensures forall i | |old(log)| <= i < |log| && log[i].event.op.ClaimJob? :: log[i].event.op.wanted == None
      ensures forall i, j | |old(log)| <= i < |log| :: Placed(active, log, i, j)
      ensures !raised ==>
                NothingDue() || NumClaims(log[|old(log)|..]) == config.maxInflight - |Kept(old(active), |old(log)|)|
    {
      hide Inv, Hits, Apply, Enabled, Legal, Run, Disposed, Reclaimed, Valid, JobStore.Valid, TaskQueue.Valid, Current;
      hide Kept, NumClaims, NothingDue, Honest, Call.Refused, Call.IsClaiming;
      raised := Sweep();
      ghost var kept, mid := active, log;
      if !raised {
        raised := FillPlaces(old(active), |old(log)|, wallClock);
        FillingFacts(old(active), |old(log)|, |mid|);
        AfterPlaces(old(active), kept, old(log), mid);
      }
      AfterSweep(old(log), mid);
    }

    /** The first half of poll. */
    method Sweep() returns (raised: bool)
      requires Valid()
      modifies this`log, this`active, this`mono, store, set j | j in active :: active[j].task
      ensures Valid() && old(store.trace) <= store.trace && old(log) <= log
      ensures forall j | j in active :: j in old(active) && SameEntry(old(active), active, j)
      ensures forall j | j in old(active) :: j !in active <==> Disposed(log, |old(log)|, j, old(active)[j], config)
      ensures !raised ==> forall j | j in active :: Current(active[j], old(mono))
      ensures NumClaims(log[|old(log)|..]) == 0
      ensures forall i | |old(log)| <= i < |log| :: !log[i].event.op.ClaimJob?
      ensures |old(log)| < |log| && log[|old(log)|].event.op.ExpireJobs?
    {
      hide Inv, Hits, Apply, Enabled, Legal, Run, Disposed, Reclaimed, Valid, JobStore.Valid, TaskQueue.Valid, Current;
      hide NumClaims, Honest, Call.Refused, Call.IsClaiming;
      var reply := Send(ExpireJobs, None);
      ghost var first := log;
      if reply.Raised? {
        NothingYet(old(active), old(log), first);
        return true;
      }
      raised := PollEntries(set j | j in active :: active[j].task);
      AfterEntries(old(active), active, old(log), first, log);
    }

    /** The calls before the claims are no claims. */
    lemma AfterSweep(prior: seq<Call>, mid: seq<Call>)
      requires prior <= mid <= log
      requires forall i | |prior| <= i < |mid| :: !mid[i].event.op.ClaimJob?
      requires forall i | |mid| <= i < |log| && log[i].event.op.ClaimJob? :: log[i].event.op.wanted == None
      requires forall i, j | |mid| <= i < |log| :: Placed(active, log, i, j)
      ensures forall i | |prior| <= i < |log| && log[i].event.op.ClaimJob? :: log[i].event.op.wanted == None
      ensures forall i, j | |prior| <= i < |log| :: Placed(active, log, i, j)
    {
      hide Placed;
      forall i, j | |prior| <= i < |log| ensures Placed(active, log, i, j) {
        if i < |mid| {
          assert log[i] == mid[i];
          PlacedIdle(active, log, i, j);
        }
      }
      forall i | |prior| <= i < |mid| ensures !log[i].event.op.ClaimJob? {
        assert log[i] == mid[i];
      }
    }

    lemma NothingYet(before: Entries, prior: seq<Call>, first: seq<Call>)
      requires |first| == |prior| + 1 && prior <= first && first[|prior|].event.op.ExpireJobs?
      ensures forall j | j in before :: !Disposed(first, |prior|, j, before[j], config)
      ensures NumClaims(first[|prior|..]) == 0
    {
      hide Hits;
      NoClaims(first[|prior|..]);
    }

    /** The call that expires deadlines disposes of nothing, and no call so far is a claim. */
    lemma AfterEntries(before: Entries, kept: Entries, prior: seq<Call>, first: seq<Call>, mid: seq<Call>)
      requires |first| == |prior| + 1 && prior <= first <= mid && first[|prior|].event.op.ExpireJobs?
      requires forall j | j in before :: j !in kept <==> Disposed(mid, |first|, j, before[j], config)
      requires forall i | |first| <= i < |mid| :: !mid[i].event.op.ClaimJob?
      ensures forall j | j in before :: j !in kept <==> Disposed(mid, |prior|, j, before[j], config)
      ensures NumClaims(mid[|prior|..]) == 0
    {
      hide Disposed, Hits;
      assert mid[|prior|] == first[|prior|];
      NoClaims(mid[|prior|..]);
      forall j | j in before
        ensures Disposed(mid, |prior|, j, before[j], config) <==> Disposed(mid, |first|, j, before[j], config)
      {
        NotByExpiry(mid, |prior|, j, before[j], config);
      }
    }

    /** Nor do the claims; so what was kept is what no call disposed of. */
    lemma AfterPlaces(before: Entries, kept: Entries, prior: seq<Call>, mid: seq<Call>)
      requires prior <= mid <= log && kept.Keys <= before.Keys
      requires forall j | j in before :: j !in kept <==> Disposed(mid, |prior|, j, before[j], config)
      requires NumClaims(mid[|prior|..]) == 0
      requires forall i | |mid| <= i < |log| :: log[i].IsClaiming()
      ensures Kept(before, |prior|) == kept.Keys && |Kept(before, |prior|)| == |kept|
      ensures NumClaims(log[|prior|..]) == NumClaims(log[|mid|..])
    {
      hide Disposed, Hits, Call.IsClaiming;
      NumClaimsLater(mid, log, |prior|);
      forall j | j in before
        ensures Disposed(log, |prior|, j, before[j], config) <==> Disposed(mid, |prior|, j, before[j], config)
      {
        ClaimingDisposesNothing(log, |mid|, j, before[j], config);
        if Disposed(log, |prior|, j, before[j], config) {
          DisposedSplit(mid, log, |prior|, j, before[j], config);
        } else if Disposed(mid, |prior|, j, before[j], config) {
          DisposedLater(mid, log, |prior|, j, before[j], config);
        }
      }
    }

    /** The claims of one poll so far, from the given call on, for the entries poll began with: every entry is
        accounted for, and every claim names no job and was placed. */
    ghost predicate Filling(before: Entries, since: nat, from: nat)
      reads this
    {
      && (forall j | j in before :: Accounted(before, active, log, since, config, j))
      && (forall j | j in active :: (j in before && SameEntry(before, active, j)) || Reclaimed(log, since, j))
      && (forall i | from <= i < |log| :: log[i].IsClaiming())
      && (forall i | from <= i < |log| && log[i].event.op.ClaimJob? :: log[i].event.op.wanted == None)
      && (forall i, j | from <= i < |log| :: Placed(active, log, i, j))
    }

    lemma FillingFacts(before: Entries, since: nat, from: nat)
      requires Filling(before, since, from)
      ensures forall j | j in before :: Accounted(before, active, log, since, config, j)
      ensures forall j | j in active :: (j in before && SameEntry(before, active, j)) || Reclaimed(log, since, j)
      ensures forall i | from <= i < |log| :: log[i].IsClaiming()
      ensures forall i | from <= i < |log| && log[i].event.op.ClaimJob? :: log[i].event.op.wanted == None
      ensures forall i, j | from <= i < |log| :: Placed(active, log, i, j)
    {
    }

    lemma FillingBegins(before: Entries, since: nat)
      requires forall j | j in active :: j in before && SameEntry(before, active, j)
      requires forall j | j in before && j !in active :: Disposed(log, since, j, before[j], config)
      ensures Filling(before, since, |log|)
    {
      hide Disposed;
    }

    /** One more claim: was and prior are the entries and the calls before it. */
    lemma FillingOn(before: Entries, since: nat, from: nat, was: Entries, prior: seq<Call>)
      requires since <= from <= |prior| < |log| <= |prior| + 2 && prior <= log && |was| < config.maxInflight
      requires forall j | j in before :: Accounted(before, was, prior, since, config, j)
      requires forall j | j in was :: (j in before && SameEntry(before, was, j)) || Reclaimed(prior, since, j)
      requires forall j | j in was :: SameEntry(was, active, j) || Reclaimed(log, |prior|, j)
      requires forall j | j in active && j !in was :: Reclaimed(log, |prior|, j)
      requires forall i | from <= i < |prior| :: prior[i].IsClaiming()
      requires forall i | from <= i < |prior| && prior[i].event.op.ClaimJob? :: prior[i].event.op.wanted == None
      requires forall i, j | from <= i < |prior| :: Placed(was, prior, i, j)
      requires forall i | |prior| <= i < |log| :: log[i].IsClaiming()
      requires forall j :: Placed(active, log, |prior|, j)
      requires log[|prior|].event.op.ClaimJob? && log[|prior|].event.op.wanted == None
      requires forall i | |prior| < i < |log| :: !log[i].event.op.ClaimJob?
      ensures Filling(before, since, from)
    {
      hide Placed, Reclaimed, Disposed, Accounted, SameEntry, Call.IsClaiming;
      FillOne(before, was, active, prior, log, since, config);
      PlacedAll(was, active, prior, log, from);
      forall i | from <= i < |log|
        ensures log[i].IsClaiming() && (log[i].event.op.ClaimJob? ==> log[i].event.op.wanted == None)
      {
        if i < |prior| {
          assert log[i] == prior[i];
        }
      }
    }

    method FillPlace(ghost before: Entries, ghost since: nat, ghost from: nat, wallClock: T.Time)
      returns (found: bool, raised: bool)
      requires Valid() && since <= from <= |log| && |active| < config.maxInflight && Filling(before, since, from)
      modifies this`log, this`active, this`mono, store, queue
      ensures Valid() && old(store.trace) <= store.trace && old(log) <= log && |active| <= old(|active|) + 1
      ensures Filling(before, since, from)
      ensures forall j | j in active :: (j in old(active) && active[j] == old(active)[j]) || fresh(active[j].task)
      ensures NumClaims(log[from..]) == old(NumClaims(log[from..])) + 1
      ensures !found && !raised ==> NothingDue()
    {
      hide *;
      ghost var was, prior, queued, waiting, began := active, log, queue.accepted, queue.items, mono;
      FillingFacts(before, since, from);
      ghost var claimed;
      found, raised, claimed := ClaimOne(None, wallClock);
      PlacedNow(None, claimed, was, |prior|, queued, waiting, began, wallClock, raised);
      FillingOn(before, since, from, was, prior);
      NumClaimsLater(prior, log, from);
      if !found && !raised {
        NothingFound();
      }
    }

    lemma NothingFound()
      requires log != [] && log[|log| - 1].event.op.ClaimJob? && log[|log| - 1].Refused()
      ensures NothingDue()
    {
    }

    /** The claims of one poll, for the entries poll began with. */
    method FillPlaces(ghost before: Entries, ghost since: nat, wallClock: T.Time) returns (raised: bool)
      requires Valid() && since <= |log|
      requires forall j | j in active :: j in before && SameEntry(before, active, j)
      requires forall j | j in before && j !in active :: Disposed(log, since, j, before[j], config)
      modifies this`log, this`active, this`mono, store, queue
      ensures Valid() && old(store.trace) <= store.trace && old(log) <= log
      ensures Filling(before, since, old(|log|))
      ensures forall j | j in active :: (j in old(active) && active[j] == old(active)[j]) || fresh(active[j].task)
      ensures !raised ==> NothingDue() || NumClaims(log[|old(log)|..]) == config.maxInflight - |old(active)|
    {
      hide Inv, Hits, Apply, Enabled, Legal, Run, JobStore.Valid, TaskQueue.Valid, Filling, Honest, NothingDue;
      var places := config.maxInflight - |active|;
      var n := 0;
      var found := true;
      raised := false;
      FillingBegins(before, since);
      while n < places && found && !raised
        invariant 0 <= n <= places && |active| + places - n <= config.maxInflight
        invariant Valid() && old(store.trace) <= store.trace && old(log) <= log
        invariant Filling(before, since, old(|log|))
        invariant forall j | j in active :: (j in old(active) && active[j] == old(active)[j]) || fresh(active[j].task)
        invariant NumClaims(log[|old(log)|..]) == n && (!found && !raised ==> NothingDue())
      {
        found, raised := FillPlace(before, since, old(|log|), wallClock);
        n := n + 1;
      }
    }

    /** store.get */
    method Read(job: JobId) returns (reply: Reply<Option<Row>>)
      requires Valid()
      modifies store
      ensures Valid() && old(store.trace) <= store.trace && |active| <= config.maxInflight
      ensures reply.Returned? ==> reply.value == if job in store.rows then Some(store.rows[job]) else None
    {
      hide Inv, Hits, Apply, Enabled, Legal, Run, Honest;
      var at, fate := Prepare();
      var row := store.Get(job);
      return if fate == Answered then Returned(row) else Raised;
    }

    /** submit: claim and enqueue the named job if there is a free place, then report its row. */
    method Submit(job: JobId, wallClock: T.Time)
      returns (r: Submitted, ghost claimed: Option<Claimed>, ghost failed: bool)
      requires Valid()
      modifies this`log, this`active, this`mono, store, queue
      ensures Valid() && old(store.trace) <= store.trace && old(log) <= log
      ensures forall j | j in old(active) && j != job :: j in active && active[j] == old(active)[j]
      ensures forall j | j in active && j != job :: j in old(active)
      ensures job in old(active) && !SameEntry(old(active), active, job) ==>
                config.maxInflight > 1 && Reclaimed(log, old(|log|), job)
      ensures job in active && job !in old(active) ==> Reclaimed(log, old(|log|), job)
      ensures r.UnknownJob? || stopping || old(|active|) == config.maxInflight ==>
                active == old(active) && log == old(log)
      ensures r.Snapshot? ==> r.row == if job in store.rows then Some(store.rows[job]) else None
      ensures r.UnknownJob? ==> job !in store.rows
      ensures log == old(log) ==> r.UnknownJob? || r.StoreFailed? || stopping || old(|active|) == config.maxInflight
      ensures log != old(log) ==>
                && (failed ==> r.StoreFailed?)
                && ClaimMade(Some(job), claimed, old(active), |old(log)|, old(queue.accepted), old(queue.items),
                             old(mono), wallClock, failed)
    {
      hide Inv, Hits, Apply, Enabled, Legal, Run, Reclaimed, JobStore.Valid, TaskQueue.Valid;
      hide Honest, NumClaims, Call.Refused, Call.IsClaiming, ClaimMade, Valid;
      claimed, failed := None, false;
      var row := Read(job);
      if row.Raised? {
        return StoreFailed, claimed, failed;
      }
      if row.value == None {
        return UnknownJob, claimed, failed;
      }
      if |active| < config.maxInflight && !stopping {
        assert config.maxInflight == 1 ==> active == map[];
        var found, raised;
        found, raised, claimed := ClaimOne(Some(job), wallClock);
        failed := raised;
        if raised {
          return StoreFailed, claimed, failed;
        }
      }
      row := Read(job);
      return if row.Returned? then Snapshot(row.value) else StoreFailed, claimed, failed;
    }
  }

  lemma BiggerMap(m: map<JobId, Slot<T.Task>>, j: JobId, s: Slot<T.Task>)
    ensures |m[j := s]| <= |m| + 1
  {
    assert m[j := s].Keys == m.Keys + {j};
  }

  lemma SmallerMap(m: map<JobId, Slot<T.Task>>, j: JobId)
    requires j in m
    ensures |m - {j}| == |m| - 1
  {
    assert (m - {j}).Keys == m.Keys - {j};
  }

  lemma {:induction false} Unused(ids: set<AttemptId>) returns (bound: AttemptId)
    ensures forall a | a in ids :: a < bound
    decreases |ids|
  {
    bound := 0;
    if a :| a in ids {
      var rest := Unused(ids - {a});
      bound := if a < rest then rest else a + 1;
      forall b | b in ids ensures b < bound {
        assert b == a || b in ids - {a};
      }
    }
  }

  /** uuid4: any id that was never handed out. */
  method NewAttemptId(issued: set<AttemptId>) returns (a: AttemptId)
    ensures a !in issued
  {
    ghost var bound := Unused(issued);
    assert bound !in issued;
    a :| a !in issued;
  }
}
