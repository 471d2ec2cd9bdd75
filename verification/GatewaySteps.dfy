/** The gateway object's calls are steps of the system of gateways: whatever one call of the object did, the
    system with that gateway in it does in one step, so everything proved about runs holds of the object. */
module GatewaySteps {
  import opened Wrappers
  import opened JobLease
  import opened JobLeaseRuns
  import opened GatewaySystem
  import opened JobGateways
  import T = Tasks

  /** Gateway g of the system has the entries of the object, with numbers for its tasks. */
  ghost predicate Shows(y: System, g: GatewayId, entries: Entries, ids: map<T.Task, TaskId>, config: Config) {
    && g in y.gateways && y.gateways[g].config == config
    && y.gateways[g].active.Keys == entries.Keys
    && forall j | j in entries ::
         && entries[j].task in ids && ids[entries[j].task] in y.tasks
         && y.gateways[g].active[j] == Slot(ids[entries[j].task], entries[j].attempt, entries[j].renewed)
  }

  /** The table after a call: as it was, or with the statement's effect. */
  ghost predicate TableAfter(before: Store, call: Call, after: Store) {
    after == if call.fate == Lost then before else Apply(before, call.event)
  }

  lemma ReportsVerdict(op: Op, job: JobId, attempt: AttemptId, s: T.TaskState, c: Config)
    requires s.Terminal() && Reports(op, job, attempt, s, c.retrySeconds)
    ensures op == Verdict(job, attempt, s, c)
  {
    VerdictReports(job, attempt, s, c);
  }

  /** Writing the outcome of a finished task. */
  lemma SettleIsAStep(gw: JobGateway, y: System, g: GatewayId, ids: map<T.Task, TaskId>, before: Entries, job: JobId,
                      calls: nat, raised: bool)
    requires job in before && gw.Settled(before, job, calls, raised)
    requires Shows(y, g, before, ids, gw.config) && y.gateways[g].held == None
    requires var c := gw.log[calls];
             && c.seen == y.store && Enabled(c.seen, c.event)
             && y.tasks[ids[before[job].task]].state == before[job].task.State()
    ensures
      var c := gw.log[calls];
      var p := SettleCall(g, job, c.event.at, c.fate);
      && Can(y, p) && EventOf(y, p) == Some(c.event) && FateOf(p) == c.fate
      && Shows(Next(y, p), g, gw.active, ids, gw.config) && Next(y, p).gateways[g].held == None
      && TableAfter(y.store, c, Next(y, p).store) && Next(y, p).tasks == y.tasks
  {
    hide Apply, Enabled, Reports, Verdict, Hits;
    ReportsVerdict(gw.log[calls].event.op, job, before[job].attempt, before[job].task.State(), gw.config);
  }

  /** Renewing a lease. A refusal drops the entry and fails its task. */
  lemma RenewIsAStep(gw: JobGateway, y: System, g: GatewayId, ids: map<T.Task, TaskId>, before: Entries, job: JobId,
                     calls: nat, began: T.Time, raised: bool)
    requires job in before && gw.Extended(before, job, calls, began, raised)
    requires Shows(y, g, before, ids, gw.config) && y.gateways[g].held == None
    requires var c := gw.log[calls]; c.seen == y.store && Enabled(c.seen, c.event)
    ensures
      var c := gw.log[calls];
      var p := RenewCall(g, job, c.event.at, c.fate, gw.mono);
      && Can(y, p) && EventOf(y, p) == Some(c.event) && FateOf(p) == c.fate
      && Shows(Next(y, p), g, gw.active, ids, gw.config) && Next(y, p).gateways[g].held == None
      && TableAfter(y.store, c, Next(y, p).store)
      && var t := ids[before[job].task];
      && Next(y, p).tasks ==
         if c.Refused() && !y.tasks[t].state.Terminal() then
           y.tasks[t := y.tasks[t].(state := y.tasks[t].state.(
             status := T.Failed, error := Some("execution lease lost"), errorCode := Some("lease_lost"),
             endTime := Some(gw.mono)))]
         else y.tasks
  {
    hide Apply, Enabled, Hits;
    var t := ids[before[job].task];
    assert y.tasks[t := y.tasks[t].(state := y.tasks[t].state)] == y.tasks;
  }

  /** Claiming a row. */
  lemma ClaimIsAStep(gw: JobGateway, y: System, g: GatewayId, ids: map<T.Task, TaskId>, before: Entries,
                     wanted: Option<JobId>, claimed: Option<Claimed>, calls: nat, queued: seq<T.Task>,
                     waiting: seq<T.Task>, began: T.Time, wallClock: T.Time, raised: bool)
    requires gw.ClaimMade(wanted, claimed, before, calls, queued, waiting, began, wallClock, raised)
    requires Shows(y, g, before, ids, gw.config) && y.gateways[g].held == None && |before| < gw.config.maxInflight
    requires var c := gw.log[calls];
             && c.seen == y.store && Enabled(c.seen, c.event) && Honest(c.event.op, c.about, gw.config)
    ensures
      var c := gw.log[calls];
      var p := ClaimCall(g, c.event.at, wanted, c.event.op.attempt, c.event.op.locked, c.fate);
      && Can(y, p) && EventOf(y, p) == Some(c.event) && FateOf(p) == c.fate
      && Shows(Next(y, p), g, before, ids, gw.config) && Next(y, p).gateways[g].held == claimed
      && TableAfter(y.store, c, Next(y, p).store) && Next(y, p).tasks == y.tasks
  {
    hide Apply, Enabled, Hits, Chosen, JobGateway.Answers;
    assert y.gateways[g].active.Keys == before.Keys;
    SameSize(y.gateways[g].active, before);
  }

  lemma SameSize(a: map<JobId, Slot<TaskId>>, b: Entries)
    requires a.Keys == b.Keys
    ensures |a| == |b|
  {
    assert |a| == |a.Keys| && |b| == |b.Keys|;
  }

  /** Entering a task for a claimed row. */
  lemma AdmitIsAStep(gw: JobGateway, y: System, g: GatewayId, ids: map<T.Task, TaskId>, before: Entries,
                     claimed: Claimed, attempt: AttemptId, queued: seq<T.Task>, began: T.Time, wallClock: T.Time,
                     id: TaskId)
    requires gw.Entered(before, claimed, attempt, queued, began, wallClock)
    requires gw.config.sha256(claimed.row.spec) == claimed.row.specSha && claimed.row.attemptId == Some(attempt)
    requires Shows(y, g, before, ids, gw.config) && y.gateways[g].held == Some(claimed)
    requires id !in y.tasks && gw.active[claimed.job].task !in ids
    ensures
      var entry := gw.active[claimed.job];
      var p := Admit(g, id, entry.task.deadline, entry.renewed);
      && Can(y, p) && EventOf(y, p) == None
      && Shows(Next(y, p), g, gw.active, ids[entry.task := id], gw.config) && Next(y, p).gateways[g].held == None
      && Next(y, p).store == y.store
      && Next(y, p).tasks == y.tasks[id := TaskRecord(claimed.job, attempt,
           T.TaskState(T.Pending, None, None, None, None, None, entry.task.deadline, 0))]
  {
  }

  /** Writing a claimed row back at once. */
  lemma RefuseIsAStep(gw: JobGateway, y: System, g: GatewayId, ids: map<T.Task, TaskId>, before: Entries,
                      claimed: Claimed, attempt: AttemptId, call: Call)
    requires WritesBack(call.event.op, claimed, attempt, gw.config) && claimed.row.attemptId == Some(attempt)
    requires Shows(y, g, before, ids, gw.config) && y.gateways[g].held == Some(claimed)
    requires call.seen == y.store && Enabled(call.seen, call.event)
    ensures
      var p := RefuseCall(g, call.event.at, call.fate);
      && Can(y, p) && EventOf(y, p) == Some(call.event) && FateOf(p) == call.fate
      && Shows(Next(y, p), g, before, ids, gw.config) && Next(y, p).gateways[g].held == None
      && TableAfter(y.store, call, Next(y, p).store) && Next(y, p).tasks == y.tasks
  {
    hide Apply, Enabled, Hits;
    RefusalWritesBack(claimed, attempt, gw.config);
  }
}
