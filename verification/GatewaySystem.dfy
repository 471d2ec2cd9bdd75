/** Any number of job gateways (system/job_gateway.py) sharing one job table, with a table connection
    that may fail before or after a statement takes effect, tasks that finish at any moment, and
    gateways that crash. One step is one store call or one update of in-memory state. */
module GatewaySystem {
  import opened Wrappers
  import opened JobLease
  import opened JobLeaseRuns
  import T = Tasks

  type TaskId = nat
  type GatewayId = nat

  const RETRYABLE_ERRORS: set<string> := {
    "overloaded", "worker_busy", "already_running", "transport_error",
    "in_progress", "storage_unavailable", "socket_unavailable",
    "storage_error", "worker_unavailable", "worker_error"
  }

  const INVALID_SPEC := Error("invalid_spec", "spec fingerprint mismatch")
  const OVERLOADED := Error("overloaded", "task queue is full")

  datatype Config = Config(
    leaseSeconds: int, renewInterval: int, retrySeconds: int, maxInflight: nat, sha256: Json -> string)

  /** The settings the constructor accepts. */
  predicate ConfigOk(c: Config) {
    c.leaseSeconds > 0 && 0 <= c.renewInterval < c.leaseSeconds && c.maxInflight >= 1 && c.retrySeconds > 0
  }

  /** One entry of _active. */
  datatype Slot<X> = Slot(task: X, attempt: AttemptId, renewed: T.Time)

  /** How a store call ends: it raises with no effect, raises after its effect, or returns. */
  datatype Fate = Lost | Unheard | Answered

  function OrElse(text: Option<string>, default: string): string {
    if text.Some? && text.value != "" then text.value else default
  }

  function TaskError(s: T.TaskState): Error {
    Error(OrElse(s.errorCode, "worker_error"), OrElse(s.error, "inference failed"))
  }

  /** What poll writes for a finished task. */
  function Verdict(job: JobId, attempt: AttemptId, s: T.TaskState, c: Config): Op
    requires s.Terminal()
  {
    if s.status == T.Done then CompleteJob(job, attempt, s.result, None)
    else if TaskError(s).code in RETRYABLE_ERRORS then DeferJob(job, attempt, Some(TaskError(s)), c.retrySeconds)
    else CompleteJob(job, attempt, None, Some(TaskError(s)))
  }

  /** The codes a job is tried again after. */
  predicate Passing(code: string) {
    || code == "overloaded" || code == "worker_busy" || code == "already_running" || code == "transport_error"
    || code == "in_progress" || code == "storage_unavailable" || code == "socket_unavailable"
    || code == "storage_error" || code == "worker_unavailable" || code == "worker_error"
  }

  /** The answer to a finished task, by its columns: the result of a task that is done; a failure is put
      off exactly when its code is listed, and is the job's own failure otherwise. */
  predicate Reports(op: Op, job: JobId, attempt: AttemptId, s: T.TaskState, retrySeconds: int) {
    if s.status == T.Done then op == CompleteJob(job, attempt, s.result, None)
    else
      var code := if s.errorCode.Some? && s.errorCode.value != "" then s.errorCode.value else "worker_error";
      var message := if s.error.Some? && s.error.value != "" then s.error.value else "inference failed";
      op == if Passing(code) then DeferJob(job, attempt, Some(Error(code, message)), retrySeconds)
            else CompleteJob(job, attempt, None, Some(Error(code, message)))
  }

  lemma VerdictReports(job: JobId, attempt: AttemptId, s: T.TaskState, c: Config)
    requires s.Terminal()
    ensures Reports(Verdict(job, attempt, s, c), job, attempt, s, c.retrySeconds)
    ensures s.status == T.Done || s.status == T.Failed
  {
    assert Passing(TaskError(s).code) <==> TaskError(s).code in RETRYABLE_ERRORS;
  }

  /** What _enqueue writes when it does not create a task. */
  function Refusal(claimed: Claimed, attempt: AttemptId, c: Config): Op {
    if c.sha256(claimed.row.spec) != claimed.row.specSha
    then CompleteJob(claimed.job, attempt, None, Some(INVALID_SPEC))
    else DeferJob(claimed.job, attempt, Some(OVERLOADED), c.retrySeconds)
  }

  /** The answer to a claimed row that makes no task, in words. */
  predicate WritesBack(op: Op, claimed: Claimed, attempt: AttemptId, c: Config) {
    op == if c.sha256(claimed.row.spec) == claimed.row.specSha
          then DeferJob(claimed.job, attempt, Some(Error("overloaded", "task queue is full")), c.retrySeconds)
          else CompleteJob(claimed.job, attempt, None, Some(Error("invalid_spec", "spec fingerprint mismatch")))
  }

  lemma RefusalWritesBack(claimed: Claimed, attempt: AttemptId, c: Config)
    ensures WritesBack(Refusal(claimed, attempt, c), claimed, attempt, c)
  {
  }

  // ---------------------------------------------------------------------------------------------
  // The system
  // ---------------------------------------------------------------------------------------------

  datatype TaskRecord = TaskRecord(job: JobId, attempt: AttemptId, state: T.TaskState)

  datatype Gateway = Gateway(config: Config, active: map<JobId, Slot<TaskId>>, held: Option<Claimed>)

  datatype System = System(store: Store, tasks: map<TaskId, TaskRecord>, gateways: map<GatewayId, Gateway>)

  datatype Step =
    | Backend(event: Event)
    | TaskUpdate(task: TaskId, op: T.TaskOp)
    | ClaimCall(gw: GatewayId, at: Time, wanted: Option<JobId>, attempt: AttemptId, locked: set<JobId>, fate: Fate)
    | Admit(gw: GatewayId, task: TaskId, deadline: Option<T.Time>, renewed: T.Time)
    | RefuseCall(gw: GatewayId, at: Time, fate: Fate)
    | SettleCall(gw: GatewayId, job: JobId, at: Time, fate: Fate)
    | RenewCall(gw: GatewayId, job: JobId, at: Time, fate: Fate, mono: T.Time)
    | Crash(gw: GatewayId)

  /** The store event a step carries, if any. */
  function EventOf(y: System, p: Step): Option<Event> {
    match p
    case Backend(e) => Some(e)
    case ClaimCall(g, at, wanted, a, locked, _) =>
      if g in y.gateways then Some(Event(at, ClaimJob(wanted, a, y.gateways[g].config.leaseSeconds, locked))) else None
    case RefuseCall(g, at, _) =>
      if g in y.gateways && y.gateways[g].held.Some? && y.gateways[g].held.value.row.attemptId.Some? then
        var h := y.gateways[g].held.value;
        Some(Event(at, Refusal(h, h.row.attemptId.value, y.gateways[g].config)))
      else None
    case SettleCall(g, j, at, _) =>
      if g in y.gateways && j in y.gateways[g].active && y.gateways[g].active[j].task in y.tasks
         && y.tasks[y.gateways[g].active[j].task].state.Terminal() then
        var s := y.gateways[g].active[j];
        Some(Event(at, Verdict(j, s.attempt, y.tasks[s.task].state, y.gateways[g].config)))
      else None
    case RenewCall(g, j, at, _, _) =>
      if g in y.gateways && j in y.gateways[g].active then
        Some(Event(at, RenewLease(j, y.gateways[g].active[j].attempt, y.gateways[g].config.leaseSeconds)))
      else None
    case _ => None
  }

  function FateOf(p: Step): Fate {
    match p
    case ClaimCall(_, _, _, _, _, f) => f
    case RefuseCall(_, _, f) => f
    case SettleCall(_, _, _, f) => f
    case RenewCall(_, _, _, f, _) => f
    case _ => Answered
  }

  ghost predicate Can(y: System, p: Step) {
    && (EventOf(y, p).Some? ==> Enabled(y.store, EventOf(y, p).value))
    && match p
       case Backend(e) => e.op.InsertJob? || e.op.ExpireJobs?
       case TaskUpdate(t, _) => t in y.tasks
       case ClaimCall(g, _, _, _, _, _) =>
         g in y.gateways && y.gateways[g].held == None && |y.gateways[g].active| < y.gateways[g].config.maxInflight
       case Admit(g, t, _, _) =>
         && g in y.gateways && t !in y.tasks
         && y.gateways[g].held.Some? && y.gateways[g].held.value.row.attemptId.Some?
         && y.gateways[g].config.sha256(y.gateways[g].held.value.row.spec) == y.gateways[g].held.value.row.specSha
       case RefuseCall(_, _, _) => EventOf(y, p).Some?
       case SettleCall(g, _, _, _) => EventOf(y, p).Some? && y.gateways[g].held == None
       case RenewCall(g, j, _, _, _) =>
         EventOf(y, p).Some? && y.gateways[g].held == None && y.gateways[g].active[j].task in y.tasks
       case Crash(g) => g in y.gateways
  }

  /** The table after a store call. */
  ghost function StoreAfter(y: System, p: Step): Store {
    if EventOf(y, p).None? || FateOf(p) == Lost then y.store else Apply(y.store, EventOf(y, p).value)
  }

  ghost predicate Succeeds(y: System, p: Step) {
    EventOf(y, p).Some? && FateOf(p) == Answered && Hits(y.store, EventOf(y, p).value)
  }

  ghost function GatewayAfter(y: System, p: Step, g: GatewayId): Gateway
    requires g in y.gateways && Can(y, p)
  {
    var w := y.gateways[g];
    match p
    case ClaimCall(h, _, _, _, _, _) =>
      if h == g && Succeeds(y, p) then
        var e := EventOf(y, p).value;
        var j := Chosen(y.store.rows, e.at, e.op.wanted, e.op.locked).value;
        if j in Apply(y.store, e).rows then w.(held := Some(Claimed(j, Apply(y.store, e).rows[j]))) else w
      else w
    case Admit(h, t, _, renewed) =>
      if h != g then w else
      w.(held := None, active := w.active[w.held.value.job := Slot(t, w.held.value.row.attemptId.value, renewed)])
    case RefuseCall(h, _, _) => if h == g then w.(held := None) else w
    case SettleCall(h, j, _, fate) => if h == g && fate == Answered then w.(active := w.active - {j}) else w
    case RenewCall(h, j, _, fate, mono) =>
      if h != g || fate != Answered then w
      else if Succeeds(y, p) then w.(active := w.active[j := w.active[j].(renewed := mono)])
      else w.(active := w.active - {j})
    case Crash(h) => if h == g then w.(active := map[], held := None) else w
    case _ => w
  }

  const LEASE_LOST := ("execution lease lost", "lease_lost")

  ghost function TasksAfter(y: System, p: Step): map<TaskId, TaskRecord>
    requires Can(y, p)
  {
    match p
    case TaskUpdate(t, op) => y.tasks[t := y.tasks[t].(state := T.Move(y.tasks[t].state, op))]
    case Admit(g, t, deadline, _) =>
      var h := y.gateways[g].held.value;
      y.tasks[t := TaskRecord(h.job, h.row.attemptId.value, T.Fresh(deadline))]
    case RenewCall(g, j, _, Answered, mono) =>
      if Succeeds(y, p) then y.tasks else
      var t := y.gateways[g].active[j].task;
      y.tasks[t := y.tasks[t].(state := T.Move(y.tasks[t].state, T.Fail(mono, LEASE_LOST.0, Some(LEASE_LOST.1))))]
    case _ => y.tasks
  }

  ghost function Next(y: System, p: Step): System
    requires Can(y, p)
  {
    System(StoreAfter(y, p), TasksAfter(y, p), map g | g in y.gateways :: GatewayAfter(y, p, g))
  }

  ghost predicate Follows(y: System, p: Step, z: System) {
    Can(y, p) && z == Next(y, p)
  }

  /** A run: states[0] is the start, and step n leads from states[n] to states[n + 1]. */
  ghost predicate IsRun(states: seq<System>, steps: seq<Step>) {
    && |states| == |steps| + 1
    && forall n | 0 <= n < |steps| :: Follows(states[n], steps[n], states[n + 1])
  }

  /** No job, no task, nothing in flight. */
  ghost predicate Start(y: System) {
    && y.store.rows == map[] && y.store.issued == {} && y.store.claims == [] && y.store.completions == []
    && y.tasks == map[]
    && forall g | g in y.gateways ::
         y.gateways[g].active == map[] && y.gateways[g].held == None && ConfigOk(y.gateways[g].config)
  }

  // ---------------------------------------------------------------------------------------------
  // Invariant
  // ---------------------------------------------------------------------------------------------

  /** An attempt was claimed for the job. */
  ghost predicate ClaimedFor(s: Store, j: JobId, a: AttemptId) {
    a in s.issued && a in AttemptsOf(s.claims, j)
  }

  ghost predicate TasksOk(y: System) {
    && (forall t | t in y.tasks :: ClaimedFor(y.store, y.tasks[t].job, y.tasks[t].attempt))
    && Distinct(y.tasks)
  }

  /** No two tasks share an attempt. */
  ghost predicate Distinct(tasks: map<TaskId, TaskRecord>) {
    forall t, u | t in tasks && u in tasks && tasks[t].attempt == tasks[u].attempt :: t == u
  }

  ghost predicate HeldOk(y: System, g: GatewayId)
    requires g in y.gateways
  {
    y.gateways[g].held.Some? ==>
      var h := y.gateways[g].held.value;
      && h.row.attemptId.Some?
      && ClaimedFor(y.store, h.job, h.row.attemptId.value)
      && (forall t | t in y.tasks :: y.tasks[t].attempt != h.row.attemptId.value)
      && (forall k | k in y.gateways && k != g && y.gateways[k].held.Some? ::
            y.gateways[k].held.value.row.attemptId != h.row.attemptId)
  }

  ghost predicate ActiveOk(y: System, g: GatewayId)
    requires g in y.gateways
  {
    forall j | j in y.gateways[g].active ::
      var s := y.gateways[g].active[j];
      s.task in y.tasks && y.tasks[s.task].job == j && y.tasks[s.task].attempt == s.attempt
  }

  /** A finished task whose outcome this completion is. */
  predicate Produced(r: TaskRecord, c: Completion) {
    && r.job == c.job && r.attempt == c.attempt && r.state.Terminal()
    && (c.error == None <==> r.state.status == T.Done)
    && (c.error == None ==> c.result == r.state.result)
    && (c.error.Some? ==> c.result == None && c.error == Some(TaskError(r.state)))
  }

  ghost predicate Genuine(y: System, c: Completion) {
    || (c.error == Some(INVALID_SPEC) && c.result == None)
    || exists t :: t in y.tasks && Produced(y.tasks[t], c)
  }

  ghost predicate SysInv(y: System) {
    && Inv(y.store) && AttemptsCounted(y.store)
    && TasksOk(y)
    && (forall g | g in y.gateways :: HeldOk(y, g) && ActiveOk(y, g))
    && (forall c | c in y.store.completions :: Genuine(y, c))
  }

  /** The error of a failed row has no listed code; one on a row that is still to be tried has one. */
  ghost predicate Coded(r: Row) {
    && (r.status == Failed ==> r.error.Some? && !Passing(r.error.value.code))
    && (r.status != Failed && r.error.Some? ==> Passing(r.error.value.code))
  }

  ghost predicate AllCoded(rows: map<JobId, Row>) {
    forall j | j in rows :: Coded(rows[j])
  }

  /** The statements a gateway sends: errors by code, a result without an error. */
  predicate CodedOp(op: Op) {
    && (op.CompleteJob? && op.error.Some? ==> !Passing(op.error.value.code))
    && (op.DeferJob? && op.error.Some? ==> Passing(op.error.value.code))
    && (op.InsertJob? ==> NewRow(op.row))
  }

  lemma StepCoded(y: System, p: Step)
    requires Can(y, p) && EventOf(y, p).Some?
    ensures CodedOp(EventOf(y, p).value.op)
  {
    hide Passing, Apply, Hits, T.Move;
    assert !Passing("invalid_spec") && Passing("overloaded") by { PassingCodes(); }
    match p
    case RefuseCall(g, _, _) =>
    case SettleCall(g, j, _, _) =>
      var s := y.gateways[g].active[j];
      VerdictReports(j, s.attempt, y.tasks[s.task].state, y.gateways[g].config);
    case _ =>
  }

  lemma PassingCodes()
    ensures !Passing("invalid_spec") && !Passing("deadline_exceeded") && Passing("overloaded")
  {
  }

  lemma ApplyCoded(s: Store, e: Event)
    requires AllCoded(s.rows) && CodedOp(e.op) && Enabled(s, e)
    ensures AllCoded(Apply(s, e).rows)
  {
    hide Passing, Row.HeldBy, Row.Expired, Before;
    PassingCodes();
  }

  /** In every run, a job that failed did so for a cause that trying again would not mend, and an error kept
      on a job that is not finished has one of the listed codes. */
  lemma {:induction false} ErrorsByCode(states: seq<System>, steps: seq<Step>, n: nat)
    requires IsRun(states, steps) && Start(states[0]) && n < |states|
    ensures AllCoded(states[n].store.rows)
    decreases n
  {
    hide AllCoded, Apply, Can, CodedOp;
    if n == 0 {
      assert AllCoded(map[]) by { NoRowsCoded(); }
    } else {
      ErrorsByCode(states, steps, n - 1);
      var y, p := states[n - 1], steps[n - 1];
      assert Follows(y, p, states[n]);
      CodedStep(y, p);
    }
  }

  lemma NoRowsCoded()
    ensures AllCoded(map[])
  {
  }

  lemma CodedStep(y: System, p: Step)
    requires Can(y, p) && AllCoded(y.store.rows)
    ensures AllCoded(Next(y, p).store.rows)
  {
    hide AllCoded, Apply, CodedOp;
    if EventOf(y, p).Some? {
      StepCoded(y, p);
      ApplyCoded(y.store, EventOf(y, p).value);
    }
  }

  lemma StartInv(y: System)
    requires Start(y)
    ensures SysInv(y)
  {
  }

  lemma StorePart(y: System, p: Step)
    requires Inv(y.store) && AttemptsCounted(y.store) && Can(y, p)
    ensures Inv(Next(y, p).store) && AttemptsCounted(Next(y, p).store)
    ensures y.store.issued <= Next(y, p).store.issued
    ensures forall j, a :: ClaimedFor(y.store, j, a) ==> ClaimedFor(Next(y, p).store, j, a)
  {
    if EventOf(y, p).Some? {
      InvStep(y.store, EventOf(y, p).value);
      AttemptsCountedStep(y.store, EventOf(y, p).value);
      ClaimsGrow(y.store, EventOf(y, p).value);
    }
  }

  lemma ClaimsGrow(s: Store, e: Event)
    ensures s.claims <= Apply(s, e).claims && s.issued <= Apply(s, e).issued
    ensures forall j, a :: ClaimedFor(s, j, a) ==> ClaimedFor(Apply(s, e), j, a)
  {
    var t := Apply(s, e);
    forall j, a | ClaimedFor(s, j, a) ensures ClaimedFor(t, j, a) {
      var c :| c in s.claims && c.job == j && c.attempt == a;
      assert c in t.claims;
    }
  }

  /** Records only ever move forward, and a terminal state stays. */
  lemma TaskFrame(y: System, p: Step)
    requires Can(y, p)
    ensures
      var after := TasksAfter(y, p);
      && after.Keys == y.tasks.Keys + (if p.Admit? then {p.task} else {})
      && (forall t | t in y.tasks ::
            && after[t].job == y.tasks[t].job && after[t].attempt == y.tasks[t].attempt
            && (y.tasks[t].state.Terminal() ==> after[t] == y.tasks[t]))
      && (p.Admit? ==>
            var h := y.gateways[p.gw].held.value;
            after[p.task].job == h.job && after[p.task].attempt == h.row.attemptId.value)
  {
  }

  lemma DistinctAfter(before: map<TaskId, TaskRecord>, after: map<TaskId, TaskRecord>, added: set<TaskId>)
    requires Distinct(before) && after.Keys == before.Keys + added
    requires forall t | t in before :: after[t].attempt == before[t].attempt
    requires forall t, u | t in added && u in added :: t == u
    requires forall t, u | t in added && u in before :: t in before || after[t].attempt != before[u].attempt
    ensures Distinct(after)
  {
    forall t, u | t in after && u in after && after[t].attempt == after[u].attempt ensures t == u {
      if t in before && u in before {
        assert before[t].attempt == before[u].attempt;
      }
    }
  }

  lemma TasksDistinct(y: System, p: Step)
    requires SysInv(y) && Can(y, p)
    ensures Distinct(TasksAfter(y, p))
  {
    assert Distinct(y.tasks);
    TaskFrame(y, p);
    if p.Admit? {
      AdmitsAnother(y, p);
      hide *;
      DistinctAfter(y.tasks, TasksAfter(y, p), {p.task});
    } else {
      hide *;
      DistinctAfter(y.tasks, TasksAfter(y, p), {});
    }
  }

  /** An admitted claim has an attempt that no task has yet. */
  lemma AdmitsAnother(y: System, p: Step)
    requires SysInv(y) && Can(y, p) && p.Admit?
    ensures p.task in y.tasks || forall u | u in y.tasks :: TasksAfter(y, p)[p.task].attempt != y.tasks[u].attempt
  {
    hide ActiveOk, Genuine, Inv;
    assert HeldOk(y, p.gw);
  }

  lemma TaskClaimed(y: System, p: Step, t: TaskId)
    requires SysInv(y) && Can(y, p) && t in TasksAfter(y, p)
    ensures ClaimedFor(StoreAfter(y, p), TasksAfter(y, p)[t].job, TasksAfter(y, p)[t].attempt)
  {
    StorePart(y, p);
    TaskFrame(y, p);
    if t in y.tasks {
      assert ClaimedFor(y.store, y.tasks[t].job, y.tasks[t].attempt);
    } else {
      assert HeldOk(y, p.gw);
    }
  }

  lemma TasksPart(y: System, p: Step)
    requires SysInv(y) && Can(y, p)
    ensures TasksOk(Next(y, p))
  {
    TasksDistinct(y, p);
    forall t | t in TasksAfter(y, p)
      ensures ClaimedFor(StoreAfter(y, p), TasksAfter(y, p)[t].job, TasksAfter(y, p)[t].attempt)
    {
      TaskClaimed(y, p, t);
    }
  }

  lemma HeldFrame(y: System, p: Step, g: GatewayId)
    requires Can(y, p) && g in y.gateways
    ensures
      var h := GatewayAfter(y, p, g).held;
      || h == y.gateways[g].held || h == None
      || (p.ClaimCall? && p.gw == g && Succeeds(y, p))
    ensures p.Admit? && p.gw == g ==> GatewayAfter(y, p, g).held == None
  {
  }

  lemma ClaimGives(y: System, p: Step)
    requires Inv(y.store) && Can(y, p) && p.ClaimCall? && Succeeds(y, p)
    ensures
      var h := GatewayAfter(y, p, p.gw).held;
      h.Some? && h.value.row.attemptId == Some(p.attempt) && ClaimedFor(Next(y, p).store, h.value.job, p.attempt)
  {
    var e := EventOf(y, p).value;
    var j := Chosen(y.store.rows, e.at, e.op.wanted, e.op.locked).value;
    assert Claim(j, p.attempt, e.at) in Apply(y.store, e).claims;
  }

  /** A new attempt id is unlike any attempt of a task or of a claimed row. */
  lemma NewAttempt(y: System, p: Step, g: GatewayId)
    requires SysInv(y) && Can(y, p) && p.ClaimCall? && g in y.gateways && y.gateways[g].held.Some?
    ensures y.gateways[g].held.value.row.attemptId != Some(p.attempt)
  {
    assert HeldOk(y, g);
  }

  lemma HeldPart(y: System, p: Step, g: GatewayId)
    requires SysInv(y) && Can(y, p) && g in y.gateways
    ensures HeldOk(Next(y, p), g)
  {
    var z := Next(y, p);
    StorePart(y, p);
    TaskFrame(y, p);
    HeldFrame(y, p, g);
    if z.gateways[g].held.Some? {
      var a := z.gateways[g].held.value.row.attemptId;
      if z.gateways[g].held == y.gateways[g].held {
        HeldKept(y, p, g);
      } else {
        ClaimGives(y, p);
        forall k | k in z.gateways && k != g && z.gateways[k].held.Some?
          ensures z.gateways[k].held.value.row.attemptId != a
        {
          HeldFrame(y, p, k);
          NewAttempt(y, p, k);
        }
      }
    }
  }

  lemma HeldKept(y: System, p: Step, g: GatewayId)
    requires SysInv(y) && Can(y, p) && g in y.gateways
    requires y.gateways[g].held.Some? && Next(y, p).gateways[g].held == y.gateways[g].held
    ensures HeldOk(Next(y, p), g)
  {
    var z := Next(y, p);
    var h := y.gateways[g].held.value;
    StorePart(y, p);
    TaskFrame(y, p);
    HeldFrame(y, p, g);
    assert HeldOk(y, g);
    forall t | t in z.tasks ensures z.tasks[t].attempt != h.row.attemptId.value {
      if t !in y.tasks {
        assert HeldOk(y, p.gw);
      }
    }
    forall k | k in z.gateways && k != g && z.gateways[k].held.Some?
      ensures z.gateways[k].held.value.row.attemptId != h.row.attemptId
    {
      HeldFrame(y, p, k);
      if z.gateways[k].held != y.gateways[k].held {
        ClaimGives(y, p);
        NewAttempt(y, p, g);
      }
    }
  }

  /** Entries of the next state are the old ones, perhaps renewed, or the one being admitted. */
  lemma ActiveFrame(y: System, p: Step, g: GatewayId, j: JobId)
    requires Can(y, p) && g in y.gateways && j in GatewayAfter(y, p, g).active
    ensures
      var s := GatewayAfter(y, p, g).active[j];
      || (j in y.gateways[g].active && y.gateways[g].active[j].task == s.task
             && y.gateways[g].active[j].attempt == s.attempt)
      || (p.Admit? && p.gw == g && s.task == p.task && y.gateways[g].held.value.job == j
          && y.gateways[g].held.value.row.attemptId == Some(s.attempt))
  {
  }

  lemma ActivePart(y: System, p: Step, g: GatewayId)
    requires SysInv(y) && Can(y, p) && g in y.gateways
    ensures ActiveOk(Next(y, p), g)
  {
    TaskFrame(y, p);
    assert ActiveOk(y, g);
    var after := TasksAfter(y, p);
    var w := GatewayAfter(y, p, g);
    forall j | j in w.active
      ensures w.active[j].task in after && after[w.active[j].task].job == j
              && after[w.active[j].task].attempt == w.active[j].attempt
    {
      ActiveFrame(y, p, g, j);
    }
  }

  /** A completion is appended only by settling an entry or by refusing a claimed row. */
  lemma CompletionSource(y: System, p: Step, c: Completion)
    requires Can(y, p) && c in Next(y, p).store.completions && c !in y.store.completions
    ensures EventOf(y, p).Some?
    ensures
      var op := EventOf(y, p).value.op;
      && op.CompleteJob? && c == Completion(op.job, op.attempt, op.result, op.error)
      && (p.SettleCall? || p.RefuseCall?)
  {
  }

  lemma SettledIsProduced(y: System, p: Step, c: Completion)
    requires SysInv(y) && Can(y, p) && p.SettleCall? && EventOf(y, p).value.op.CompleteJob?
    requires
      var op := EventOf(y, p).value.op;
      c == Completion(op.job, op.attempt, op.result, op.error)
    ensures Produced(y.tasks[y.gateways[p.gw].active[p.job].task], c)
  {
    assert ActiveOk(y, p.gw);
  }

  lemma GenuineStays(y: System, p: Step, c: Completion, t: TaskId)
    requires Can(y, p) && t in y.tasks && Produced(y.tasks[t], c)
    ensures Genuine(Next(y, p), c)
  {
    TaskFrame(y, p);
    assert t in Next(y, p).tasks && Produced(Next(y, p).tasks[t], c);
  }

  lemma GenuinePart(y: System, p: Step, c: Completion)
    requires SysInv(y) && Can(y, p) && c in Next(y, p).store.completions
    ensures Genuine(Next(y, p), c)
  {
    if c in y.store.completions {
      assert Genuine(y, c);
      if t :| t in y.tasks && Produced(y.tasks[t], c) {
        GenuineStays(y, p, c, t);
      }
    } else {
      CompletionSource(y, p, c);
      if p.SettleCall? {
        SettledIsProduced(y, p, c);
        GenuineStays(y, p, c, y.gateways[p.gw].active[p.job].task);
      }
    }
  }

  lemma SysInvStep(y: System, p: Step)
    requires SysInv(y) && Can(y, p)
    ensures SysInv(Next(y, p))
  {
    StorePart(y, p);
    TasksPart(y, p);
    forall g | g in Next(y, p).gateways ensures HeldOk(Next(y, p), g) && ActiveOk(Next(y, p), g) {
      HeldPart(y, p, g);
      ActivePart(y, p, g);
    }
    forall c | c in Next(y, p).store.completions ensures Genuine(Next(y, p), c) {
      GenuinePart(y, p, c);
    }
  }

  lemma {:induction false} SysInvAt(states: seq<System>, steps: seq<Step>, n: nat)
    requires IsRun(states, steps) && Start(states[0]) && n < |states|
    ensures SysInv(states[n])
    decreases n
  {
    if n == 0 {
      StartInv(states[0]);
    } else {
      SysInvAt(states, steps, n - 1);
      assert Follows(states[n - 1], steps[n - 1], states[n]);
      SysInvStep(states[n - 1], steps[n - 1]);
    }
  }

  // ---------------------------------------------------------------------------------------------
  // Attribution
  // ---------------------------------------------------------------------------------------------

  /** In every reachable state a succeeded row holds the value produced by the one task that was
      created for the attempt the row names, and that task is done. */
  lemma ResultAttribution(states: seq<System>, steps: seq<Step>, n: nat, j: JobId)
    requires IsRun(states, steps) && Start(states[0]) && n < |states|
    requires j in states[n].store.rows && states[n].store.rows[j].status == Succeeded
    ensures
      var y := states[n];
      var r := y.store.rows[j];
      && r.attemptId.Some?
      && (exists t :: t in y.tasks && y.tasks[t].attempt == r.attemptId.value && y.tasks[t].job == j)
      && (forall t | t in y.tasks && y.tasks[t].attempt == r.attemptId.value ::
            y.tasks[t].job == j && y.tasks[t].state.status == T.Done && y.tasks[t].state.result == r.result)
  {
    SysInvAt(states, steps, n);
    var y := states[n];
    var r := y.store.rows[j];
    assert Recorded(y.store, j);
    var c := Completion(j, r.attemptId.value, r.result, None);
    assert Genuine(y, c);
    var t :| t in y.tasks && Produced(y.tasks[t], c);
  }

  /** At most one outcome is ever recorded for a job, whatever calls raise after committing. */
  lemma WrittenAtMostOnce(states: seq<System>, steps: seq<Step>, n: nat, j: JobId)
    requires IsRun(states, steps) && Start(states[0]) && n < |states|
    ensures |set i | 0 <= i < |states[n].store.completions| && states[n].store.completions[i].job == j| <= 1
  {
    SysInvAt(states, steps, n);
    var s := set i | 0 <= i < |states[n].store.completions| && states[n].store.completions[i].job == j;
    if i :| i in s {
      assert s == {i};
    }
  }

  lemma {:induction false} InjectionSize(ts: set<TaskId>, f: map<TaskId, AttemptId>, image: set<AttemptId>)
    requires ts <= f.Keys
    requires forall t | t in ts :: f[t] in image
    requires forall t, u | t in ts && u in ts && f[t] == f[u] :: t == u
    ensures |ts| <= |image|
    decreases |ts|
  {
    if t :| t in ts {
      InjectionSize(ts - {t}, f, image - {f[t]});
    }
  }

  ghost function TasksOf(y: System, j: JobId): set<TaskId> {
    set t | t in y.tasks && y.tasks[t].job == j
  }

  /** A job never has more tasks, over all gateways and restarts, than attempts counted in its row. */
  lemma TasksWithinAttempts(states: seq<System>, steps: seq<Step>, n: nat, j: JobId)
    requires IsRun(states, steps) && Start(states[0]) && n < |states| && j in states[n].store.rows
    ensures |TasksOf(states[n], j)| <= states[n].store.rows[j].attempts
  {
    SysInvAt(states, steps, n);
    var y := states[n];
    InjectionSize(TasksOf(y, j), map t | t in y.tasks :: y.tasks[t].attempt, AttemptsOf(y.store.claims, j));
  }

  // ---------------------------------------------------------------------------------------------
  // Finished outcomes stay in _active
  // ---------------------------------------------------------------------------------------------

  /** Gateway g still has exactly this entry. */
  predicate Keeps(y: System, g: GatewayId, j: JobId, s: Slot<TaskId>) {
    g in y.gateways && j in y.gateways[g].active
    && y.gateways[g].active[j].task == s.task && y.gateways[g].active[j].attempt == s.attempt
  }

  /** A store call for the entry returned: a complete or defer, or a refused renewal. */
  ghost predicate Disposes(y: System, p: Step, g: GatewayId, j: JobId) {
    || (p.SettleCall? && p.gw == g && p.job == j && p.fate == Answered)
    || (p.RenewCall? && p.gw == g && p.job == j && p.fate == Answered && !Succeeds(y, p))
  }

  /** A claimed row waits only in a gateway with a free place. */
  ghost predicate RoomForHeld(y: System, g: GatewayId)
    requires g in y.gateways
  {
    && (y.gateways[g].held.Some? ==> |y.gateways[g].active| < y.gateways[g].config.maxInflight)
    && |y.gateways[g].active| <= y.gateways[g].config.maxInflight
  }

  lemma RoomStep(y: System, p: Step, g: GatewayId)
    requires Can(y, p) && g in y.gateways && RoomForHeld(y, g)
    ensures RoomForHeld(Next(y, p), g)
  {
    var w, w' := y.gateways[g], Next(y, p).gateways[g];
    match p
    case Admit(h, _, _, _) =>
      if h == g {
        assert w'.active.Keys == w.active.Keys + {w.held.value.job};
      }
    case SettleCall(h, j, _, _) =>
      assert w'.active.Keys <= w.active.Keys;
      SubsetSize(w'.active.Keys, w.active.Keys);
    case RenewCall(h, j, _, _, _) =>
      assert w'.active.Keys <= w.active.Keys;
      SubsetSize(w'.active.Keys, w.active.Keys);
    case _ =>
  }

  lemma {:induction false} SubsetSize(a: set<JobId>, b: set<JobId>)
    requires a <= b
    ensures |a| <= |b|
    decreases |a|
  {
    if x :| x in a {
      SubsetSize(a - {x}, b - {x});
    }
  }

  /** The number of entries never exceeds max_inflight. */
  lemma {:induction false} RoomAt(states: seq<System>, steps: seq<Step>, n: nat, g: GatewayId)
    requires IsRun(states, steps) && Start(states[0]) && n < |states| && g in states[0].gateways
    ensures g in states[n].gateways && states[n].gateways[g].config == states[0].gateways[g].config
    ensures RoomForHeld(states[n], g)
    decreases n
  {
    if n > 0 {
      RoomAt(states, steps, n - 1, g);
      assert Follows(states[n - 1], steps[n - 1], states[n]);
      RoomStep(states[n - 1], steps[n - 1], g);
    }
  }

  /** One step drops an entry only by disposing of it, by a crash, or by admitting a new claim of the
      same job while the entry is still there. */
  lemma DropStep(y: System, p: Step, g: GatewayId, j: JobId, s: Slot<TaskId>)
    requires Can(y, p) && Keeps(y, g, j, s)
    ensures
      || Keeps(Next(y, p), g, j, s) || Disposes(y, p, g, j) || p == Crash(g)
      || (p.Admit? && p.gw == g && y.gateways[g].held.value.job == j)
  {
  }

  /** The property the gateway promises: an entry disappears only when a store call for it returned. */
  ghost predicate EntriesStay(states: seq<System>, steps: seq<Step>, g: GatewayId)
    requires |states| == |steps| + 1
  {
    forall m, n, j, s | 0 <= m <= n < |states| && Keeps(states[m], g, j, s) && !Keeps(states[n], g, j, s) ::
      exists k | m <= k < n :: Disposes(states[k], steps[k], g, j) || steps[k] == Crash(g)
  }

  lemma LastDrop(y: System, p: Step, g: GatewayId, j: JobId, s: Slot<TaskId>)
    requires Can(y, p) && Keeps(y, g, j, s) && !Keeps(Next(y, p), g, j, s)
    requires RoomForHeld(y, g) && y.gateways[g].config.maxInflight == 1
    ensures Disposes(y, p, g, j) || p == Crash(g)
  {
    DropStep(y, p, g, j, s);
    assert j in y.gateways[g].active.Keys;
    assert |y.gateways[g].active| == |y.gateways[g].active.Keys|;
  }

  lemma {:induction false} EntryStays(states: seq<System>, steps: seq<Step>, g: GatewayId, m: nat, n: nat,
                                      j: JobId, s: Slot<TaskId>) returns (k: nat)
    requires IsRun(states, steps) && Start(states[0]) && m <= n < |states|
    requires g in states[0].gateways && states[0].gateways[g].config.maxInflight == 1
    requires Keeps(states[m], g, j, s) && !Keeps(states[n], g, j, s)
    ensures m <= k < n && (Disposes(states[k], steps[k], g, j) || steps[k] == Crash(g))
    decreases n
  {
    k := n - 1;
    if Keeps(states[k], g, j, s) {
      RoomAt(states, steps, k, g);
      assert Follows(states[k], steps[k], states[n]);
      LastDrop(states[k], steps[k], g, j, s);
    } else {
      k := EntryStays(states, steps, g, m, k, j, s);
    }
  }

  /** With max_inflight = 1 no outcome ever leaves _active before a store call for it returned. */
  lemma OutcomeKept(states: seq<System>, steps: seq<Step>, g: GatewayId)
    requires IsRun(states, steps) && Start(states[0])
    requires g in states[0].gateways && states[0].gateways[g].config.maxInflight == 1
    ensures EntriesStay(states, steps, g)
  {
    forall m, n, j, s | 0 <= m <= n < |states| && Keeps(states[m], g, j, s) && !Keeps(states[n], g, j, s)
      ensures exists k | m <= k < n :: Disposes(states[k], steps[k], g, j) || steps[k] == Crash(g)
    {
      var k := EntryStays(states, steps, g, m, n, j, s);
    }
  }

  lemma LostLeaseAfter(y: System, p: Step, j: JobId, a: AttemptId)
    requires Inv(y.store) && Can(y, p) && LostLease(y.store, j, a)
    ensures LostLease(Next(y, p).store, j, a)
  {
    hide Inv, Apply, LostLease, Hits;
    if EventOf(y, p).Some? {
      LostLeaseStep(y.store, EventOf(y, p).value, j, a);
    }
  }

  lemma {:induction false} StaysLost(states: seq<System>, steps: seq<Step>, m: nat, n: nat, j: JobId, a: AttemptId)
    requires IsRun(states, steps) && Start(states[0]) && m <= n < |states| && LostLease(states[m].store, j, a)
    ensures LostLease(states[n].store, j, a)
    decreases n
  {
    if m < n {
      hide Can, Next, LostLease, SysInv, Start;
      StaysLost(states, steps, m, n - 1, j, a);
      SysInvAt(states, steps, n - 1);
      InvOf(states[n - 1]);
      assert Follows(states[n - 1], steps[n - 1], states[n]);
      LostLeaseAfter(states[n - 1], steps[n - 1], j, a);
    }
  }

  lemma ClaimedRow(y: System, g: GatewayId, j: JobId)
    requires SysInv(y) && g in y.gateways && j in y.gateways[g].active
    ensures j in y.store.rows && y.gateways[g].active[j].attempt in y.store.issued
  {
    assert ActiveOk(y, g);
    var s := y.gateways[g].active[j];
    assert ClaimedFor(y.store, j, s.attempt);
    var c :| c in y.store.claims && c.job == j && c.attempt == s.attempt;
  }

  lemma RefusalLoses(y: System, p: Step)
    requires SysInv(y) && Can(y, p) && p.RenewCall? && p.fate == Answered && !Succeeds(y, p)
    ensures LostLease(Next(y, p).store, p.job, y.gateways[p.gw].active[p.job].attempt)
  {
    ClaimedRow(y, p.gw, p.job);
    RefusedStep(y.store, EventOf(y, p).value, p.job, y.gateways[p.gw].active[p.job].attempt);
  }

  /** When a refused renewal drops an entry at step k, no later call for its attempt, by whichever gateway,
      with whatever fate, ever changes a row again. */
  lemma DroppedLeaseIsDead(states: seq<System>, steps: seq<Step>, k: nat, n: nat)
    requires IsRun(states, steps) && Start(states[0]) && k < n < |steps|
    requires steps[k].RenewCall? && steps[k].fate == Answered && !Succeeds(states[k], steps[k])
    ensures Follows(states[k], steps[k], states[k + 1])
    ensures
      var j, a := steps[k].job, states[k].gateways[steps[k].gw].active[steps[k].job].attempt;
      EventOf(states[n], steps[n]).Some? && ActsFor(EventOf(states[n], steps[n]).value.op, j, a) ==>
        !Hits(states[n].store, EventOf(states[n], steps[n]).value) && states[n + 1].store.rows == states[n].store.rows
  {
    assert Follows(states[k], steps[k], states[k + 1]) && Follows(states[n], steps[n], states[n + 1]);
    var j, a := steps[k].job, states[k].gateways[steps[k].gw].active[steps[k].job].attempt;
    hide LostLease, TasksOk, HeldOk, ActiveOk, Genuine, Inv, Start, Hits, IsRun;
    SysInvAt(states, steps, k);
    RefusalLoses(states[k], steps[k]);
    StaysLost(states, steps, k + 1, n, j, a);
    SysInvAt(states, steps, n);
    if EventOf(states[n], steps[n]).Some? && ActsFor(EventOf(states[n], steps[n]).value.op, j, a) {
      LostLeaseStep(states[n].store, EventOf(states[n], steps[n]).value, j, a);
      RefusedChangesNothing(states[n].store, EventOf(states[n], steps[n]).value, j, a);
    }
  }

  lemma RefusedChangesNothing(s: Store, e: Event, j: JobId, a: AttemptId)
    requires ActsFor(e.op, j, a) && !Hits(s, e)
    ensures Apply(s, e).rows == s.rows
  {
  }

  // ---------------------------------------------------------------------------------------------
  // Renewals
  // ---------------------------------------------------------------------------------------------

  /** No task is in the _active of two gateways. */
  ghost predicate Apart(y: System) {
    forall g, h, j, k | g in y.gateways && h in y.gateways && j in y.gateways[g].active && k in y.gateways[h].active
                        && y.gateways[g].active[j].task == y.gateways[h].active[k].task :: g == h
  }

  /** Every lease a gateway may renew ends within its own lease length from now. */
  ghost predicate Within(y: System, g: GatewayId)
    requires g in y.gateways
  {
    var w := y.gateways[g];
    && (forall j | j in w.active :: LeaseBounded(y.store, j, w.active[j].attempt, w.config.leaseSeconds))
    && (w.held.Some? && w.held.value.row.attemptId.Some? ==>
          LeaseBounded(y.store, w.held.value.job, w.held.value.row.attemptId.value, w.config.leaseSeconds))
  }

  ghost predicate Leases(y: System) {
    Apart(y) && forall g | g in y.gateways :: Within(y, g)
  }

  lemma ApartStep(y: System, p: Step)
    requires SysInv(y) && Can(y, p) && Apart(y)
    ensures Apart(Next(y, p))
  {
    var z := Next(y, p);
    hide Inv, Genuine, HeldOk, TasksOk;
    forall g, h, j, k | g in z.gateways && h in z.gateways && j in z.gateways[g].active && k in z.gateways[h].active
                        && z.gateways[g].active[j].task == z.gateways[h].active[k].task
      ensures g == h
    {
      ActiveFrame(y, p, g, j);
      ActiveFrame(y, p, h, k);
      assert ActiveOk(y, g) && ActiveOk(y, h);
      hide Can, GatewayAfter;
    }
  }

  /** Whatever attempt gateway g holds, in _active or just claimed. */
  ghost predicate Owns(y: System, g: GatewayId, j: JobId, a: AttemptId)
    requires g in y.gateways
  {
    var w := y.gateways[g];
    || (j in w.active && w.active[j].attempt == a)
    || (w.held.Some? && w.held.value.job == j && w.held.value.row.attemptId == Some(a))
  }

  /** A renewal of an attempt that g owns is a call of g. */
  lemma OwnRenewals(y: System, p: Step, g: GatewayId, j: JobId, a: AttemptId)
    requires SysInv(y) && Apart(y) && Can(y, p) && g in y.gateways && Owns(y, g, j, a) && EventOf(y, p).Some?
    ensures SameLease(EventOf(y, p).value.op, j, a, y.gateways[g].config.leaseSeconds)
    ensures a in y.store.issued
  {
    hide Inv, Genuine;
    assert HeldOk(y, g) && ActiveOk(y, g);
    if p.RenewCall? {
      assert ActiveOk(y, p.gw);
      var s := y.gateways[p.gw].active[p.job];
      assert y.tasks[s.task].attempt == s.attempt;
    }
    if j in y.gateways[g].active && y.gateways[g].active[j].attempt == a {
      ClaimedRow(y, g, j);
    }
  }

  lemma OwnsBounded(y: System, g: GatewayId, j: JobId, a: AttemptId)
    requires g in y.gateways && Within(y, g) && Owns(y, g, j, a)
    ensures LeaseBounded(y.store, j, a, y.gateways[g].config.leaseSeconds)
  {
  }

  lemma BoundedStays(y: System, p: Step, g: GatewayId, j: JobId, a: AttemptId)
    requires SysInv(y) && Leases(y) && Can(y, p) && g in y.gateways && Owns(y, g, j, a)
    ensures LeaseBounded(Next(y, p).store, j, a, y.gateways[g].config.leaseSeconds)
  {
    hide SysInv, Owns, LeaseBounded, SameLease, Apply;
    OwnsBounded(y, g, j, a);
    if EventOf(y, p).Some? {
      OwnRenewals(y, p, g, j, a);
      LeaseBoundedStep(y.store, EventOf(y, p).value, j, a, y.gateways[g].config.leaseSeconds);
    }
  }

  /** What a gateway owns after a step it owned before, or has just claimed, with its own lease length. */
  lemma OwnsAfter(y: System, p: Step, g: GatewayId, j: JobId, a: AttemptId)
    requires Inv(y.store) && Can(y, p) && g in y.gateways && Owns(Next(y, p), g, j, a)
    ensures Owns(y, g, j, a) || (p.ClaimCall? && p.gw == g && Succeeds(y, p) && a == p.attempt)
    ensures Next(y, p).gateways[g].config == y.gateways[g].config
  {
    hide Apply, Hits, Inv;
    HeldFrame(y, p, g);
    if p.ClaimCall? && Succeeds(y, p) {
      ClaimGives(y, p);
    }
    if j in GatewayAfter(y, p, g).active {
      ActiveFrame(y, p, g, j);
    }
  }

  lemma ClaimBounded(y: System, p: Step, j: JobId)
    requires Inv(y.store) && Can(y, p) && p.ClaimCall? && Succeeds(y, p)
    ensures LeaseBounded(Next(y, p).store, j, p.attempt, y.gateways[p.gw].config.leaseSeconds)
  {
    LeaseBoundedStep(y.store, EventOf(y, p).value, j, p.attempt, y.gateways[p.gw].config.leaseSeconds);
  }

  lemma WithinStep(y: System, p: Step, g: GatewayId)
    requires SysInv(y) && Leases(y) && Can(y, p) && g in y.gateways
    ensures Within(Next(y, p), g)
  {
    var z := Next(y, p);
    forall j, a | Owns(z, g, j, a)
      ensures LeaseBounded(z.store, j, a, z.gateways[g].config.leaseSeconds)
    {
      hide Leases, LeaseBounded, Owns, SysInv;
      InvOf(y);
      OwnsAfter(y, p, g, j, a);
      if Owns(y, g, j, a) {
        BoundedStays(y, p, g, j, a);
      } else {
        ClaimBounded(y, p, j);
      }
    }
    hide Can, Next, SysInv, Leases, LeaseBounded;
    OwnsWithin(z, g);
  }

  lemma InvOf(y: System)
    requires SysInv(y)
    ensures Inv(y.store)
  {
  }

  lemma OwnsWithin(y: System, g: GatewayId)
    requires g in y.gateways
    requires forall j, a | Owns(y, g, j, a) :: LeaseBounded(y.store, j, a, y.gateways[g].config.leaseSeconds)
    ensures Within(y, g)
  {
    hide LeaseBounded;
    var w := y.gateways[g];
    forall j | j in w.active ensures LeaseBounded(y.store, j, w.active[j].attempt, w.config.leaseSeconds) {
      assert Owns(y, g, j, w.active[j].attempt);
    }
    if w.held.Some? && w.held.value.row.attemptId.Some? {
      assert Owns(y, g, w.held.value.job, w.held.value.row.attemptId.value);
    }
  }

  lemma NextGateways(y: System, p: Step)
    requires Can(y, p)
    ensures Next(y, p).gateways.Keys == y.gateways.Keys
  {
    hide GatewayAfter, StoreAfter, TasksAfter;
  }

  lemma LeasesStep(y: System, p: Step)
    requires SysInv(y) && Leases(y) && Can(y, p)
    ensures Leases(Next(y, p))
  {
    hide Can, Next, Within, Apart, SysInv;
    NextGateways(y, p);
    ApartStep(y, p);
    forall g | g in Next(y, p).gateways ensures Within(Next(y, p), g) {
      WithinStep(y, p, g);
    }
  }

  lemma StartLeases(y: System)
    requires Start(y)
    ensures Leases(y)
  {
  }

  lemma {:induction false} LeasesAt(states: seq<System>, steps: seq<Step>, n: nat)
    requires IsRun(states, steps) && Start(states[0]) && n < |states|
    ensures Leases(states[n])
    decreases n
  {
    hide Can, Next, Leases, SysInv, Start;
    if n == 0 {
      StartLeases(states[0]);
    } else {
      LeasesAt(states, steps, n - 1);
      SysInvAt(states, steps, n - 1);
      assert Follows(states[n - 1], steps[n - 1], states[n]);
      LeasesStep(states[n - 1], steps[n - 1]);
    }
  }

  /** In every run, whatever lease lengths the gateways are configured with, a renewal that takes effect
      never shortens a lease and never passes the deadline. */
  lemma RenewalExtends(states: seq<System>, steps: seq<Step>, n: nat)
    requires IsRun(states, steps) && Start(states[0]) && n < |steps|
    requires steps[n].RenewCall? && steps[n].fate != Lost
    ensures Follows(states[n], steps[n], states[n + 1])
    ensures Hits(states[n].store, EventOf(states[n], steps[n]).value) ==>
              Extended(states[n].store, states[n + 1].store, steps[n].job)
  {
    assert Follows(states[n], steps[n], states[n + 1]);
    LeasesAt(states, steps, n);
    hide IsRun, Start, Extended, Hits, Apply, LeaseBounded;
    var y, p := states[n], steps[n];
    var w := y.gateways[p.gw];
    assert LeaseBounded(y.store, p.job, w.active[p.job].attempt, w.config.leaseSeconds) by {
      assert Within(y, p.gw);
    }
    if Hits(y.store, EventOf(y, p).value) {
      RenewExtends(y.store, EventOf(y, p).value, p.job, w.active[p.job].attempt, w.config.leaseSeconds);
    }
  }

  // ---------------------------------------------------------------------------------------------
  // With more than one place the promise fails
  // ---------------------------------------------------------------------------------------------

  /** The table of the counterexample: one job, queued, fingerprint correct, deadline just after the first lease. */
  function LoneRow(c: Config): Row {
    Row(Queued, "spec", c.sha256("spec"), None, 0, None, 0, c.leaseSeconds * SECOND + 1, 0, None, None)
  }

  lemma LoneClaim(s: Store, at: Time, a: AttemptId, lease: int)
    requires s.rows.Keys == {0} && s.rows[0].Due(at)
    ensures Chosen(s.rows, at, Some(0), {}) == Some(0)
    ensures Apply(s, Event(at, ClaimJob(Some(0), a, lease, {}))).rows == map[0 := Leased(s.rows[0], at, a, lease)]
  {
    assert First(s.rows, at, Some(0), {}, 0);
    FirstUnique(s.rows, at, Some(0), {}, 0, Chosen(s.rows, at, Some(0), {}).value);
  }

  ghost function Boot(c: Config): System {
    System(Store(map[], 0, {}, [], []), map[], map[0 := Gateway(c, map[], None)])
  }

  /** Claim job 0 and admit its task. */
  lemma ClaimAndAdmit(y: System, c: Config, at: Time, a: AttemptId, t: TaskId) returns (y1: System, y2: System)
    requires y.gateways.Keys == {0} && y.gateways[0].config == c && y.gateways[0].held == None
    requires |y.gateways[0].active| < c.maxInflight
    requires y.store.rows.Keys == {0} && y.store.rows[0].Due(at) && y.store.now <= at && a !in y.store.issued
    requires c.sha256(y.store.rows[0].spec) == y.store.rows[0].specSha && t !in y.tasks
    ensures Follows(y, ClaimCall(0, at, Some(0), a, {}, Answered), y1) && Follows(y1, Admit(0, t, None, 0), y2)
    ensures y1.gateways.Keys == {0} && y1.gateways[0].active == y.gateways[0].active && y1.tasks == y.tasks
    ensures y2.gateways == map[0 := Gateway(c, y.gateways[0].active[0 := Slot(t, a, 0)], None)]
    ensures y2.tasks == y.tasks[t := TaskRecord(0, a, T.Fresh(None))]
    ensures y2.store.rows == map[0 := Leased(y.store.rows[0], at, a, c.leaseSeconds)]
    ensures y2.store.now == at && y2.store.issued == y.store.issued + {a}
  {
    LoneClaim(y.store, at, a, c.leaseSeconds);
    y1 := Next(y, ClaimCall(0, at, Some(0), a, {}, Answered));
    y2 := Next(y1, Admit(0, t, None, 0));
    assert y2.gateways[0] == Gateway(c, y.gateways[0].active[0 := Slot(t, a, 0)], None);
  }

  lemma InsertLone(c: Config) returns (y1: System)
    requires ConfigOk(c)
    ensures Follows(Boot(c), Backend(Event(0, InsertJob(0, LoneRow(c)))), y1)
    ensures y1.store == Store(map[0 := LoneRow(c)], 0, {}, [], []) && y1.tasks == map[]
    ensures y1.gateways == map[0 := Gateway(c, map[], None)]
  {
    y1 := Next(Boot(c), Backend(Event(0, InsertJob(0, LoneRow(c)))));
  }

  lemma FinishTask(y: System, t: TaskId) returns (y1: System)
    requires t in y.tasks
    ensures Follows(y, TaskUpdate(t, T.Finish(0, Some("prediction"))), y1)
    ensures y1.store == y.store && y1.gateways == y.gateways && y1.tasks.Keys == y.tasks.Keys
  {
    y1 := Next(y, TaskUpdate(t, T.Finish(0, Some("prediction"))));
  }

  /** The first claim, its task, and the task finishing. */
  lemma FirstHalf(c: Config) returns (y1: System, y2: System, y3: System, y4: System)
    requires ConfigOk(c)
    ensures Follows(Boot(c), Backend(Event(0, InsertJob(0, LoneRow(c)))), y1)
    ensures Follows(y1, ClaimCall(0, 0, Some(0), 1, {}, Answered), y2) && Follows(y2, Admit(0, 0, None, 0), y3)
    ensures Follows(y3, TaskUpdate(0, T.Finish(0, Some("prediction"))), y4)
    ensures y4.gateways == map[0 := Gateway(c, map[0 := Slot(0, 1, 0)], None)] && y4.tasks.Keys == {0}
    ensures y4.store.rows == map[0 := Leased(LoneRow(c), 0, 1, c.leaseSeconds)]
    ensures y4.store.now == 0 && y4.store.issued == {1}
  {
    y1 := InsertLone(c);
    y2, y3 := ClaimAndAdmit(y1, c, 0, 1, 0);
    y4 := FinishTask(y3, 0);
  }

  /** The lease lapses and the same gateway claims the job again. */
  lemma SecondHalf(c: Config, y4: System) returns (y5: System, y6: System)
    requires ConfigOk(c) && c.maxInflight >= 2
    requires y4.gateways == map[0 := Gateway(c, map[0 := Slot(0, 1, 0)], None)] && y4.tasks.Keys == {0}
    requires y4.store.rows == map[0 := Leased(LoneRow(c), 0, 1, c.leaseSeconds)]
    requires y4.store.now == 0 && y4.store.issued == {1}
    ensures Follows(y4, ClaimCall(0, c.leaseSeconds * SECOND, Some(0), 2, {}, Answered), y5)
    ensures Follows(y5, Admit(0, 1, None, 0), y6)
    ensures y6.gateways == map[0 := Gateway(c, map[0 := Slot(1, 2, 0)], None)]
  {
    assert |y4.gateways[0].active| == 1;
    assert y4.store.rows[0].Due(c.leaseSeconds * SECOND);
    y5, y6 := ClaimAndAdmit(y4, c, c.leaseSeconds * SECOND, 2, 1);
    assert map[0 := Slot(0, 1, 0)][0 := Slot(1, 2, 0)] == map[0 := Slot(1, 2, 0)];
  }

  function CounterSteps(c: Config): seq<Step> {
    [Backend(Event(0, InsertJob(0, LoneRow(c)))), ClaimCall(0, 0, Some(0), 1, {}, Answered)]
    + [Admit(0, 0, None, 0), TaskUpdate(0, T.Finish(0, Some("prediction")))]
    + [ClaimCall(0, c.leaseSeconds * SECOND, Some(0), 2, {}, Answered), Admit(0, 1, None, 0)]
  }

  /** Two places let a gateway reclaim a job whose finished task is still in _active: the new claim
      overwrites the entry, and no store call ever returned for the finished outcome. */
  lemma OutcomeOverwritten(c: Config) returns (states: seq<System>)
    requires ConfigOk(c) && c.maxInflight >= 2
    ensures IsRun(states, CounterSteps(c)) && states[0] == Boot(c)
    ensures !EntriesStay(states, CounterSteps(c), 0)
  {
    hide Follows, IsRun, EntriesStay, Keeps, Leased, LoneRow;
    var y1, y2, y3, y4 := FirstHalf(c);
    var y5, y6 := SecondHalf(c, y4);
    states := Chain(c, y1, y2, y3, y4, y5, y6);
    Dropped(states, CounterSteps(c));
  }

  lemma Chain(c: Config, y1: System, y2: System, y3: System, y4: System, y5: System, y6: System)
    returns (states: seq<System>)
    requires Follows(Boot(c), CounterSteps(c)[0], y1) && Follows(y1, CounterSteps(c)[1], y2)
    requires Follows(y2, CounterSteps(c)[2], y3) && Follows(y3, CounterSteps(c)[3], y4)
    requires Follows(y4, CounterSteps(c)[4], y5) && Follows(y5, CounterSteps(c)[5], y6)
    ensures |states| == 7 && IsRun(states, CounterSteps(c)) && states[0] == Boot(c) && states[4] == y4
              && states[6] == y6
  {
    hide Follows;
    states := [Boot(c), y1, y2, y3, y4, y5, y6];
    SixSteps(states, CounterSteps(c));
  }

  lemma SixSteps(states: seq<System>, ps: seq<Step>)
    requires |states| == 7 && |ps| == 6
    requires Follows(states[0], ps[0], states[1]) && Follows(states[1], ps[1], states[2])
              && Follows(states[2], ps[2], states[3])
    requires Follows(states[3], ps[3], states[4]) && Follows(states[4], ps[4], states[5])
              && Follows(states[5], ps[5], states[6])
    ensures IsRun(states, ps)
  {
    hide Follows;
    forall n | 0 <= n < |ps| ensures Follows(states[n], ps[n], states[n + 1]) {
      assert n in {0, 1, 2, 3, 4, 5};
    }
  }

  lemma Dropped(states: seq<System>, steps: seq<Step>)
    requires |states| == 7 && |steps| == 6 && steps[4].ClaimCall? && steps[5].Admit?
    requires 0 in states[4].gateways && states[4].gateways[0].active == map[0 := Slot(0, 1, 0)]
    requires 0 in states[6].gateways && states[6].gateways[0].active == map[0 := Slot(1, 2, 0)]
    ensures !EntriesStay(states, steps, 0)
  {
    assert Keeps(states[4], 0, 0, Slot(0, 1, 0)) && !Keeps(states[6], 0, 0, Slot(0, 1, 0));
    assert forall k | 4 <= k < 6 :: !Disposes(states[k], steps[k], 0, 0) && steps[k] != Crash(0);
  }

  /** The promise, over all runs of a system in which gateway 0 has the given settings. */
  ghost predicate NeverDropsOutcomes(c: Config) {
    forall states: seq<System>, steps: seq<Step> ::
      IsRun(states, steps) && Start(states[0]) && 0 in states[0].gateways && states[0].gateways[0].config == c
      ==> EntriesStay(states, steps, 0)
  }

  /** Exactly the setting max_inflight = 1 guarantees it. */
  lemma NeverDropsIffOneInflight(c: Config)
    requires ConfigOk(c)
    ensures NeverDropsOutcomes(c) <==> c.maxInflight == 1
  {
    if c.maxInflight == 1 {
      forall states: seq<System>, steps: seq<Step> |
        IsRun(states, steps) && Start(states[0]) && 0 in states[0].gateways && states[0].gateways[0].config == c
        ensures EntriesStay(states, steps, 0)
      {
        OutcomeKept(states, steps, 0);
      }
    } else {
      var states := OutcomeOverwritten(c);
      assert Start(states[0]);
    }
  }
}
