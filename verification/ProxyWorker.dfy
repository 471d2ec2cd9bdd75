/** GrpcWorker (system/grpc_worker_pool.py) as an object whose threads run among all the others: the dispatch
    thread with _loop and _process, the thread that stops a proxy, and the handoff of a task. Each critical
    section is one step of ProxyProtocol, and between any two of them other threads may take any steps of
    theirs. What the methods decide comes from what they read; what each step changes is written out. */
module ProxyWorkers {
  import opened Wrappers
  import opened ProxyProtocol
  import opened ProxyDispatch
  import opened ProxyRuns
  import T = Tasks

  type Time = T.Time

  /** How a ProcessBatch call ends. */
  datatype Ending =
    | Response(results: seq<Reply>)
    | DeadlineExceeded
    | Unavailable
    | Cancelled
    | OtherStatus
    | ChannelClosed          // a local error while the channel is being closed
    | Broken(results: seq<Reply>)   // any other exception, after these results of a response

  datatype Reply = Reply(task: TaskId, success: bool, text: string, code: string)

  // ---------------------------------------------------------------------------------------------
  // Tasks, by their fields
  // ---------------------------------------------------------------------------------------------

  predicate Over(s: T.TaskState) {
    s.status == T.Done || s.status == T.Failed
  }

  predicate Late(s: T.TaskState, now: Time) {
    s.deadline.Some? && s.deadline.value <= now
  }

  predicate NeverHandedOver(kind: string) {
    kind == "synthx_v73" || kind == "synthx_text_v123" || kind == "synthx_text_refinement"
  }

  /** An outcome that is there stays. */
  function Failing(s: T.TaskState, now: Time, error: string, code: Option<string>): T.TaskState {
    if Over(s) then s else s.(status := T.Failed, error := Some(error), errorCode := code, endTime := Some(now))
  }

  function Completing(s: T.TaskState, now: Time, result: T.Json): T.TaskState {
    if Over(s) then s else s.(status := T.Done, result := Some(result), endTime := Some(now))
  }

  function Starting(s: T.TaskState, now: Time): T.TaskState {
    if Over(s) then s
    else s.(status := T.Processing, startTime := if s.startTime.Some? then s.startTime else Some(now))
  }

  function TooLate(s: T.TaskState, now: Time): T.TaskState {
    Failing(s, now, "request deadline exceeded", Some("deadline_exceeded"))
  }

  /** _finish_or_retry where nothing is handed over. */
  function Finishing(r: TaskRecord, now: Time, error: string): T.TaskState {
    if Late(r.state, now) then TooLate(r.state, now)
    else Failing(r.state, now, error, if NeverHandedOver(r.kind) then Some("transport_error") else None)
  }

  /** The first task of a thread is done with. */
  function Rest(q: Proxy, who: Thread): Proxy
    requires q.HandOf(who).tasks != []
  {
    match who
    case Dispatcher => q.(active := Hand(q.active.tasks[1..], None))
    case Stopper => q.(drained := Hand(q.drained.tasks[1..], None))
  }

  function Offering(q: Proxy, who: Thread, o: Offer): Proxy {
    match who
    case Dispatcher => q.(active := Hand(q.active.tasks, Some(o)))
    case Stopper => q.(drained := Hand(q.drained.tasks, Some(o)))
  }

  /** Two outstanding batches at most. */
  predicate HasRoom(q: Proxy) {
    !q.stopped && q.ready && |q.queue| + (if q.phase == Idle then 0 else 1) < 2
  }

  // ---------------------------------------------------------------------------------------------
  // The steps, by what they change
  // ---------------------------------------------------------------------------------------------

  lemma TakeShape(s: Pool, p: ProxyId)
    requires Can(s, Take(p))
    ensures var q := s.proxies[p];
      Next(s, Take(p)) == s.(proxies := s.proxies[p := q.(queue := q.queue[1..], active := Hand(q.queue[0], None),
                                                          phase := Screening(0))])
  {
  }

  lemma SubmitShape(s: Pool, p: ProxyId, b: Batch)
    requires Can(s, ProxyProtocol.Submit(p, b))
    ensures HasRoom(s.proxies[p])
    ensures Next(s, ProxyProtocol.Submit(p, b))
            == s.(proxies := s.proxies[p := s.proxies[p].(queue := s.proxies[p].queue + [b])],
                  placed := s.placed + set t | t in b)
  {
  }

  lemma ScreenShape(s: Pool, p: ProxyId, at: Time)
    requires Can(s, Screen(p, at))
    ensures
      var q, k := s.proxies[p], s.proxies[p].phase.next;
      var t := q.active.tasks[k];
      var dropped := s.proxies[p := q.(active := Hand(q.active.tasks[..k] + q.active.tasks[k + 1..], None))];
      Next(s, Screen(p, at)) ==
      if Over(s.tasks[t].state) then s.(proxies := dropped)
      else if Late(s.tasks[t].state, at) then
        s.(proxies := dropped, tasks := s.tasks[t := s.tasks[t].(state := TooLate(s.tasks[t].state, at))])
      else s.(proxies := s.proxies[p := q.(phase := Screening(k + 1))])
  {
    var t := s.proxies[p].active.tasks[s.proxies[p].phase.next];
    assert s.tasks[t := s.tasks[t]] == s.tasks;
  }

  /** Some task of the batch has a deadline, and no time is left for any that has. */
  predicate OutOfTime(tasks: map<TaskId, TaskRecord>, batch: Batch, now: Time) {
    && (exists t | t in batch :: t in tasks && tasks[t].state.deadline.Some?)
    && (forall t | t in batch && t in tasks && tasks[t].state.deadline.Some? :: Late(tasks[t].state, now))
  }

  lemma BeginShape(s: Pool, p: ProxyId, at: Time)
    requires Can(s, Begin(p, at))
    ensures
      var q := s.proxies[p];
      Next(s, Begin(p, at)) ==
      if q.active.tasks == [] then s.(proxies := s.proxies[p := q.(phase := Idle)])
      else if q.stopped then s.(proxies := s.proxies[p := q.(phase := HandingOff(q.retryOnStop))])
      else if OutOfTime(s.tasks, q.active.tasks, at) then
        s.(proxies := s.proxies[p := q.(phase := Idle, active := Hand([], None))],
           tasks := map t | t in s.tasks ::
             if t in q.active.tasks then s.tasks[t].(state := TooLate(Starting(s.tasks[t].state, at), at))
             else s.tasks[t])
      else
        s.(proxies := s.proxies[p := q.(phase := InRpc)],
           tasks := map t | t in s.tasks ::
             if t in q.active.tasks then
               s.tasks[t].(state := Starting(s.tasks[t].state, at),
                           rpcs := s.tasks[t].rpcs + [Rpc(q.wid, s.tasks[t].state.deadline)])
             else s.tasks[t])
  {
    var q := s.proxies[p];
    SameTimeLeft(s.tasks, q.active.tasks, at);
    if q.active.tasks == [] || q.stopped {
      BeginIdle(s, p, at);
    } else if NoTimeLeft(s.tasks, q.active.tasks, at) {
      BeginLate(s, p, at);
    } else {
      BeginSends(s, p, at);
    }
    hide Next, NoTimeLeft, OutOfTime, TooLate, Starting;
  }

  lemma SameTimeLeft(tasks: map<TaskId, TaskRecord>, batch: Batch, at: Time)
    ensures NoTimeLeft(tasks, batch, at) <==> OutOfTime(tasks, batch, at)
  {
  }

  lemma BeginIdle(s: Pool, p: ProxyId, at: Time)
    requires Can(s, Begin(p, at)) && (s.proxies[p].active.tasks == [] || s.proxies[p].stopped)
    ensures
      var q := s.proxies[p];
      Next(s, Begin(p, at)) ==
      if q.active.tasks == [] then s.(proxies := s.proxies[p := q.(phase := Idle)])
      else s.(proxies := s.proxies[p := q.(phase := HandingOff(q.retryOnStop))])
  {
  }

  lemma BeginLate(s: Pool, p: ProxyId, at: Time)
    requires Can(s, Begin(p, at)) && s.proxies[p].active.tasks != [] && !s.proxies[p].stopped
    requires NoTimeLeft(s.tasks, s.proxies[p].active.tasks, at)
    ensures
      var q := s.proxies[p];
      Next(s, Begin(p, at)) == s.(
        proxies := s.proxies[p := q.(phase := Idle, active := Hand([], None))],
        tasks := map t | t in s.tasks ::
          if t in q.active.tasks then s.tasks[t].(state := TooLate(Starting(s.tasks[t].state, at), at)) else s.tasks[t])
  {
    hide NoTimeLeft;
  }

  lemma BeginSends(s: Pool, p: ProxyId, at: Time)
    requires Can(s, Begin(p, at)) && s.proxies[p].active.tasks != [] && !s.proxies[p].stopped
    requires !NoTimeLeft(s.tasks, s.proxies[p].active.tasks, at)
    ensures
      var q := s.proxies[p];
      Next(s, Begin(p, at)) == s.(
        proxies := s.proxies[p := q.(phase := InRpc)],
        tasks := map t | t in s.tasks ::
          if t in q.active.tasks then
            s.tasks[t].(state := Starting(s.tasks[t].state, at),
                        rpcs := s.tasks[t].rpcs + [Rpc(q.wid, s.tasks[t].state.deadline)])
          else s.tasks[t])
  {
    hide NoTimeLeft;
  }

  lemma AnswerShape(s: Pool, p: ProxyId, t: TaskId, op: T.TaskOp)
    requires Can(s, Answer(p, t, op))
    ensures Next(s, Answer(p, t, op)) == s.(tasks := s.tasks[t := s.tasks[t].(state := T.Move(s.tasks[t].state, op))])
  {
  }

  lemma MoveMeans(s: T.TaskState, now: Time)
    ensures forall error, code :: T.Move(s, T.Fail(now, error, code)) == Failing(s, now, error, code)
    ensures forall result :: T.Move(s, T.Finish(now, Some(result))) == Completing(s, now, result)
  {
  }

  lemma EndResponseShape(s: Pool, p: ProxyId, at: Time)
    requires Can(s, EndResponse(p, at))
    ensures
      var q := s.proxies[p];
      Next(s, EndResponse(p, at)) == s.(
        proxies := s.proxies[p := q.(phase := Idle, active := Hand([], None))],
        tasks := map t | t in s.tasks ::
          if t in q.active.tasks && NeverHandedOver(s.tasks[t].kind) then
            s.tasks[t].(state := Failing(s.tasks[t].state, at, "worker omitted task result", Some("transport_error")))
          else s.tasks[t],
        omitted := s.omitted + set t | t in q.active.tasks && t in s.tasks && !Over(s.tasks[t].state)
                                       && !NeverHandedOver(s.tasks[t].kind))
  {
    var a, q := EndResponse(p, at), s.proxies[p];
    OthersAsWere(s, a);
    OmittedTasks(s, a);
    AnsweredShape(s, a);
    FailedDurable(s, q.active.tasks, at);
    hide DurableOf, OmittedBy, ProxiesAfter, TasksAfter, MoveAll, Can, Failing;
  }

  lemma OmittedTasks(s: Pool, a: Step)
    requires Can(s, a) && a.EndResponse?
    ensures OmittedBy(s, a) == set t | t in s.proxies[a.p].active.tasks && t in s.tasks && !Over(s.tasks[t].state)
                                       && !NeverHandedOver(s.tasks[t].kind)
  {
    hide OmittedBy;
    OthersAsWere(s, a);
    forall t | t in s.tasks
      ensures t in OmittedBy(s, a) <==>
                t in s.proxies[a.p].active.tasks && !Over(s.tasks[t].state) && !NeverHandedOver(s.tasks[t].kind)
    {
      OmittedExactly(s, a, t);
    }
  }

  lemma FailedDurable(s: Pool, batch: Batch, at: Time)
    ensures
      MoveAll(s.tasks, DurableOf(s.tasks, batch), T.Fail(at, "worker omitted task result", Some("transport_error")))
      == map t | t in s.tasks ::
           if t in batch && NeverHandedOver(s.tasks[t].kind) then
             s.tasks[t].(state := Failing(s.tasks[t].state, at, "worker omitted task result", Some("transport_error")))
           else s.tasks[t]
  {
    hide DurableOf, NeverHandedOver;
    forall t | t in s.tasks
      ensures t in DurableOf(s.tasks, batch) <==> t in batch && NeverHandedOver(s.tasks[t].kind)
    {
      DurableMembers(s.tasks, batch, t);
    }
  }

  lemma DurableMembers(tasks: map<TaskId, TaskRecord>, ts: seq<TaskId>, t: TaskId)
    requires t in tasks
    ensures t in DurableOf(tasks, ts) <==> t in ts && NeverHandedOver(tasks[t].kind)
  {
    if t in ts && NeverHandedOver(tasks[t].kind) {
      DurableOfHas(tasks, ts, t);
    } else if !NeverHandedOver(tasks[t].kind) {
      DurableOfOnly(tasks, ts, t);
    } else {
      DurableOfWithin(tasks, ts);
    }
  }

  lemma DurableOfWithin(tasks: map<TaskId, TaskRecord>, ts: seq<TaskId>)
    ensures forall t | t in DurableOf(tasks, ts) :: t in ts
  {
  }

  lemma OthersAsWere(s: Pool, a: Step)
    requires Can(s, a) && (a.EndResponse? || a.DeadlineError?)
    ensures ProxiesAfter(s, a) == s.proxies[a.p := s.proxies[a.p].(phase := Idle, active := Hand([], None))]
    ensures forall t | t in OmittedBy(s, a) :: t in s.tasks
  {
    TasksGoOnStep(s, a);
  }

  lemma DeadlineErrorShape(s: Pool, p: ProxyId, at: Time)
    requires Can(s, DeadlineError(p, at))
    ensures
      var q := s.proxies[p];
      Next(s, DeadlineError(p, at)) == s.(
        proxies := s.proxies[p := q.(phase := Idle, active := Hand([], None))],
        tasks := map t | t in s.tasks ::
          if t in q.active.tasks then s.tasks[t].(state := TooLate(s.tasks[t].state, at)) else s.tasks[t])
  {
    OthersAsWere(s, DeadlineError(p, at));
    hide ProxyAfter;
  }

  lemma RpcFailedShape(s: Pool, p: ProxyId, retry: bool)
    requires Can(s, RpcFailed(p, retry))
    ensures Next(s, RpcFailed(p, retry)) == s.(proxies := s.proxies[p := s.proxies[p].(phase := HandingOff(retry))])
  {
  }

  lemma ResolveShape(s: Pool, p: ProxyId, who: Thread, at: Time, error: string)
    requires Can(s, Resolve(p, who, at, error))
    ensures
      var t := s.proxies[p].HandOf(who).tasks[0];
      Next(s, Resolve(p, who, at, error)) == s.(
        proxies := s.proxies[p := Rest(s.proxies[p], who)],
        tasks := s.tasks[t := s.tasks[t].(state := Finishing(s.tasks[t], at, error))])
  {
  }

  /** The other ready members that support the task's kind. */
  predicate Candidate(s: Pool, t: TaskId, wid: WorkerId, c: ProxyId)
    requires t in s.tasks
  {
    exists w | w in s.members ::
      && s.members[w] == c && c in s.proxies && w != wid && !s.proxies[c].stopped && s.proxies[c].ready
      && w in s.kinds && s.tasks[t].kind in s.kinds[w]
  }

  lemma CandidatesShape(s: Pool, p: ProxyId, who: Thread, at: Time)
    requires Can(s, ProxyProtocol.Candidates(p, who, at))
    ensures
      var q := s.proxies[p];
      var found := CandidatesFor(s, q.HandOf(who).tasks[0], q.wid);
      && Next(s, ProxyProtocol.Candidates(p, who, at))
         == s.(proxies := s.proxies[p := Offering(q, who, Offer(found, false))])
      && forall c :: c in found <==> Candidate(s, q.HandOf(who).tasks[0], q.wid, c)
  {
  }

  lemma ReservationShape(s: Pool, p: ProxyId, who: Thread, at: Time, error: string)
    requires Can(s, ProxyProtocol.Reserve(p, who, at, error))
    ensures
      var q, t := s.proxies[p], s.proxies[p].HandOf(who).tasks[0];
      var r, o := s.tasks[t], q.HandOf(who).offer.value;
      Next(s, ProxyProtocol.Reserve(p, who, at, error)) ==
      if !Over(r.state) && !Late(r.state, at) && r.state.retries == 0 then
        s.(proxies := s.proxies[p := Offering(q, who, Offer(o.candidates, true))],
           tasks := s.tasks[t := r.(state := r.state.(retries := 1))])
      else
        s.(proxies := s.proxies[p := Rest(q, who)],
           tasks := s.tasks[t := r.(state := Failing(r.state, at, error, None))])
  {
  }

  lemma TryNextShape(s: Pool, p: ProxyId, who: Thread, c: ProxyId)
    requires Can(s, TryNext(p, who, c)) && c != p
    ensures
      var q, t := s.proxies[p], s.proxies[p].HandOf(who).tasks[0];
      Next(s, TryNext(p, who, c)) == s.(proxies :=
        if HasRoom(s.proxies[c]) then
          s.proxies[p := Rest(q, who)][c := s.proxies[c].(queue := s.proxies[c].queue + [[t]])]
        else s.proxies[p := Offering(q, who, Offer(q.HandOf(who).offer.value.candidates - {c}, true))])
  {
  }

  lemma GiveUpShape(s: Pool, p: ProxyId, who: Thread, at: Time, error: string)
    requires Can(s, GiveUp(p, who, at, error))
    ensures
      var q, t := s.proxies[p], s.proxies[p].HandOf(who).tasks[0];
      Next(s, GiveUp(p, who, at, error)) == s.(
        proxies := s.proxies[p := Rest(q, who)],
        tasks := s.tasks[t := s.tasks[t].(state := Failing(s.tasks[t].state, at, error, None))])
  {
  }

  lemma EndBatchShape(s: Pool, p: ProxyId)
    requires Can(s, EndBatch(p))
    ensures Next(s, EndBatch(p)) == s.(proxies := s.proxies[p := s.proxies[p].(phase := Idle)])
  {
  }

  lemma DrainShape(s: Pool, p: ProxyId)
    requires Can(s, Drain(p))
    ensures Next(s, Drain(p)) == s.(proxies := s.proxies[p := s.proxies[p].(
                                      queue := [], drained := Hand(Concat(s.proxies[p].queue), None))])
  {
  }

  lemma RemoveShape(s: Pool, w: WorkerId)
    requires Can(s, RemoveProxy(w))
    ensures
      var q := s.proxies[s.members[w]];
      Next(s, RemoveProxy(w)) == s.(
        members := s.members - {w},
        proxies := s.proxies[s.members[w] :=
          if q.stopped then q else q.(stopped := true, retryOnStop := true)])
  {
  }

  lemma StopPoolShape(s: Pool)
    ensures Next(s, StopPool) == s.(
              stopping := true, members := map[],
              proxies := map p | p in s.proxies ::
                if p in s.members.Values && !s.proxies[p].stopped then
                  s.proxies[p].(stopped := true, retryOnStop := false)
                else s.proxies[p])
  {
  }

  // ---------------------------------------------------------------------------------------------
  // What a thread can rely on
  // ---------------------------------------------------------------------------------------------

  /** A step that the thread takes itself. */
  predicate Own(a: Step, p: ProxyId, who: Thread) {
    match a
    case Take(o) => o == p && who == Dispatcher
    case Screen(o, _) => o == p && who == Dispatcher
    case Begin(o, _) => o == p && who == Dispatcher
    case Answer(o, _, _) => o == p && who == Dispatcher
    case EndResponse(o, _) => o == p && who == Dispatcher
    case DeadlineError(o, _) => o == p && who == Dispatcher
    case RpcFailed(o, _) => o == p && who == Dispatcher
    case EndBatch(o) => o == p && who == Dispatcher
    case Drain(o) => o == p && who == Stopper
    case Resolve(o, thread, _, _) => o == p && thread == who
    case Candidates(o, thread, _) => o == p && thread == who
    case Reserve(o, thread, _, _) => o == p && thread == who
    case TryNext(o, thread, _) => o == p && thread == who
    case GiveUp(o, thread, _, _) => o == p && thread == who
    case _ => false
  }

  /** The thread's own tasks and place are its own, a stopped proxy stays stopped, a stopping pool stays
      stopping, outcomes stay, and deadlines and kinds do not change. */
  ghost predicate Undisturbed(s: Pool, t: Pool, p: ProxyId, who: Thread) {
    && p in s.proxies && p in t.proxies && s.proxies.Keys <= t.proxies.Keys
    && t.proxies[p].wid == s.proxies[p].wid && t.proxies[p].HandOf(who) == s.proxies[p].HandOf(who)
    && (who == Dispatcher ==> t.proxies[p].phase == s.proxies[p].phase)
    && (s.proxies[p].stopped ==> t.proxies[p].stopped && t.proxies[p].retryOnStop == s.proxies[p].retryOnStop)
    && (s.stopping ==> t.stopping) && t.kinds == s.kinds && TasksGoOn(s.tasks, t.tasks)
  }

  lemma UndisturbedSelf(s: Pool, p: ProxyId, who: Thread)
    requires p in s.proxies
    ensures Undisturbed(s, s, p, who)
  {
  }

  lemma UndisturbedBoth(s: Pool, t: Pool, u: Pool, p: ProxyId, who: Thread)
    requires Undisturbed(s, t, p, who) && Undisturbed(t, u, p, who)
    ensures Undisturbed(s, u, p, who)
  {
  }

  lemma HandUndisturbed(s: Pool, a: Step, p: ProxyId, who: Thread)
    requires Can(s, a) && p in s.proxies && !Own(a, p, who)
    ensures ProxyAfter(s, a, p).HandOf(who) == s.proxies[p].HandOf(who)
    ensures who == Dispatcher ==> ProxyAfter(s, a, p).phase == s.proxies[p].phase
    ensures s.proxies[p].stopped ==>
              ProxyAfter(s, a, p).stopped && ProxyAfter(s, a, p).retryOnStop == s.proxies[p].retryOnStop
  {
    hide CandidatesFor, NoTimeLeft, Concat, Remove, T.Reserves, T.TaskState.Expired, T.TaskState.Terminal, Head;
  }

  lemma OthersStep(s: Pool, a: Step, p: ProxyId, who: Thread)
    requires Can(s, a) && p in s.proxies && !Own(a, p, who)
    ensures Undisturbed(s, Next(s, a), p, who)
  {
    hide ProxyAfter, TasksAfter, Can;
    OldProxy(s, a, p);
    HandUndisturbed(s, a, p, who);
    WorkersStay(s, a, p);
    ExtendsStep(s, a);
    TasksGoOnStep(s, a);
  }

  /** How far a run has got. */
  datatype History = History(states: seq<Pool>, steps: seq<Step>) {
    predicate Fits() {
      |states| == |steps| + 1
    }

    function Last(): Pool
      requires Fits()
    {
      states[|steps|]
    }
  }

  /** The run went on. */
  ghost predicate Later(a: History, b: History)
    ensures Later(a, b) ==> a.Fits() && b.Fits() && |a.steps| <= |b.steps|
  {
    && a.Fits() && b.Fits() && a.states <= b.states && a.steps <= b.steps
    && TasksGoOn(a.Last().tasks, b.Last().tasks) && a.Last().omitted <= b.Last().omitted
  }

  lemma LaterSelf(a: History)
    requires a.Fits()
    ensures Later(a, a)
  {
  }

  lemma LaterBoth(a: History, b: History, c: History)
    requires Later(a, b) && Later(b, c)
    ensures Later(a, c)
  {
  }

  class SharedPool {
    var state: Pool
    ghost var states: seq<Pool>
    ghost var steps: seq<Step>

    /** What has happened so far is a run of the protocol. */
    ghost predicate Valid()
      reads this
    {
      IsRun(states, steps) && Start(states[0]) && state == states[|steps|]
    }

    ghost function Past(): (past: History)
      reads this
    {
      History(states, steps)
    }

    constructor (tasks: map<TaskId, TaskRecord>, kinds: map<WorkerId, set<string>>)
      requires forall t | t in tasks ::
                 tasks[t].rpcs == [] && tasks[t].state == T.Fresh(tasks[t].state.deadline)
      ensures Valid() && state == Pool(map[], map[], false, tasks, {}, {}, kinds)
    {
      state := Pool(map[], map[], false, tasks, {}, {}, kinds);
      states, steps := [Pool(map[], map[], false, tasks, {}, {}, kinds)], [];
    }

    method Do(a: Step)
      requires Valid() && Can(state, a)
      modifies this
      ensures Valid() && state == Next(old(state), a) && Later(old(Past()), Past())
      ensures states == old(states) + [state] && steps == old(steps) + [a]
      ensures state == states[|steps|] && |states| == |steps| + 1
    {
      hide Can, ProxiesAfter, TasksAfter, OmittedBy;
      TasksGoOnStep(state, a);
      state := Next(state, a);
      states, steps := states + [state], steps + [a];
    }

    /** Everything the invariants say of the state. */
    lemma Sound()
      requires Valid()
      ensures Structured(state) && Conserved(state) && Counted(state)
    {
      hide Start, Structured, Conserved, Counted;
      Reached(states, steps, |steps|);
    }

    /** The critical section of the pool's stop: no member is left, the pool is stopping, and every running member
        is stopped with nothing to hand over. */
    method Shutdown()
      requires Valid()
      modifies this
      ensures Valid() && Later(old(Past()), Past())
      ensures var s := old(state);
        state == s.(stopping := true, members := map[], proxies := map p | p in s.proxies ::
                      if p in s.members.Values && !s.proxies[p].stopped then
                        s.proxies[p].(stopped := true, retryOnStop := false)
                      else s.proxies[p])
    {
      hide Next, Start, IsRun, Later;
      StopPoolShape(state);
      Do(StopPool);
    }

    lemma Now()
      requires Valid()
      ensures Past().Fits() && Past().Last() == state && Later(Past(), Past())
    {
      hide Start;
      LaterSelf(Past());
    }

    /** Other threads go on for a while. */
    method Pause(p: ProxyId, who: Thread)
      requires Valid() && p in state.proxies
      modifies this
      ensures Valid() && Later(old(Past()), Past()) && Undisturbed(old(state), state, p, who)
    {
      hide Can, Next, Own, Undisturbed, Start, Later;
      var work: seq<Step> := *;
      UndisturbedSelf(state, p, who);
      LaterSelf(Past());
      for i := 0 to |work|
        invariant Valid() && Later(old(Past()), Past()) && Undisturbed(old(state), state, p, who)
      {
        if Can(state, work[i]) && !Own(work[i], p, who) {
          ghost var mid := Past();
          StillThere(old(state), state, p, who);
          OthersStep(state, work[i], p, who);
          UndisturbedBoth(old(state), state, Next(state, work[i]), p, who);
          Do(work[i]);
          LaterBoth(old(Past()), mid, Past());
        }
      }
    }

    lemma StillThere(s: Pool, t: Pool, p: ProxyId, who: Thread)
      requires Undisturbed(s, t, p, who)
      ensures p in t.proxies
    {
    }
  }

  // ---------------------------------------------------------------------------------------------
  // What became of a task
  // ---------------------------------------------------------------------------------------------

  datatype Fate = Resolved | LeftOut | HandedTo(c: ProxyId)

  /** In this step the proxy hands the task over: it leaves the hand and is last in the queue of another ready
      proxy with room whose worker supports its kind. */
  predicate Handover(s: Pool, a: Step, s': Pool, p: ProxyId, t: TaskId, c: ProxyId) {
    && a.TryNext? && a.p == p && a.c == c && p in s.proxies && c in s.proxies && c in s'.proxies
    && s.proxies[p].HandOf(a.who).tasks != [] && s.proxies[p].HandOf(a.who).tasks[0] == t
    && HasRoom(s.proxies[c]) && s'.proxies[c].queue == s.proxies[c].queue + [[t]]
    && t in s.tasks && !NeverHandedOver(s.tasks[t].kind) && s.proxies[c].wid != s.proxies[p].wid
    && s.proxies[c].wid in s.kinds && s.tasks[t].kind in s.kinds[s.proxies[c].wid]
  }

  /** A reason to end a task here although it might be handed over: an outcome or a deadline, its kind, a retry
      that is used up, a pool that shuts down, or no other worker that would take it. */
  ghost predicate Excused(past: History, i: nat, p: ProxyId, t: TaskId)
    requires past.Fits() && i < |past.steps|
  {
    var s, a := past.states[i], past.steps[i];
    && t in s.tasks && p in s.proxies
    && var r := s.tasks[t];
    || Over(r.state) || r.state.retries != 0 || NeverHandedOver(r.kind) || s.stopping
    || (a.Resolve? && Late(r.state, a.at)) || (a.Reserve? && Late(r.state, a.at))
    || forall c | Candidate(s, t, s.proxies[p].wid, c) :: Refused(past, i, c)
  }

  /** The proxy was seen without room after the given step. */
  ghost predicate Refused(past: History, i: nat, c: ProxyId)
    requires past.Fits()
  {
    exists k | i < k < |past.steps| :: c in past.states[k].proxies && !HasRoom(past.states[k].proxies[c])
  }

  /** What became of a task since a point of the run. */
  ghost predicate Fated(past: History, since: nat, p: ProxyId, t: TaskId, fate: Fate)
    requires past.Fits()
  {
    match fate
    case Resolved => t in past.Last().tasks && Over(past.Last().tasks[t].state)
    case LeftOut => t in past.Last().omitted && t in past.Last().tasks && !NeverHandedOver(past.Last().tasks[t].kind)
    case HandedTo(c) =>
      exists i | since <= i < |past.steps| :: HandedAt(past, i, p, t, c)
  }

  predicate HandedAt(past: History, i: nat, p: ProxyId, t: TaskId, c: ProxyId)
    requires past.Fits() && i < |past.steps|
  {
    Handover(past.states[i], past.steps[i], past.states[i + 1], p, t, c)
  }

  lemma HandedLater(a: History, b: History, i: nat, p: ProxyId, t: TaskId, c: ProxyId)
    requires Later(a, b) && i < |a.steps| && HandedAt(a, i, p, t, c)
    ensures HandedAt(b, i, p, t, c)
  {
    hide Handover;
    assert b.states[i] == a.states[i] && b.steps[i] == a.steps[i] && b.states[i + 1] == a.states[i + 1];
  }

  lemma FatedLater(a: History, b: History, since: nat, p: ProxyId, t: TaskId, fate: Fate)
    requires Later(a, b) && Fated(a, since, p, t, fate)
    ensures Fated(b, since, p, t, fate)
  {
    hide Later, Over, NeverHandedOver, HandedAt;
    LaterTask(a, b, t);
    if fate.HandedTo? {
      var i :| since <= i < |a.steps| && HandedAt(a, i, p, t, fate.c);
      HandedLater(a, b, i, p, t, fate.c);
    }
  }

  lemma LaterTask(a: History, b: History, t: TaskId)
    requires Later(a, b)
    ensures t in a.Last().omitted ==> t in b.Last().omitted
    ensures t in a.Last().tasks ==> t in b.Last().tasks && b.Last().tasks[t].kind == a.Last().tasks[t].kind
    ensures t in a.Last().tasks && Over(a.Last().tasks[t].state) ==> Over(b.Last().tasks[t].state)
  {
  }

  lemma FatedSince(a: History, early: nat, since: nat, p: ProxyId, t: TaskId, fate: Fate)
    requires a.Fits() && Fated(a, since, p, t, fate) && early <= since
    ensures Fated(a, early, p, t, fate)
  {
    hide HandedAt;
  }

  class ProxyWorker {
    const pool: SharedPool
    const p: ProxyId

    constructor (pool: SharedPool, p: ProxyId)
      ensures this.pool == pool && this.p == p
    {
      this.pool, this.p := pool, p;
    }

    /** The dispatch thread is in this phase, with these tasks of its batch. */
    ghost predicate Dispatching(phase: Phase, batch: Batch)
      reads pool
    {
      && pool.Valid() && p in pool.state.proxies
      && pool.state.proxies[p].phase == phase && pool.state.proxies[p].active == Hand(batch, None)
    }

    /** A thread has these tasks left to finish or hand over. */
    ghost predicate Working(who: Thread, tasks: seq<TaskId>, offer: Option<Offer>, retry: bool)
      reads pool
    {
      && pool.Valid() && p in pool.state.proxies
      && var q := pool.state.proxies[p];
      match who
      case Dispatcher => q.phase == HandingOff(retry) && q.active == Hand(tasks, offer)
      case Stopper => q.stopped && q.retryOnStop == retry && q.drained == Hand(tasks, offer)
    }

    method PauseDispatch(phase: Phase, batch: Batch)
      requires Dispatching(phase, batch)
      modifies pool
      ensures Dispatching(phase, batch) && Later(old(pool.Past()), pool.Past())
      ensures old(pool.state.proxies[p].stopped) ==>
                && pool.state.proxies[p].stopped
                && pool.state.proxies[p].retryOnStop == old(pool.state.proxies[p].retryOnStop)
    {
      hide IsRun, Start, Later;
      pool.Pause(p, Dispatcher);
    }

    method PauseWork(who: Thread, tasks: seq<TaskId>, offer: Option<Offer>, retry: bool)
      requires Working(who, tasks, offer, retry)
      modifies pool
      ensures Working(who, tasks, offer, retry) && Later(old(pool.Past()), pool.Past())
    {
      hide IsRun, Start, Later;
      pool.Pause(p, who);
    }

    // -------------------------------------------------------------------------------------------
    // The dispatch thread
    // -------------------------------------------------------------------------------------------

    lemma Known(batch: Batch)
      requires pool.Valid() && p in pool.state.proxies
      ensures forall t | t in pool.state.proxies[p].active.tasks :: t in pool.state.tasks
      ensures forall t | t in pool.state.proxies[p].drained.tasks :: t in pool.state.tasks
      ensures pool.state.proxies[p].phase == Idle ==> pool.state.proxies[p].active == Hand([], None)
    {
      hide IsRun, Start, Conserved, Counted;
      pool.Sound();
      assert ProxyOk(pool.state, pool.state.proxies[p]);
    }

    /** Take the oldest batch of a running proxy. */
    method TakeBatch() returns (batch: Option<Batch>)
      requires Dispatching(Idle, [])
      modifies pool
      ensures var s, q := old(pool.state), old(pool.state.proxies[p]);
        if q.stopped || q.queue == [] then batch == None && pool.state == s && Dispatching(Idle, [])
        else
          && batch == Some(q.queue[0]) && Dispatching(Screening(0), q.queue[0])
          && pool.state == s.(proxies := s.proxies[p := q.(
               queue := q.queue[1..], active := Hand(q.queue[0], None), phase := Screening(0))])
      ensures Later(old(pool.Past()), pool.Past())
    {
      hide Next, IsRun, Start, Later;
      var q := pool.state.proxies[p];
      pool.Now();
      if q.stopped || q.queue == [] {
        return None;
      }
      TakeShape(pool.state, p);
      pool.Do(Take(p));
      batch := Some(q.queue[0]);
    }

    /** Leave out a task with an outcome; fail and leave out one that is late. */
    method ScreenOne(k: nat, batch: Batch, clock: Time) returns (kept: bool)
      requires Dispatching(Screening(k), batch) && k < |batch|
      modifies pool
      ensures Dispatching(Screening(if kept then k + 1 else k), if kept then batch else batch[..k] + batch[k + 1..])
      ensures batch[k] in pool.state.tasks && (kept || Over(pool.state.tasks[batch[k]].state))
      ensures var s, q, t := old(pool.state), old(pool.state.proxies[p]), batch[k];
        && t in s.tasks && (kept <==> !Over(s.tasks[t].state) && !Late(s.tasks[t].state, clock))
        && pool.state.tasks ==
           (if kept || Over(s.tasks[t].state) then s.tasks
            else s.tasks[t := s.tasks[t].(state := TooLate(s.tasks[t].state, clock))])
        && pool.state == s.(tasks := pool.state.tasks, proxies := s.proxies[p := pool.state.proxies[p]])
      ensures Later(old(pool.Past()), pool.Past())
    {
      hide Next, IsRun, Start, Later, T.TaskState.Terminal, T.TaskState.Expired;
      Known(batch);
      var state := pool.state.tasks[batch[k]].state;
      ScreenShape(pool.state, p, clock);
      pool.Do(Screen(p, clock));
      kept := !(state.status == T.Done || state.status == T.Failed)
              && !(state.deadline.Some? && state.deadline.value <= clock);
    }

    /** The tasks of a batch that are to be sent: those without an outcome that are not late. */
    method ScreenAll(batch: Batch) returns (live: Batch)
      requires Dispatching(Screening(0), batch)
      modifies pool
      ensures Dispatching(Screening(|live|), live) && forall t | t in live :: t in batch
      ensures forall t | t in batch && t !in live :: Fated(pool.Past(), old(|pool.steps|), p, t, Resolved)
      ensures Later(old(pool.Past()), pool.Past())
    {
      hide Next, IsRun, Start, Later, Fated, TooLate;
      live := batch;
      var k := 0;
      pool.Now();
      while k < |live|
        invariant k <= |live| && Dispatching(Screening(k), live) && forall t | t in live :: t in batch
        invariant Later(old(pool.Past()), pool.Past())
        invariant forall t | t in batch && t !in live :: Fated(pool.Past(), old(|pool.steps|), p, t, Resolved)
        decreases |live| - k
      {
        ghost var mid := pool.Past();
        PauseDispatch(Screening(k), live);
        ghost var paused := pool.Past();
        var clock: Time := *;
        var kept := ScreenOne(k, live, clock);
        LaterThrice(old(pool.Past()), mid, paused, pool.Past());
        ScreenedOut(batch, live, k, kept, mid, old(|pool.steps|));
        if kept {
          k := k + 1;
        } else {
          live := live[..k] + live[k + 1..];
        }
      }
    }

    lemma LaterThrice(a: History, b: History, c: History, d: History)
      requires Later(a, b) && Later(b, c) && Later(c, d)
      ensures Later(a, d) && Later(b, d)
    {
      hide Later;
      LaterBoth(b, c, d);
      LaterBoth(a, b, d);
    }

    lemma ScreenedOut(batch: Batch, live: Batch, k: nat, kept: bool, mid: History, since: nat)
      requires pool.Valid() && k < |live| && Later(mid, pool.Past()) && live[k] in pool.state.tasks
      requires kept || Over(pool.state.tasks[live[k]].state)
      requires forall t | t in batch && t !in live :: Fated(mid, since, p, t, Resolved)
      ensures forall t | t in batch && t !in if kept then live else live[..k] + live[k + 1..] ::
                Fated(pool.Past(), since, p, t, Resolved)
    {
      hide Start, Later;
      pool.Now();
      var left := if kept then live else live[..k] + live[k + 1..];
      forall t | t in batch && t !in left ensures Fated(pool.Past(), since, p, t, Resolved) {
        if t in live {
          assert live == live[..k] + [live[k]] + live[k + 1..];
          assert t == live[k];
        } else {
          FatedLater(mid, pool.Past(), since, p, t, Resolved);
        }
      }
    }

    /** The longest remaining budget of the tasks that have one, or 35 seconds. */
    method RpcTimeout(batch: Batch, now: Time) returns (timeout: Time)
      requires forall t | t in batch :: t in pool.state.tasks
      ensures timeout <= 0 <==> OutOfTime(pool.state.tasks, batch, now)
    {
      var longest: Option<Time> := None;
      for i := 0 to |batch|
        invariant longest.None? <==> forall t | t in batch[..i] :: pool.state.tasks[t].state.deadline.None?
        invariant longest.Some? ==> longest.value >= 0
        invariant longest.Some? ==>
                    (longest.value == 0 <==> forall t | t in batch[..i] && pool.state.tasks[t].state.deadline.Some? ::
                       Late(pool.state.tasks[t].state, now))
      {
        var deadline := pool.state.tasks[batch[i]].state.deadline;
        if deadline.Some? {
          var left := if deadline.value > now then deadline.value - now else 0;
          longest := Some(if longest.Some? && longest.value > left then longest.value else left);
        }
        assert batch[..i + 1] == batch[..i] + [batch[i]];
      }
      assert batch[..|batch|] == batch;
      timeout := if longest.Some? then longest.value else 35;
    }

    /** What the dispatch thread does with the tasks that are left: nothing is left, the proxy has been stopped,
        no time is left, or they are marked and sent in one call. */
    method BeginCall(batch: Batch, clock: Time) returns (begun: Begun)
      requires Dispatching(Screening(|batch|), batch)
      modifies pool
      ensures
        var s, q := old(pool.state), old(pool.state.proxies[p]);
        if batch == [] then
          begun == Nothing && Dispatching(Idle, []) && pool.state == s.(proxies := s.proxies[p := q.(phase := Idle)])
        else if q.stopped then
          && begun == Retiring(q.retryOnStop) && Working(Dispatcher, batch, None, q.retryOnStop)
          && pool.state == s.(proxies := s.proxies[p := q.(phase := HandingOff(q.retryOnStop))])
        else if OutOfTime(s.tasks, batch, clock) then
          && begun == Expired && Dispatching(Idle, [])
          && pool.state == s.(
               proxies := s.proxies[p := q.(phase := Idle, active := Hand([], None))],
               tasks := map t | t in s.tasks ::
                 if t in batch then s.tasks[t].(state := TooLate(Starting(s.tasks[t].state, clock), clock))
                 else s.tasks[t])
        else
          && begun == Called && Dispatching(InRpc, batch)
          && pool.state == s.(
               proxies := s.proxies[p := q.(phase := InRpc)],
               tasks := map t | t in s.tasks ::
                 if t in batch then
                   s.tasks[t].(state := Starting(s.tasks[t].state, clock),
                               rpcs := s.tasks[t].rpcs + [Rpc(q.wid, s.tasks[t].state.deadline)])
                 else s.tasks[t])
      ensures Later(old(pool.Past()), pool.Past()) && forall t | t in batch :: t in pool.state.tasks
    {
      hide Next, IsRun, Start, Later, OutOfTime, TooLate, Starting;
      Known(batch);
      var q := pool.state.proxies[p];
      var timeout := RpcTimeout(batch, clock);
      BeginShape(pool.state, p, clock);
      pool.Do(Begin(p, clock));
      begun := if batch == [] then Nothing
               else if q.stopped then Retiring(q.retryOnStop)
               else if timeout <= 0 then Expired
               else Called;
    }

    /** One result of the response, for a task of the batch. */
    method RecordOne(batch: Batch, reply: Reply, clock: Time)
      requires Dispatching(InRpc, batch) && reply.task in batch
      modifies pool
      ensures Dispatching(InRpc, batch) && Later(old(pool.Past()), pool.Past())
      ensures reply.task in pool.state.tasks && Over(pool.state.tasks[reply.task].state)
      ensures var s, t := old(pool.state), reply.task;
        && t in s.tasks
        && pool.state == s.(tasks := s.tasks[t := s.tasks[t].(state :=
             if reply.success then Completing(s.tasks[t].state, clock, reply.text)
             else Failing(s.tasks[t].state, clock, reply.text, if reply.code == "" then None else Some(reply.code)))])
    {
      hide Next, IsRun, Start, Later, T.Move;
      Known(batch);
      var op := if reply.success then T.Finish(clock, Some(reply.text))
                else T.Fail(clock, reply.text, if reply.code != "" then Some(reply.code) else None);
      MoveMeans(pool.state.tasks[reply.task].state, clock);
      AnswerShape(pool.state, p, reply.task, op);
      pool.Do(Answer(p, reply.task, op));
    }

    /** Read the results; a result for a task that was not asked for is ignored. */
    method RecordAll(batch: Batch, results: seq<Reply>)
      requires Dispatching(InRpc, batch)
      modifies pool
      ensures Dispatching(InRpc, batch) && Later(old(pool.Past()), pool.Past())
      ensures forall r | r in results && r.task in batch :: Fated(pool.Past(), old(|pool.steps|), p, r.task, Resolved)
    {
      hide Next, IsRun, Start, Later, Fated, Failing, Completing;
      pool.Now();
      for i := 0 to |results|
        invariant Dispatching(InRpc, batch) && Later(old(pool.Past()), pool.Past())
        invariant forall r | r in results[..i] && r.task in batch ::
                    Fated(pool.Past(), old(|pool.steps|), p, r.task, Resolved)
      {
        ghost var mid := pool.Past();
        PauseDispatch(InRpc, batch);
        ghost var paused := pool.Past();
        var clock: Time := *;
        if results[i].task in batch {
          RecordOne(batch, results[i], clock);
          Recorded(results[i].task, old(|pool.steps|));
        } else {
          pool.Now();
        }
        LaterThrice(old(pool.Past()), mid, paused, pool.Past());
        forall r | r in results[..i] && r.task in batch
          ensures Fated(pool.Past(), old(|pool.steps|), p, r.task, Resolved)
        {
          FatedLater(mid, pool.Past(), old(|pool.steps|), p, r.task, Resolved);
        }
      }
      assert results[..|results|] == results;
    }

    lemma Recorded(t: TaskId, since: nat)
      requires pool.Valid() && t in pool.state.tasks && Over(pool.state.tasks[t].state)
      ensures pool.Past().Fits() && Fated(pool.Past(), since, p, t, Resolved)
    {
      hide Start;
      pool.Now();
    }

    /** The end of a response: what it left out is failed if it is durable, and otherwise forgotten. */
    method EndCall(batch: Batch, clock: Time)
      requires Dispatching(InRpc, batch)
      modifies pool
      ensures Dispatching(Idle, []) && Later(old(pool.Past()), pool.Past())
      ensures var s, q := old(pool.state), old(pool.state.proxies[p]);
        && (forall t | t in batch :: t in s.tasks)
        && pool.state == s.(
             proxies := s.proxies[p := q.(phase := Idle, active := Hand([], None))],
             tasks := map t | t in s.tasks ::
               if t in batch && NeverHandedOver(s.tasks[t].kind) then
                 s.tasks[t].(state := Failing(s.tasks[t].state, clock, "worker omitted task result",
                                              Some("transport_error")))
               else s.tasks[t],
             omitted := s.omitted + set t | t in batch && t in s.tasks && !Over(s.tasks[t].state)
                                            && !NeverHandedOver(s.tasks[t].kind))
    {
      hide Next, IsRun, Start, Later, Failing;
      Known(batch);
      EndResponseShape(pool.state, p, clock);
      pool.Do(EndResponse(p, clock));
    }

    /** The call ran into its own deadline. */
    method ExpireCall(batch: Batch, clock: Time)
      requires Dispatching(InRpc, batch)
      modifies pool
      ensures Dispatching(Idle, []) && Later(old(pool.Past()), pool.Past())
      ensures var s, q := old(pool.state), old(pool.state.proxies[p]);
        && (forall t | t in batch :: t in s.tasks)
        && pool.state == s.(
             proxies := s.proxies[p := q.(phase := Idle, active := Hand([], None))],
             tasks := map t | t in s.tasks ::
               if t in batch then s.tasks[t].(state := TooLate(s.tasks[t].state, clock)) else s.tasks[t])
    {
      hide Next, IsRun, Start, Later, TooLate;
      Known(batch);
      DeadlineErrorShape(pool.state, p, clock);
      pool.Do(DeadlineError(p, clock));
    }

    /** Any other failure: the tasks may be handed over if the worker can not be reached, or if the proxy was
        removed and its call was cancelled by that. */
    method FailCall(batch: Batch, ending: Ending) returns (retry: bool)
      requires Dispatching(InRpc, batch) && !ending.Response? && !ending.DeadlineExceeded?
      modifies pool
      ensures Working(Dispatcher, batch, None, retry) && Later(old(pool.Past()), pool.Past())
      ensures var s, q := old(pool.state), old(pool.state.proxies[p]);
        && (retry <==> MayHandOver(ending, q.stopped, q.retryOnStop))
        && pool.state == s.(proxies := s.proxies[p := q.(phase := HandingOff(retry))])
    {
      hide Next, IsRun, Start, Later;
      var q := pool.state.proxies[p];
      var retiring := q.stopped && q.retryOnStop;
      retry := match ending
        case Unavailable => !q.stopped || retiring
        case Cancelled => retiring
        case ChannelClosed => retiring
        case _ => false;
      RpcFailedShape(pool.state, p, retry);
      pool.Do(RpcFailed(p, retry));
    }

    /** The dispatch thread is free again. */
    method EndHandoff(retry: bool)
      requires Working(Dispatcher, [], None, retry)
      modifies pool
      ensures Dispatching(Idle, []) && Later(old(pool.Past()), pool.Past())
      ensures var s := old(pool.state);
        pool.state == s.(proxies := s.proxies[p := s.proxies[p].(phase := Idle)])
    {
      hide Next, IsRun, Start, Later;
      EndBatchShape(pool.state, p);
      pool.Do(EndBatch(p));
    }

    // -------------------------------------------------------------------------------------------
    // Finishing and handing over
    // -------------------------------------------------------------------------------------------

    lemma KnownHead(who: Thread, tasks: seq<TaskId>, offer: Option<Offer>, retry: bool)
      requires Working(who, tasks, offer, retry) && tasks != []
      ensures tasks[0] in pool.state.tasks && HasHead(pool.state, p, who)
      ensures pool.state.proxies[p].HandOf(who) == Hand(tasks, offer)
      ensures pool.state.proxies[p].MayRetry(who) == retry
      ensures offer.Some? ==> !NeverHandedOver(pool.state.tasks[tasks[0]].kind)
      ensures offer.Some? ==> forall c | c in offer.value.candidates ::
                && c in pool.state.proxies && c != p && pool.state.proxies[c].wid != pool.state.proxies[p].wid
                && pool.state.proxies[c].wid in pool.state.kinds
                && pool.state.tasks[tasks[0]].kind in pool.state.kinds[pool.state.proxies[c].wid]
    {
      hide Start, Conserved, Counted, IsRun;
      pool.Sound();
      assert ProxyOk(pool.state, pool.state.proxies[p]);
    }

    /** The end of a task that is not to be handed over. */
    method ResolveHead(who: Thread, tasks: seq<TaskId>, retry: bool, clock: Time, error: string)
      requires Working(who, tasks, None, retry) && tasks != [] && tasks[0] in pool.state.tasks
      requires var r := pool.state.tasks[tasks[0]];
               Over(r.state) || Late(r.state, clock) || NeverHandedOver(r.kind) || !retry
      modifies pool
      ensures Working(who, tasks[1..], None, retry) && Later(old(pool.Past()), pool.Past())
      ensures Stepped(old(pool.Past()), pool.Past(), Resolve(p, who, clock, error))
      ensures var s, t := old(pool.state), tasks[0];
        pool.state == s.(proxies := s.proxies[p := Rest(s.proxies[p], who)],
                         tasks := s.tasks[t := s.tasks[t].(state := Finishing(s.tasks[t], clock, error))])
    {
      hide Next, IsRun, Start, Later, Finishing;
      KnownHead(who, tasks, None, retry);
      ResolveShape(pool.state, p, who, clock, error);
      pool.Do(Resolve(p, who, clock, error));
    }

    /** The choice of try_resubmit: the other ready members that support the task. */
    method FindCandidates(who: Thread, tasks: seq<TaskId>, clock: Time) returns (found: set<ProxyId>)
      requires Working(who, tasks, None, true) && tasks != [] && tasks[0] in pool.state.tasks && !pool.state.stopping
      requires var r := pool.state.tasks[tasks[0]];
               !Over(r.state) && !Late(r.state, clock) && !NeverHandedOver(r.kind)
      modifies pool
      ensures Working(who, tasks, Some(Offer(found, false)), true) && Later(old(pool.Past()), pool.Past())
      ensures Stepped(old(pool.Past()), pool.Past(), Step.Candidates(p, who, clock))
      ensures var s := old(pool.state);
        && (forall c :: c in found <==> Candidate(s, tasks[0], s.proxies[p].wid, c))
        && pool.state == s.(proxies := s.proxies[p := Offering(s.proxies[p], who, Offer(found, false))])
    {
      hide Next, IsRun, Start, Later, CandidatesFor;
      KnownHead(who, tasks, None, true);
      var s, q := pool.state, pool.state.proxies[p];
      found := CandidatesFor(s, tasks[0], q.wid);
      CandidatesShape(s, p, who, clock);
      pool.Do(Step.Candidates(p, who, clock));
    }

    /** Reserve the task's only retry; a task that has none left, or that is over or late, ends here. */
    method ReserveHead(who: Thread, tasks: seq<TaskId>, found: set<ProxyId>, retry: bool, clock: Time, error: string)
      returns (reserved: bool)
      requires Working(who, tasks, Some(Offer(found, false)), retry) && tasks != [] && found != {}
      modifies pool
      ensures Later(old(pool.Past()), pool.Past())
      ensures Stepped(old(pool.Past()), pool.Past(), Step.Reserve(p, who, clock, error))
      ensures if reserved then Working(who, tasks, Some(Offer(found, true)), retry)
              else Working(who, tasks[1..], None, retry)
      ensures
        var s, t := old(pool.state), tasks[0];
        && t in s.tasks && t in pool.state.tasks && (reserved || Over(pool.state.tasks[t].state))
        && var r := s.tasks[t];
        && (reserved <==> !Over(r.state) && !Late(r.state, clock) && r.state.retries == 0)
        && pool.state ==
           if reserved then
             s.(proxies := s.proxies[p := Offering(s.proxies[p], who, Offer(found, true))],
                tasks := s.tasks[t := r.(state := r.state.(retries := 1))])
           else
             s.(proxies := s.proxies[p := Rest(s.proxies[p], who)],
                tasks := s.tasks[t := r.(state := Failing(r.state, clock, error, None))])
    {
      hide Next, IsRun, Start, Later;
      KnownHead(who, tasks, Some(Offer(found, false)), retry);
      var r := pool.state.tasks[tasks[0]].state;
      reserved := !(r.status == T.Done || r.status == T.Failed) && !(r.deadline.Some? && r.deadline.value <= clock)
                  && r.retries < 1;
      ReservationShape(pool.state, p, who, clock, error);
      pool.Do(Step.Reserve(p, who, clock, error));
    }

    /** try_submit at one of the candidates. */
    method TryCandidate(who: Thread, tasks: seq<TaskId>, found: set<ProxyId>, retry: bool, c: ProxyId)
      returns (accepted: bool)
      requires Working(who, tasks, Some(Offer(found, true)), retry) && tasks != [] && c in found
      modifies pool
      ensures Later(old(pool.Past()), pool.Past())
      ensures Stepped(old(pool.Past()), pool.Past(), TryNext(p, who, c))
      ensures if accepted then Working(who, tasks[1..], None, retry)
              else Working(who, tasks, Some(Offer(found - {c}, true)), retry)
      ensures
        var s, t := old(pool.state), tasks[0];
        && c in s.proxies && c != p && (accepted <==> HasRoom(s.proxies[c]))
        && (accepted ==> Handover(s, TryNext(p, who, c), pool.state, p, t, c))
        && pool.state == s.(proxies :=
             if accepted then
               s.proxies[p := Rest(s.proxies[p], who)][c := s.proxies[c].(queue := s.proxies[c].queue + [[t]])]
             else s.proxies[p := Offering(s.proxies[p], who, Offer(found - {c}, true))])
    {
      hide Next, IsRun, Start, Later;
      KnownHead(who, tasks, Some(Offer(found, true)), retry);
      var q := pool.state.proxies[c];
      accepted := !q.stopped && q.ready && |q.queue| + (if q.phase != Idle then 1 else 0) < 2;
      TryNextShape(pool.state, p, who, c);
      pool.Do(TryNext(p, who, c));
    }

    /** No handoff is possible any more: the task fails. */
    method GiveUpHead(who: Thread, tasks: seq<TaskId>, offer: Option<Offer>, retry: bool, clock: Time, error: string)
      requires Working(who, tasks, offer, retry) && tasks != [] && tasks[0] in pool.state.tasks
      requires !NeverHandedOver(pool.state.tasks[tasks[0]].kind)
      requires match offer case Some(o) => o.candidates == {} case None => pool.state.stopping && retry
      modifies pool
      ensures Working(who, tasks[1..], None, retry) && Later(old(pool.Past()), pool.Past())
      ensures Stepped(old(pool.Past()), pool.Past(), GiveUp(p, who, clock, error))
      ensures var s, t := old(pool.state), tasks[0];
        && t in pool.state.tasks && Over(pool.state.tasks[t].state)
        && pool.state == s.(proxies := s.proxies[p := Rest(s.proxies[p], who)],
             tasks := s.tasks[t := s.tasks[t].(state := Failing(s.tasks[t].state, clock, error, None))])
    {
      hide Next, IsRun, Start, Later;
      KnownHead(who, tasks, offer, retry);
      GiveUpShape(pool.state, p, who, clock, error);
      pool.Do(GiveUp(p, who, clock, error));
    }

    /** _finish_or_retry, for the first task of a thread. */
    method FinishHead(who: Thread, tasks: seq<TaskId>, retry: bool, error: string) returns (ghost fate: Fate)
      requires Working(who, tasks, None, retry) && tasks != []
      modifies pool
      ensures Working(who, tasks[1..], None, retry) && Later(old(pool.Past()), pool.Past())
      ensures Ended(pool.Past(), old(|pool.steps|), p, tasks[0], fate, retry)
    {
      hide Next, IsRun, Start, Later, Fated, Can, Finishing, Over, Late, Excused, Stepped;
      ghost var past := pool.Past();
      PauseWork(who, tasks, None, retry);
      ghost var paused := pool.Past();
      KnownHead(who, tasks, None, retry);
      var clock: Time := *;
      var r := pool.state.tasks[tasks[0]];
      if Over(r.state) || Late(r.state, clock) || NeverHandedOver(r.kind) || !retry {
        ResolveHead(who, tasks, retry, clock, error);
        fate := Resolved;
        ResolvedNow(paused, pool.Past(), who, tasks[0], clock, error, retry);
      } else {
        fate := Resubmit(who, tasks, clock, error);
      }
      LaterBoth(past, paused, pool.Past());
      EndedSince(pool.Past(), |past.steps|, |paused.steps|, p, tasks[0], fate, retry);
    }

    lemma ResolvedNow(a: History, b: History, who: Thread, t: TaskId, clock: Time, error: string, retry: bool)
      requires Stepped(a, b, Resolve(p, who, clock, error)) && t in a.Last().tasks && t in b.Last().tasks
      requires b.Last().tasks[t].state == Finishing(a.Last().tasks[t], clock, error) && p in a.Last().proxies
      requires var r := a.Last().tasks[t]; Over(r.state) || Late(r.state, clock) || NeverHandedOver(r.kind) || !retry
      ensures Ended(b, |a.steps|, p, t, Resolved, retry)
    {
      if retry {
        assert Excused(b, |a.steps|, p, t);
      }
    }

    /** try_resubmit, and what follows it if it is refused. */
    method Resubmit(who: Thread, tasks: seq<TaskId>, clock: Time, error: string) returns (ghost fate: Fate)
      requires Working(who, tasks, None, true) && tasks != [] && tasks[0] in pool.state.tasks
      requires var r := pool.state.tasks[tasks[0]];
               !Over(r.state) && !Late(r.state, clock) && !NeverHandedOver(r.kind)
      modifies pool
      ensures Working(who, tasks[1..], None, true) && Later(old(pool.Past()), pool.Past())
      ensures Ended(pool.Past(), old(|pool.steps|), p, tasks[0], fate, true)
    {
      hide Next, IsRun, Start, Later, Fated, Can, Over, Late, Excused, Stepped, Candidate;
      ghost var past := pool.Past();
      pool.Now();
      if pool.state.stopping {
        GiveUpHead(who, tasks, None, true, clock, error);
        pool.Now();
        GivenUp(past, pool.Past(), tasks[0], GiveUp(p, who, clock, error));
        return Resolved;
      }
      var found := FindCandidates(who, tasks, clock);
      ghost var chosen := pool.Past();
      ChosenAt(past, chosen, tasks[0], found, Step.Candidates(p, who, clock));
      if found == {} {
        fate := GiveUpLater(who, tasks, Offer(found, false), error, past, found);
        return;
      }
      PauseWork(who, tasks, Some(Offer(found, false)), true);
      ghost var paused := pool.Past();
      var later: Time := *;
      var reserved := ReserveHead(who, tasks, found, true, later, error);
      LaterThrice(past, chosen, paused, pool.Past());
      ChosenLater(chosen, pool.Past(), |past.steps|, tasks[0], found);
      if !reserved {
        NotReserved(paused, pool.Past(), who, tasks[0], later, error);
        EndedSince(pool.Past(), |past.steps|, |paused.steps|, p, tasks[0], Resolved, true);
        return Resolved;
      }
      fate := OfferAround(who, tasks, found, error, past);
    }

    /** Offer the task to one candidate after the other. */
    method OfferAround(who: Thread, tasks: seq<TaskId>, found: set<ProxyId>, error: string, ghost past: History)
      returns (ghost fate: Fate)
      requires Working(who, tasks, Some(Offer(found, true)), true) && tasks != []
      requires Later(past, pool.Past()) && ChosenFrom(pool.Past(), |past.steps|, tasks[0], found)
      modifies pool
      ensures Working(who, tasks[1..], None, true) && Later(past, pool.Past())
      ensures Ended(pool.Past(), |past.steps|, p, tasks[0], fate, true)
    {
      hide Next, IsRun, Start, Later, Fated, Can, Excused, Stepped, Refused, ChosenFrom, Handover, HasRoom;
      var left := found;
      while left != {}
        invariant left <= found && Working(who, tasks, Some(Offer(left, true)), true) && Later(past, pool.Past())
        invariant ChosenFrom(pool.Past(), |past.steps|, tasks[0], found)
        invariant forall c | c in found - left :: Refused(pool.Past(), |past.steps|, c)
      {
        ghost var before := pool.Past();
        PauseWork(who, tasks, Some(Offer(left, true)), true);
        ghost var paused := pool.Past();
        var c :| c in left;
        var accepted := TryCandidate(who, tasks, left, true, c);
        LaterThrice(past, before, paused, pool.Past());
        ChosenLater(before, pool.Past(), |past.steps|, tasks[0], found);
        if accepted {
          HandedNow(paused, pool.Past(), who, tasks[0], c);
          EndedSince(pool.Past(), |past.steps|, |paused.steps|, p, tasks[0], HandedTo(c), true);
          return HandedTo(c);
        }
        RefusedAll(before, paused, pool.Past(), |past.steps|, found, left, c, TryNext(p, who, c));
        left := left - {c};
      }
      fate := GiveUpLater(who, tasks, Offer(left, true), error, past, found);
    }

    /** No candidate is left. */
    method GiveUpLater(who: Thread, tasks: seq<TaskId>, offer: Offer, error: string, ghost past: History,
                       ghost found: set<ProxyId>) returns (ghost fate: Fate)
      requires Working(who, tasks, Some(offer), true) && tasks != [] && offer.candidates == {}
      requires Later(past, pool.Past()) && ChosenFrom(pool.Past(), |past.steps|, tasks[0], found)
      requires forall c | c in found :: Refused(pool.Past(), |past.steps|, c)
      modifies pool
      ensures Working(who, tasks[1..], None, true) && Later(past, pool.Past())
      ensures fate == Resolved && Ended(pool.Past(), |past.steps|, p, tasks[0], fate, true)
    {
      hide Next, IsRun, Start, Later, Fated, Can, Excused, Stepped, Refused, ChosenFrom;
      ghost var before := pool.Past();
      PauseWork(who, tasks, Some(offer), true);
      ghost var paused := pool.Past();
      KnownHead(who, tasks, Some(offer), true);
      var clock: Time := *;
      GiveUpHead(who, tasks, Some(offer), true, clock, error);
      LaterThrice(past, before, paused, pool.Past());
      ChosenLater(before, pool.Past(), |past.steps|, tasks[0], found);
      forall c | c in found ensures Refused(pool.Past(), |past.steps|, c) {
        RefusedLater(before, pool.Past(), |past.steps|, c);
      }
      pool.Now();
      GivenUpAll(pool.Past(), |past.steps|, tasks[0], found);
      fate := Resolved;
    }

    /** The candidates are those that were there at the given step. */
    ghost predicate ChosenFrom(past: History, i: nat, t: TaskId, found: set<ProxyId>)
      ensures ChosenFrom(past, i, t, found) ==> past.Fits() && i < |past.steps|
    {
      && past.Fits() && i < |past.steps| && t in past.states[i].tasks && p in past.states[i].proxies
      && forall c | Candidate(past.states[i], t, past.states[i].proxies[p].wid, c) :: c in found
    }

    lemma ChosenLater(a: History, b: History, i: nat, t: TaskId, found: set<ProxyId>)
      requires Later(a, b) && ChosenFrom(a, i, t, found)
      ensures ChosenFrom(b, i, t, found)
    {
      hide Candidate;
      assert b.states[i] == a.states[i];
    }

    lemma ChosenAt(a: History, b: History, t: TaskId, found: set<ProxyId>, step: Step)
      requires Stepped(a, b, step) && t in a.Last().tasks && p in a.Last().proxies
      requires forall c :: c in found <==> Candidate(a.Last(), t, a.Last().proxies[p].wid, c)
      ensures ChosenFrom(b, |a.steps|, t, found)
    {
      hide Candidate;
    }

    lemma GivenUpAll(past: History, i: nat, t: TaskId, found: set<ProxyId>)
      requires ChosenFrom(past, i, t, found) && forall c | c in found :: Refused(past, i, c)
      requires t in past.Last().tasks && Over(past.Last().tasks[t].state)
      ensures Ended(past, i, p, t, Resolved, true)
    {
      hide Candidate, Refused;
      assert Excused(past, i, p, t);
    }

    lemma GivenUp(a: History, b: History, t: TaskId, step: Step)
      requires Stepped(a, b, step) && a.Last().stopping && t in a.Last().tasks
      requires p in a.Last().proxies && t in b.Last().tasks && Over(b.Last().tasks[t].state)
      ensures Ended(b, |a.steps|, p, t, Resolved, true)
    {
      hide Candidate, Refused;
      assert Excused(b, |a.steps|, p, t);
    }

    lemma NotReserved(a: History, b: History, who: Thread, t: TaskId, clock: Time, error: string)
      requires Stepped(a, b, Step.Reserve(p, who, clock, error)) && t in a.Last().tasks && p in a.Last().proxies
      requires t in b.Last().tasks && Over(b.Last().tasks[t].state)
      requires var r := a.Last().tasks[t]; Over(r.state) || Late(r.state, clock) || r.state.retries != 0
      ensures Ended(b, |a.steps|, p, t, Resolved, true)
    {
      hide Candidate, Refused;
      assert Excused(b, |a.steps|, p, t);
    }

    lemma HandedNow(a: History, b: History, who: Thread, t: TaskId, c: ProxyId)
      requires Stepped(a, b, TryNext(p, who, c))
      requires Handover(a.Last(), TryNext(p, who, c), b.Last(), p, t, c)
      ensures Ended(b, |a.steps|, p, t, HandedTo(c), true)
    {
      hide Handover;
      assert HandedAt(b, |a.steps|, p, t, c);
    }

    lemma RefusedLater(a: History, b: History, i: nat, c: ProxyId)
      requires Later(a, b) && Refused(a, i, c)
      ensures Refused(b, i, c)
    {
      hide HasRoom;
      var k :| i < k < |a.steps| && c in a.states[k].proxies && !HasRoom(a.states[k].proxies[c]);
      assert b.states[k] == a.states[k];
    }

    lemma RefusedAll(a: History, b: History, d: History, i: nat, found: set<ProxyId>, left: set<ProxyId>, c: ProxyId,
                     step: Step)
      requires Later(a, b) && Later(b, d) && Stepped(b, d, step) && i < |a.steps|
      requires c in b.Last().proxies && !HasRoom(b.Last().proxies[c])
      requires forall x | x in found - left :: Refused(a, i, x)
      ensures forall x | x in found - (left - {c}) :: Refused(d, i, x)
    {
      hide HasRoom, Later, Refused;
      LaterBoth(a, b, d);
      forall x | x in found - (left - {c}) ensures Refused(d, i, x) {
        if x == c {
          RefusedNow(b, d, i, c, step);
        } else {
          RefusedLater(a, d, i, x);
        }
      }
    }

    lemma RefusedNow(b: History, d: History, i: nat, c: ProxyId, step: Step)
      requires Stepped(b, d, step) && i < |b.steps| && c in b.Last().proxies && !HasRoom(b.Last().proxies[c])
      ensures Refused(d, i, c)
    {
      hide HasRoom;
      assert d.states[|b.steps|] == b.Last();
    }

    /** Finish or hand over all the tasks of a thread, in order. */
    method FinishAll(who: Thread, tasks: seq<TaskId>, retry: bool, error: string)
      returns (ghost fates: map<TaskId, Fate>)
      requires Working(who, tasks, None, retry)
      modifies pool
      ensures Working(who, [], None, retry) && Later(old(pool.Past()), pool.Past())
      ensures AllEnded(pool.Past(), old(|pool.steps|), p, tasks, fates, retry)
    {
      hide Start, IsRun, Later, Ended, ProxyWorker.Working;
      fates := map[];
      var left := tasks;
      WorkingIsValid(who, tasks, None, retry);
      pool.Now();
      while left != []
        invariant |left| <= |tasks| && left == tasks[|tasks| - |left|..]
        invariant Working(who, left, None, retry) && Later(old(pool.Past()), pool.Past())
        invariant AllEnded(pool.Past(), old(|pool.steps|), p, tasks[..|tasks| - |left|], fates, retry)
      {
        ghost var mid := pool.Past();
        ghost var fate := FinishHead(who, left, retry, error);
        LaterBoth(old(pool.Past()), mid, pool.Past());
        EndedSince(pool.Past(), old(|pool.steps|), |mid.steps|, p, left[0], fate, retry);
        OneMoreEnded(mid, pool.Past(), old(|pool.steps|), tasks[..|tasks| - |left|], left[0], fates, fate, retry);
        assert tasks[..|tasks| - |left|] + [left[0]] == tasks[..|tasks| - |left[1..]|];
        fates := fates[left[0] := fate];
        left := left[1..];
      }
      assert tasks[..|tasks|] == tasks;
    }

    lemma WorkingIsValid(who: Thread, tasks: seq<TaskId>, offer: Option<Offer>, retry: bool)
      requires Working(who, tasks, offer, retry)
      ensures pool.Valid() && p in pool.state.proxies
    {
    }

    lemma OneMoreEnded(a: History, b: History, since: nat, tasks: seq<TaskId>, t: TaskId, fates: map<TaskId, Fate>,
                       fate: Fate, retry: bool)
      requires Later(a, b) && AllEnded(a, since, p, tasks, fates, retry) && Ended(b, since, p, t, fate, retry)
      ensures AllEnded(b, since, p, tasks + [t], fates[t := fate], retry)
    {
      hide Ended, Later;
      forall u | u in tasks + [t] ensures Ended(b, since, p, u, fates[t := fate][u], retry) {
        if u != t {
          EndedLater(a, b, since, p, u, fates[u], retry);
        }
      }
    }

    // -------------------------------------------------------------------------------------------
    // A batch from beginning to end
    // -------------------------------------------------------------------------------------------

    /** _process: screen the batch, send what is left in one call, and reconcile. Afterwards nothing is in the
        hand of the dispatch thread. Every task of the batch has an outcome, or was handed over where that was
        allowed, or was left out by the response. */
    method Process(batch: Batch) returns (ghost fates: map<TaskId, Fate>, ghost outcome: Outcome)
      requires Dispatching(Screening(0), batch)
      modifies pool
      ensures Dispatching(Idle, []) && Later(old(pool.Past()), pool.Past())
      ensures Reconciled(pool.Past(), old(|pool.steps|), p, batch, fates, outcome)
    {
      hide Start, IsRun, Later, Fated, Reconciled;
      ghost var past := pool.Past();
      pool.Now();
      var live := ScreenAll(batch);
      ghost var screened := pool.Past();
      pool.Now();
      ghost var sent;
      sent, outcome := Dispatch(live);
      LaterBoth(past, screened, pool.Past());
      fates := map t | t in batch :: if t in sent then sent[t] else Resolved;
      Joined(screened, pool.Past(), |past.steps|, batch, live, sent, fates, outcome);
    }

    lemma Joined(a: History, b: History, since: nat, batch: Batch, live: Batch, sent: map<TaskId, Fate>,
                 fates: map<TaskId, Fate>, outcome: Outcome)
      requires Later(a, b) && |a.steps| < |b.steps| && since <= |a.steps| && p in a.Last().proxies
      requires forall t | t in live :: t in batch
      requires forall t | t in batch && t !in live :: Fated(a, since, p, t, Resolved)
      requires Reconciled(b, |a.steps|, p, live, sent, outcome)
      requires fates == map t | t in batch :: if t in sent then sent[t] else Resolved
      ensures Reconciled(b, since, p, batch, fates, outcome)
    {
      hide Fated, Ended, Excused, Later;
      ReconciledSince(b, since, |a.steps|, p, live, sent, outcome);
      forall t | t in batch ensures Settled(b, since, p, t, fates[t], outcome) {
        if t in live {
          assert t in sent;
        } else {
          assert t !in sent;
          FatedLater(a, b, since, p, t, Resolved);
          AlreadyOver(a, b, since, t);
        }
      }
    }

    /** What is done with the tasks that passed the screening. */
    method Dispatch(live: Batch) returns (ghost fates: map<TaskId, Fate>, ghost outcome: Outcome)
      requires Dispatching(Screening(|live|), live)
      modifies pool
      ensures Dispatching(Idle, []) && Later(old(pool.Past()), pool.Past()) && old(|pool.steps|) < |pool.steps|
      ensures Reconciled(pool.Past(), old(|pool.steps|), p, live, fates, outcome)
    {
      hide Start, IsRun, Later, Reconciled, OutcomeOk, OutOfTime, TooLate, Over, Starting;
      ghost var past := pool.Past();
      pool.Now();
      PauseDispatch(Screening(|live|), live);
      ghost var paused := pool.Past();
      pool.Now();
      var clock: Time := *;
      var begun := BeginCall(live, clock);
      ghost var ready := pool.Past();
      pool.Now();
      LaterBoth(past, paused, ready);
      BegunLater(paused, ready);
      outcome := Quiet;
      match begun {
        case Nothing =>
          fates := map[];
          AllQuiet(ready, |past.steps|, live, fates);
        case Expired =>
          fates := map t | t in live :: Resolved;
          TooLateIsOver();
          AllQuiet(ready, |past.steps|, live, fates);
        case Retiring(retry) =>
          outcome := Stopped(retry, |paused.steps|);
          StoppedAt(paused, ready, |past.steps|, retry);
          fates := HandOff(live, retry, "worker removed", outcome, |past.steps|);
        case Called =>
          fates, outcome := Call(live);
          ReconciledSince(pool.Past(), |past.steps|, |ready.steps|, p, live, fates, outcome);
      }
      LaterBoth(past, ready, pool.Past());
    }

    lemma BegunLater(a: History, b: History)
      requires Later(a, b) && a.Last() != b.Last()
      ensures |a.steps| < |b.steps|
    {
    }

    lemma TooLateIsOver()
      ensures forall s, now :: Over(TooLate(s, now))
    {
    }

    lemma AllQuiet(past: History, since: nat, live: Batch, fates: map<TaskId, Fate>)
      requires past.Fits() && fates == map t | t in live :: Resolved
      requires forall t | t in live :: t in past.Last().tasks && Over(past.Last().tasks[t].state)
      ensures Reconciled(past, since, p, live, fates, Quiet)
    {
    }

    lemma StoppedAt(a: History, b: History, since: nat, retry: bool)
      requires Later(a, b) && since <= |a.steps| && p in a.Last().proxies
      requires a.Last().proxies[p].stopped && retry == a.Last().proxies[p].retryOnStop
      ensures OutcomeOk(b, since, p, Stopped(retry, |a.steps|))
    {
      assert b.states[|a.steps|] == a.Last();
    }

    lemma FailedAt(a: History, b: History, since: nat, ending: Ending, retry: bool)
      requires Later(a, b) && since <= |a.steps| && p in a.Last().proxies
      requires retry <==> MayHandOver(ending, a.Last().proxies[p].stopped, a.Last().proxies[p].retryOnStop)
      ensures OutcomeOk(b, since, p, Failed(ending, retry, |a.steps|))
    {
      hide MayHandOver;
      assert b.states[|a.steps|] == a.Last();
    }

    /** Finish or hand over the whole batch. */
    method HandOff(live: Batch, retry: bool, error: string, ghost outcome: Outcome, ghost since: nat)
      returns (ghost fates: map<TaskId, Fate>)
      requires Working(Dispatcher, live, None, retry) && since <= |pool.steps|
      requires (outcome.Stopped? || outcome.Failed?) && outcome.retry == retry
      requires OutcomeOk(pool.Past(), since, p, outcome)
      modifies pool
      ensures Dispatching(Idle, []) && Later(old(pool.Past()), pool.Past())
      ensures Reconciled(pool.Past(), since, p, live, fates, outcome)
    {
      hide Start, IsRun, Later, Reconciled, OutcomeOk, AllEnded, ProxyWorker.Working, ProxyWorker.Dispatching;
      ghost var past := pool.Past();
      fates := FinishAll(Dispatcher, live, retry, error);
      ghost var mid := pool.Past();
      ReconciledNow(past, mid, since, live, fates, outcome, retry);
      EndHandoff(retry);
      LaterBoth(past, mid, pool.Past());
      ReconciledLater(mid, pool.Past(), since, p, live, fates, outcome);
    }

    lemma ReconciledNow(a: History, b: History, since: nat, live: Batch, fates: map<TaskId, Fate>, outcome: Outcome,
                        retry: bool)
      requires Later(a, b) && since <= |a.steps| && OutcomeOk(a, since, p, outcome)
      requires (outcome.Stopped? || outcome.Failed?) && outcome.retry == retry
      requires AllEnded(b, |a.steps|, p, live, fates, retry)
      ensures Reconciled(b, since, p, live, fates, outcome)
    {
      hide Ended, Later;
      OutcomeLater(a, b, since, p, outcome);
      forall t | t in live ensures Ended(b, since, p, t, fates[t], retry) {
        EndedSince(b, since, |a.steps|, p, t, fates[t], retry);
      }
    }

    /** The call, however it ends. */
    method Call(live: Batch) returns (ghost fates: map<TaskId, Fate>, ghost outcome: Outcome)
      requires Dispatching(InRpc, live)
      modifies pool
      ensures Dispatching(Idle, []) && Later(old(pool.Past()), pool.Past())
      ensures Reconciled(pool.Past(), old(|pool.steps|), p, live, fates, outcome)
    {
      hide Start, IsRun, Later, Reconciled, OutcomeOk, TooLate, Over, MayHandOver;
      ghost var past := pool.Past();
      PauseDispatch(InRpc, live);
      ghost var paused := pool.Past();
      pool.Now();
      var ending: Ending := *;
      var clock: Time := *;
      outcome := Quiet;
      if ending.Response? {
        fates, outcome := Respond(live, ending.results, |past.steps|);
      } else if ending.DeadlineExceeded? {
        ExpireCall(live, clock);
        pool.Now();
        fates := map t | t in live :: Resolved;
        TooLateIsOver();
        AllQuiet(pool.Past(), |past.steps|, live, fates);
      } else {
        if ending.Broken? {
          RecordAll(live, ending.results);
        }
        ghost var read := pool.Past();
        pool.Now();
        var retry := FailCall(live, ending);
        ghost var failed := pool.Past();
        pool.Now();
        LaterThrice(past, paused, read, failed);
        outcome := Failed(ending, retry, |read.steps|);
        FailedAt(read, failed, |past.steps|, ending, retry);
        var error: string := *;
        fates := HandOff(live, retry, error, outcome, |past.steps|);
        LaterBoth(paused, failed, pool.Past());
      }
      LaterBoth(past, paused, pool.Past());
    }

    /** The response is read, and what it left out is dealt with. */
    method Respond(live: Batch, results: seq<Reply>, ghost since: nat)
      returns (ghost fates: map<TaskId, Fate>, ghost outcome: Outcome)
      requires Dispatching(InRpc, live) && since <= |pool.steps|
      modifies pool
      ensures Dispatching(Idle, []) && Later(old(pool.Past()), pool.Past())
      ensures outcome == Answered(set r | r in results :: r.task)
      ensures Reconciled(pool.Past(), since, p, live, fates, outcome)
    {
      hide Start, IsRun, Later, Reconciled, OutcomeOk, Over, Fated, Failing, NeverHandedOver;
      ghost var past := pool.Past();
      RecordAll(live, results);
      ghost var recorded := pool.Past();
      PauseDispatch(InRpc, live);
      ghost var paused := pool.Past();
      var clock: Time := *;
      pool.Now();
      EndCall(live, clock);
      LaterThrice(past, recorded, paused, pool.Past());
      outcome := Answered(set r | r in results :: r.task);
      fates := map t | t in live :: if Over(pool.state.tasks[t].state) then Resolved else LeftOut;
      WhatIsLeftOut(paused.Last(), pool.state, live, clock);
      pool.Now();
      RepliedIsOver(recorded, pool.Past(), |past.steps|, live, results);
      AllAnswered(pool.Past(), since, live, set r | r in results :: r.task, fates);
    }

    lemma WhatIsLeftOut(s: Pool, s': Pool, live: Batch, clock: Time)
      requires forall t | t in live :: t in s.tasks
      requires s'.tasks == map t | t in s.tasks ::
                 if t in live && NeverHandedOver(s.tasks[t].kind) then
                   s.tasks[t].(state := Failing(s.tasks[t].state, clock, "worker omitted task result",
                                                Some("transport_error")))
                 else s.tasks[t]
      requires s'.omitted == s.omitted + set t | t in live && t in s.tasks && !Over(s.tasks[t].state)
                                                 && !NeverHandedOver(s.tasks[t].kind)
      ensures forall t | t in live ::
                && t in s'.tasks
                && (!Over(s'.tasks[t].state) ==> t in s'.omitted && !NeverHandedOver(s'.tasks[t].kind))
    {
      hide NeverHandedOver;
    }

    lemma ResolvedIsOver(past: History, since: nat, t: TaskId)
      requires past.Fits() && Fated(past, since, p, t, Resolved)
      ensures t in past.Last().tasks && Over(past.Last().tasks[t].state)
    {
    }

    lemma RepliedIsOver(a: History, b: History, since: nat, live: Batch, results: seq<Reply>)
      requires Later(a, b)
      requires forall r | r in results && r.task in live :: Fated(a, since, p, r.task, Resolved)
      ensures forall r | r in results && r.task in live ::
                r.task in b.Last().tasks && Over(b.Last().tasks[r.task].state)
    {
      hide Later, Fated, Over;
      forall r | r in results && r.task in live
        ensures r.task in b.Last().tasks && Over(b.Last().tasks[r.task].state)
      {
        FatedLater(a, b, since, p, r.task, Resolved);
        ResolvedIsOver(b, since, r.task);
      }
    }

    lemma AllAnswered(past: History, since: nat, live: Batch, replied: set<TaskId>, fates: map<TaskId, Fate>)
      requires past.Fits() && forall t | t in live :: t in past.Last().tasks
      requires fates == map t | t in live :: if Over(past.Last().tasks[t].state) then Resolved else LeftOut
      requires forall t | t in live && !Over(past.Last().tasks[t].state) ::
                 t in past.Last().omitted && !NeverHandedOver(past.Last().tasks[t].kind) && t !in replied
      ensures Reconciled(past, since, p, live, fates, Answered(replied))
    {
      hide Over, NeverHandedOver;
    }

    lemma AlreadyOver(a: History, b: History, since: nat, t: TaskId)
      requires Later(a, b) && |a.steps| < |b.steps| && since <= |a.steps| && p in a.Last().proxies
      requires Fated(a, since, p, t, Resolved)
      ensures forall retry :: Ended(b, since, p, t, Resolved, retry)
    {
      hide Candidate, Refused;
      assert b.states[|a.steps|] == a.Last();
      assert Excused(b, |a.steps|, p, t);
    }

    // -------------------------------------------------------------------------------------------
    // The thread's life, submission and removal
    // -------------------------------------------------------------------------------------------

    /** One round of _loop: the oldest batch, if there is one and the proxy runs, from beginning to end. */
    method Serve() returns (batch: Option<Batch>, ghost fates: map<TaskId, Fate>, ghost outcome: Outcome)
      requires Dispatching(Idle, [])
      modifies pool
      ensures Dispatching(Idle, []) && Later(old(pool.Past()), pool.Past())
      ensures var q := old(pool.state.proxies[p]);
              batch == if q.stopped || q.queue == [] then None else Some(q.queue[0])
      ensures batch.Some? ==> Reconciled(pool.Past(), old(|pool.steps|), p, batch.value, fates, outcome)
    {
      hide Start, IsRun, Later, Reconciled;
      ghost var past := pool.Past();
      pool.Now();
      fates, outcome := map[], Quiet;
      batch := TakeBatch();
      if batch.Some? {
        ghost var taken := pool.Past();
        pool.Now();
        TakenLater(past, taken);
        fates, outcome := Process(batch.value);
        LaterBoth(past, taken, pool.Past());
        ReconciledSince(pool.Past(), |past.steps|, |taken.steps|, p, batch.value, fates, outcome);
      }
    }

    lemma TakenLater(a: History, b: History)
      requires Later(a, b)
      ensures |a.steps| <= |b.steps|
    {
    }

    /** try_submit, for a batch of new tasks of one kind that the worker supports. */
    method TrySubmit(batch: Batch) returns (accepted: bool)
      requires pool.Valid() && p in pool.state.proxies && batch != []
      requires var s := pool.state; var wid := s.proxies[p].wid;
        && wid in s.kinds && (forall i, k | 0 <= i < k < |batch| :: batch[i] != batch[k])
        && forall t | t in batch ::
             && t in s.tasks && t !in s.placed && s.tasks[t].rpcs == [] && s.tasks[t].state.retries == 0
             && batch[0] in s.tasks && s.tasks[t].kind == s.tasks[batch[0]].kind && s.tasks[t].kind in s.kinds[wid]
      modifies pool
      ensures pool.Valid() && Later(old(pool.Past()), pool.Past())
      ensures var s, q := old(pool.state), old(pool.state.proxies[p]);
        && (accepted <==> !q.stopped && q.ready && |q.queue| + (if q.phase == Idle then 0 else 1) < 2)
        && pool.state ==
           if accepted then
             s.(proxies := s.proxies[p := q.(queue := q.queue + [batch])], placed := s.placed + set t | t in batch)
           else s
    {
      hide Next, Start, IsRun, Later;
      var q := pool.state.proxies[p];
      pool.Now();
      if q.stopped || !q.ready {
        return false;
      }
      var outstanding := |q.queue| + if q.phase != Idle then 1 else 0;
      if outstanding >= 2 {
        return false;
      }
      SubmitShape(pool.state, p, batch);
      pool.Do(Step.Submit(p, batch));
      return true;
    }

    /** stop, after begin_stop: everything that is queued leaves the queue, and every one of its tasks has an
        outcome or was handed over, where a removal allows that. */
    method Stop() returns (drained: seq<TaskId>, ghost fates: map<TaskId, Fate>)
      requires pool.Valid() && p in pool.state.proxies
      requires pool.state.proxies[p].stopped && pool.state.proxies[p].drained == Hand([], None)
      modifies pool
      ensures pool.Valid() && Later(old(pool.Past()), pool.Past())
      ensures drained == Concat(old(pool.state.proxies[p].queue))
      ensures Working(Stopper, [], None, old(pool.state.proxies[p].retryOnStop))
      ensures AllEnded(pool.Past(), old(|pool.steps|), p, drained, fates, old(pool.state.proxies[p].retryOnStop))
    {
      hide Next, Start, IsRun, Later, Concat, AllEnded;
      ghost var past := pool.Past();
      var retry := pool.state.proxies[p].retryOnStop;
      drained := Concat(pool.state.proxies[p].queue);
      DrainShape(pool.state, p);
      pool.Do(Drain(p));
      ghost var mid := pool.Past();
      fates := FinishAll(Stopper, drained, retry, "worker removed");
      LaterBoth(past, mid, pool.Past());
      AllEndedSince(pool.Past(), |past.steps|, |mid.steps|, p, drained, fates, retry);
    }

    /** Remove a worker from the pool: in one critical section it stops being a member and its proxy accepts
        nothing any more, with its tasks to be handed over. */
    method Remove(wid: WorkerId)
      requires pool.Valid() && !pool.state.stopping && wid in pool.state.members && pool.state.members[wid] == p
      requires p in pool.state.proxies
      modifies pool
      ensures pool.Valid() && Later(old(pool.Past()), pool.Past())
      ensures pool.state.proxies.Keys == old(pool.state).proxies.Keys && pool.state.proxies[p].stopped
      ensures var s, q := old(pool.state), old(pool.state.proxies[p]);
        pool.state == s.(members := s.members - {wid}, proxies := s.proxies[p :=
                           if q.stopped then q else q.(stopped := true, retryOnStop := true)])
    {
      hide Next, Start, IsRun, Later;
      RemoveShape(pool.state, wid);
      pool.Do(RemoveProxy(wid));
    }

    /** Removing a worker and stopping its proxy: its queued tasks are handed over where another worker takes
        them. */
    method RemoveAndStop(wid: WorkerId) returns (drained: seq<TaskId>, ghost fates: map<TaskId, Fate>)
      requires pool.Valid() && !pool.state.stopping && wid in pool.state.members && pool.state.members[wid] == p
      requires p in pool.state.proxies && pool.state.proxies[p].drained == Hand([], None)
      modifies pool
      ensures pool.Valid() && Later(old(pool.Past()), pool.Past())
      ensures drained == Concat(old(pool.state.proxies[p].queue))
      ensures AllEnded(pool.Past(), old(|pool.steps|), p, drained, fates, true)
    {
      hide Next, Start, IsRun, Later, Concat, AllEnded;
      ghost var past := pool.Past();
      Running(wid);
      Remove(wid);
      ghost var mid := pool.Past();
      TakenLater(past, mid);
      drained, fates := Stop();
      LaterBoth(past, mid, pool.Past());
      AllEndedSince(pool.Past(), |past.steps|, |mid.steps|, p, drained, fates, true);
    }

    /** A member's proxy has not been stopped. */
    lemma Running(wid: WorkerId)
      requires pool.Valid() && wid in pool.state.members && pool.state.members[wid] in pool.state.proxies
      ensures !pool.state.proxies[pool.state.members[wid]].stopped
    {
      hide IsRun, Start, Conserved, Counted;
      pool.Sound();
    }
  }

  /** How a batch ended: nothing was sent or no time was left; the worker answered, with results for some tasks;
      the proxy had been stopped; or the call failed. */
  datatype Outcome =
    | Quiet
    | Answered(replied: set<TaskId>)
    | Stopped(retry: bool, at: nat)
    | Failed(ending: Ending, retry: bool, at: nat)

  /** Handing over is allowed exactly when the proxy was, at that point of the run, being removed, or the call
      failed in a way that allows it. */
  ghost predicate OutcomeOk(past: History, since: nat, p: ProxyId, outcome: Outcome) {
    past.Fits() &&
    match outcome
    case Quiet => true
    case Answered(_) => true
    case Stopped(retry, at) =>
      && since <= at < |past.states| && p in past.states[at].proxies
      && past.states[at].proxies[p].stopped && retry == past.states[at].proxies[p].retryOnStop
    case Failed(ending, retry, at) =>
      && since <= at < |past.states| && p in past.states[at].proxies
      && (retry <==> MayHandOver(ending, past.states[at].proxies[p].stopped, past.states[at].proxies[p].retryOnStop))
  }

  ghost predicate Settled(past: History, since: nat, p: ProxyId, t: TaskId, fate: Fate, outcome: Outcome)
    requires past.Fits()
  {
    match outcome
    case Quiet => fate == Resolved && Fated(past, since, p, t, fate)
    case Answered(replied) => !fate.HandedTo? && Fated(past, since, p, t, fate) && (fate.LeftOut? ==> t !in replied)
    case Stopped(retry, _) => Ended(past, since, p, t, fate, retry)
    case Failed(_, retry, _) => Ended(past, since, p, t, fate, retry)
  }

  /** What became of every task of a batch. */
  ghost predicate Reconciled(past: History, since: nat, p: ProxyId, batch: Batch, fates: map<TaskId, Fate>,
                             outcome: Outcome)
  {
    && OutcomeOk(past, since, p, outcome) && fates.Keys == (set t | t in batch)
    && forall t | t in batch :: Settled(past, since, p, t, fates[t], outcome)
  }

  lemma OutcomeLater(a: History, b: History, since: nat, p: ProxyId, outcome: Outcome)
    requires Later(a, b) && OutcomeOk(a, since, p, outcome)
    ensures OutcomeOk(b, since, p, outcome)
  {
    hide MayHandOver;
    assert outcome.Stopped? || outcome.Failed? ==> b.states[outcome.at] == a.states[outcome.at];
  }

  lemma ReconciledLater(a: History, b: History, since: nat, p: ProxyId, batch: Batch, fates: map<TaskId, Fate>,
                        outcome: Outcome)
    requires Later(a, b) && Reconciled(a, since, p, batch, fates, outcome)
    ensures Reconciled(b, since, p, batch, fates, outcome)
  {
    hide Later, Fated, Ended, OutcomeOk;
    OutcomeLater(a, b, since, p, outcome);
    OutcomeFits(a, since, p, outcome);
    forall t | t in batch ensures Settled(b, since, p, t, fates[t], outcome) {
      match outcome
      case Stopped(retry, _) => EndedLater(a, b, since, p, t, fates[t], retry);
      case Failed(_, retry, _) => EndedLater(a, b, since, p, t, fates[t], retry);
      case _ => FatedLater(a, b, since, p, t, fates[t]);
    }
  }

  lemma OutcomeFits(a: History, since: nat, p: ProxyId, outcome: Outcome)
    requires OutcomeOk(a, since, p, outcome)
    ensures a.Fits()
  {
  }

  lemma AllEndedSince(past: History, early: nat, since: nat, p: ProxyId, tasks: seq<TaskId>,
                      fates: map<TaskId, Fate>, retry: bool)
    requires AllEnded(past, since, p, tasks, fates, retry) && early <= since
    ensures AllEnded(past, early, p, tasks, fates, retry)
  {
    hide Ended;
    forall t | t in tasks ensures Ended(past, early, p, t, fates[t], retry) {
      EndedSince(past, early, since, p, t, fates[t], retry);
    }
  }

  lemma ReconciledSince(past: History, early: nat, since: nat, p: ProxyId, batch: Batch, fates: map<TaskId, Fate>,
                        outcome: Outcome)
    requires Reconciled(past, since, p, batch, fates, outcome) && early <= since
    ensures Reconciled(past, early, p, batch, fates, outcome)
  {
    hide Fated, Ended, MayHandOver;
    forall t | t in batch ensures Settled(past, early, p, t, fates[t], outcome) {
      match outcome
      case Stopped(retry, _) => EndedSince(past, early, since, p, t, fates[t], retry);
      case Failed(_, retry, _) => EndedSince(past, early, since, p, t, fates[t], retry);
      case _ => FatedSince(past, early, since, p, t, fates[t]);
    }
  }

  /** Each of the tasks has its end. */
  ghost predicate AllEnded(past: History, since: nat, p: ProxyId, tasks: seq<TaskId>, fates: map<TaskId, Fate>,
                           retry: bool)
  {
    && past.Fits() && fates.Keys == (set t | t in tasks)
    && forall t | t in tasks :: Ended(past, since, p, t, fates[t], retry)
  }

  /** The task was handed over if that was allowed, or else it has an outcome; where handing over was allowed
      there was a reason. */
  ghost predicate Ended(past: History, since: nat, p: ProxyId, t: TaskId, fate: Fate, retry: bool) {
    && past.Fits() && fate != LeftOut && Fated(past, since, p, t, fate) && (fate.HandedTo? ==> retry)
    && (fate.Resolved? && retry ==> exists i | since <= i < |past.steps| :: Excused(past, i, p, t))
  }

  lemma EndedSince(past: History, early: nat, since: nat, p: ProxyId, t: TaskId, fate: Fate, retry: bool)
    requires Ended(past, since, p, t, fate, retry) && early <= since
    ensures Ended(past, early, p, t, fate, retry)
  {
    hide Fated, Excused;
    FatedSince(past, early, since, p, t, fate);
  }

  lemma EndedLater(a: History, b: History, since: nat, p: ProxyId, t: TaskId, fate: Fate, retry: bool)
    requires Later(a, b) && Ended(a, since, p, t, fate, retry)
    ensures Ended(b, since, p, t, fate, retry)
  {
    hide Fated, Excused;
    FatedLater(a, b, since, p, t, fate);
    if fate.Resolved? && retry {
      var i :| since <= i < |a.steps| && Excused(a, i, p, t);
      ExcusedLater(a, b, i, p, t);
    }
  }

  lemma ExcusedLater(a: History, b: History, i: nat, p: ProxyId, t: TaskId)
    requires Later(a, b) && i < |a.steps| && Excused(a, i, p, t)
    ensures Excused(b, i, p, t)
  {
    hide Candidate, HasRoom;
    assert b.states[i] == a.states[i] && b.steps[i] == a.steps[i];
    forall c | Refused(a, i, c) ensures Refused(b, i, c) {
      var k :| i < k < |a.steps| && c in a.states[k].proxies && !HasRoom(a.states[k].proxies[c]);
      assert b.states[k] == a.states[k];
    }
  }

  /** The last step of the run. */
  predicate Stepped(a: History, b: History, step: Step) {
    && a.Fits() && b.Fits() && |b.steps| == |a.steps| + 1 && b.steps[|a.steps|] == step
    && a.states <= b.states && a.steps <= b.steps
  }

  datatype Begun = Nothing | Retiring(retry: bool) | Expired | Called

  /** When the tasks of a failed call may go to another worker. */
  predicate MayHandOver(ending: Ending, stopped: bool, retryOnStop: bool) {
    || (ending == Unavailable && (!stopped || retryOnStop))
    || ((ending == Cancelled || ending == ChannelClosed) && stopped && retryOnStop)
  }
}
