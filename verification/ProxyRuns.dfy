/** Theorems about every run of the worker pool, and about durable jobs that travel through it. */
module ProxyRuns {
  import opened Wrappers
  import opened ProxyProtocol
  import opened ProxyDispatch
  import opened ProxyQueues
  import T = Tasks
  import G = GatewaySystem

  ghost predicate Follows(s: Pool, a: Step, s': Pool) {
    Can(s, a) && s' == Next(s, a)
  }

  ghost predicate IsRun(states: seq<Pool>, steps: seq<Step>) {
    |states| == |steps| + 1 && forall n | 0 <= n < |steps| :: Follows(states[n], steps[n], states[n + 1])
  }

  /** No proxies yet, and tasks nobody has touched. */
  predicate Start(s: Pool) {
    && s.proxies == map[] && s.members == map[] && !s.stopping && s.placed == {} && s.omitted == {}
    && forall t | t in s.tasks :: s.tasks[t].rpcs == [] && s.tasks[t].state == T.Fresh(s.tasks[t].state.deadline)
  }

  lemma {:induction false} Reached(states: seq<Pool>, steps: seq<Step>, n: nat)
    requires IsRun(states, steps) && Start(states[0]) && n < |states|
    ensures Structured(states[n]) && Conserved(states[n]) && Counted(states[n])
    decreases n
  {
    if n > 0 {
      hide Structured, Conserved, Counted, Can, Next;
      Reached(states, steps, n - 1);
      assert Follows(states[n - 1], steps[n - 1], states[n]);
      StructuredStep(states[n - 1], steps[n - 1]);
      ConservedStep(states[n - 1], steps[n - 1]);
      CountedStep(states[n - 1], steps[n - 1]);
    }
  }

  // ---------------------------------------------------------------------------------------------
  // Conservation
  // ---------------------------------------------------------------------------------------------

  /** Proxy p holds the task exactly once, and no other proxy holds it. */
  predicate OnlyIn(s: Pool, p: ProxyId, t: TaskId) {
    && p in s.proxies && Holds(s.proxies[p])[t] == 1
    && forall q | q in s.proxies && q != p :: t !in Holds(s.proxies[q])
  }

  lemma OnlyHolder(s: Pool, t: TaskId) returns (p: ProxyId)
    requires Disjoint(Holdings(s)) && Held(Holdings(s), t)
    ensures OnlyIn(s, p, t)
  {
    hide Holds;
    var h := Holdings(s);
    p :| p in h && t in h[p];
    assert h[p][t] == 1;
    forall q | q in s.proxies && q != p ensures t !in Holds(s.proxies[q]) {
      assert h[q] == Holds(s.proxies[q]);
    }
  }

  /** An accepted task without an outcome is in exactly one queue, active batch or drained list of
      exactly one proxy, precisely when no response left it out; a left-out task is nowhere. */
  lemma TaskConservation(states: seq<Pool>, steps: seq<Step>, n: nat, t: TaskId)
    requires IsRun(states, steps) && Start(states[0]) && n < |states|
    requires t in states[n].placed && Unresolved(states[n].tasks, t)
    ensures (exists p :: OnlyIn(states[n], p, t)) <==> t !in states[n].omitted
    ensures t in states[n].omitted ==> forall p | p in states[n].proxies :: t !in Holds(states[n].proxies[p])
  {
    Reached(states, steps, n);
    hide Structured, Counted, IsRun, Start, Holds;
    var s := states[n];
    var h := Holdings(s);
    if t !in s.omitted {
      assert Held(h, t);
      var p := OnlyHolder(s, t);
    } else {
      forall p | p in s.proxies ensures t !in Holds(s.proxies[p]) {
        assert h[p] == Holds(s.proxies[p]);
        assert t in h[p] ==> Held(h, t);
      }
    }
  }

  /** Left-out tasks are exactly those some response omitted, and never of a durable kind. */
  lemma {:induction false} LeftOutByResponse(states: seq<Pool>, steps: seq<Step>, n: nat, t: TaskId)
    requires IsRun(states, steps) && Start(states[0]) && n < |states|
    ensures t in states[n].omitted <==>
              exists k | 0 <= k < n ::
                  steps[k].EndResponse? && Can(states[k], steps[k]) && t in OmittedBy(states[k], steps[k])
    decreases n
  {
    if n > 0 {
      hide Can, OmittedBy;
      LeftOutByResponse(states, steps, n - 1, t);
      assert Follows(states[n - 1], steps[n - 1], states[n]);
      OmittedOnlyByResponse(states[n - 1], steps[n - 1]);
      if t in OmittedBy(states[n - 1], steps[n - 1]) {
        assert steps[n - 1].EndResponse?;
      }
    }
  }

  lemma OmittedOnlyByResponse(s: Pool, a: Step)
    requires Can(s, a)
    ensures OmittedBy(s, a) != {} ==> a.EndResponse?
  {
  }

  lemma DurableOfHas(tasks: map<TaskId, TaskRecord>, ts: seq<TaskId>, t: TaskId)
    requires t in ts && t in tasks && tasks[t].Durable()
    ensures t in DurableOf(tasks, ts)
    decreases |ts|
  {
    if t != ts[0] {
      DurableOfHas(tasks, ts[1..], t);
    }
  }

  lemma DurableOfOnly(tasks: map<TaskId, TaskRecord>, ts: seq<TaskId>, t: TaskId)
    requires t in tasks && !tasks[t].Durable()
    ensures t !in DurableOf(tasks, ts)
    decreases |ts|
  {
    if ts != [] {
      DurableOfOnly(tasks, ts[1..], t);
    }
  }

  /** A response leaves a task out exactly when it is in the batch, has no outcome when the response has
      been read, and is not of a durable kind. */
  lemma OmittedExactly(s: Pool, a: Step, t: TaskId)
    requires Can(s, a) && a.EndResponse? && t in s.tasks
    ensures t in OmittedBy(s, a) <==>
              t in s.proxies[a.p].active.tasks && Unresolved(s.tasks, t) && !s.tasks[t].Durable()
  {
    var ts := s.proxies[a.p].active.tasks;
    TasksGoOnStep(s, a);
    if s.tasks[t].Durable() {
      if t in ts {
        DurableOfHas(s.tasks, ts, t);
        MoveAllFails(s.tasks, DurableOf(s.tasks, ts),
              T.Fail(a.at, "worker omitted task result", Some("transport_error")), t);
      }
    } else {
      DurableOfOnly(s.tasks, ts, t);
    }
  }

  /** A response is over with the task in its batch, without an outcome, and not of a durable kind. */
  predicate LeftOut(s: Pool, a: Step, t: TaskId) {
    a.EndResponse? && a.p in s.proxies && t in s.proxies[a.p].active.tasks
    && Unresolved(s.tasks, t) && !s.tasks[t].Durable()
  }

  lemma OmittedIsLeftOut(s: Pool, a: Step, t: TaskId)
    requires Can(s, a)
    ensures t in OmittedBy(s, a) <==> LeftOut(s, a, t)
  {
    TasksGoOnStep(s, a);
    if a.EndResponse? && t in s.tasks {
      OmittedExactly(s, a, t);
    }
  }

  /** An accepted task without an outcome is in exactly one queue, active batch or drained list of exactly
      one proxy, if and only if no response of the run left it out; otherwise it is nowhere in the pool. */
  lemma HeldUnlessLeftOut(states: seq<Pool>, steps: seq<Step>, n: nat, t: TaskId)
    requires IsRun(states, steps) && Start(states[0]) && n < |states|
    requires t in states[n].placed && Unresolved(states[n].tasks, t)
    ensures (exists p :: OnlyIn(states[n], p, t)) <==> forall k | 0 <= k < n :: !LeftOut(states[k], steps[k], t)
    ensures (exists k | 0 <= k < n :: LeftOut(states[k], steps[k], t)) ==>
              forall p | p in states[n].proxies :: t !in Holds(states[n].proxies[p])
  {
    hide OnlyIn, Holds, LeftOut, OmittedBy, Can, Next, Start;
    TaskConservation(states, steps, n, t);
    LeftOutByResponse(states, steps, n, t);
    forall k | 0 <= k < n ensures Can(states[k], steps[k])
      ensures steps[k].EndResponse? && t in OmittedBy(states[k], steps[k]) <==> LeftOut(states[k], steps[k], t)
    {
      assert Follows(states[k], steps[k], states[k + 1]);
      OmittedIsLeftOut(states[k], steps[k], t);
      OmittedOnlyByResponse(states[k], steps[k]);
    }
  }

  // ---------------------------------------------------------------------------------------------
  // A task that is lost
  // ---------------------------------------------------------------------------------------------

  /** The only worker is added, gets the only task, and answers with a response that does not mention it. */
  function LosingSteps(w: WorkerId): seq<Step> {
    [AddProxy(w, 0, true), Submit(0, [0]), Take(0), Screen(0, 0), Begin(0, 0), EndResponse(0, 0)]
  }

  /** A pool with one proxy, if any, and one task of a kind its worker supports. */
  function OneTask(w: WorkerId, proxies: map<ProxyId, Proxy>, task: TaskRecord, placed: set<TaskId>,
        omitted: set<TaskId>)
    : Pool
  {
    Pool(proxies, if proxies == map[] then map[]
          else map[w := 0], false, map[0 := task], placed, omitted, map[w := {task.kind}])
  }

  function LosingState(w: WorkerId, kind: string, k: nat): Pool {
    var task := TaskRecord(kind, T.Fresh(None), []);
    var sent := TaskRecord(kind, T.Move(T.Fresh(None), T.TaskOp.Start(0)), [Rpc(w, None)]);
    var q := NewProxy(w, true);
    var busy := q.(active := Hand([0], None));
    match k
    case 0 => OneTask(w, map[], task, {}, {})
    case 1 => OneTask(w, map[0 := q], task, {}, {})
    case 2 => OneTask(w, map[0 := q.(queue := [[0]])], task, {0}, {})
    case 3 => OneTask(w, map[0 := busy.(phase := Screening(0))], task, {0}, {})
    case 4 => OneTask(w, map[0 := busy.(phase := Screening(1))], task, {0}, {})
    case 5 => OneTask(w, map[0 := busy.(phase := InRpc)], sent, {0}, {})
    case _ => OneTask(w, map[0 := q], sent, {0}, {0})
  }

  lemma LosingAdded(w: WorkerId, kind: string)
    ensures Follows(LosingState(w, kind, 0), AddProxy(w, 0, true), LosingState(w, kind, 1))
  {
    var s, a, s' := LosingState(w, kind, 0), AddProxy(w, 0, true), LosingState(w, kind, 1);
    assert Can(s, a);
    assert ProxiesAfter(s, a) == s'.proxies;
    assert MembersAfter(s, a) == s'.members;
    assert TasksAfter(s, a) == s'.tasks;
    assert OmittedBy(s, a) == s'.omitted;
  }

  lemma LosingSubmitted(w: WorkerId, kind: string)
    ensures Follows(LosingState(w, kind, 1), Submit(0, [0]), LosingState(w, kind, 2))
  {
    var s, a, s' := LosingState(w, kind, 1), Submit(0, [0]), LosingState(w, kind, 2);
    assert Can(s, a);
    var none: seq<Batch> := [];
    assert none + [[0]] == [[0]];
    assert ProxiesAfter(s, a) == s'.proxies;
    assert MembersAfter(s, a) == s'.members;
    assert TasksAfter(s, a) == s'.tasks;
    assert OmittedBy(s, a) == s'.omitted;
    assert (set t | t in a.batch) == {0};
  }

  lemma LosingTaken(w: WorkerId, kind: string)
    ensures Follows(LosingState(w, kind, 2), Take(0), LosingState(w, kind, 3))
  {
    var s, a, s' := LosingState(w, kind, 2), Take(0), LosingState(w, kind, 3);
    assert Can(s, a);
    var one: seq<Batch> := [[0]];
    assert one[1..] == [];
    assert ProxiesAfter(s, a) == s'.proxies;
    assert MembersAfter(s, a) == s'.members;
    assert TasksAfter(s, a) == s'.tasks;
    assert OmittedBy(s, a) == s'.omitted;
  }

  lemma LosingScreened(w: WorkerId, kind: string)
    ensures Follows(LosingState(w, kind, 3), Screen(0, 0), LosingState(w, kind, 4))
  {
    var s, a, s' := LosingState(w, kind, 3), Screen(0, 0), LosingState(w, kind, 4);
    assert Can(s, a);
    assert ProxiesAfter(s, a) == s'.proxies;
    assert MembersAfter(s, a) == s'.members;
    assert TasksAfter(s, a) == s'.tasks;
    assert OmittedBy(s, a) == s'.omitted;
  }

  lemma LosingSent(w: WorkerId, kind: string)
    requires kind !in T.DURABLE_KINDS
    ensures Follows(LosingState(w, kind, 4), Begin(0, 0), LosingState(w, kind, 5))
  {
    var s, a, s' := LosingState(w, kind, 4), Begin(0, 0), LosingState(w, kind, 5);
    assert Can(s, a);
    SentOne(w, kind);
    hide NoTimeLeft, SendAll, MoveAll, Can;
    assert ProxiesAfter(s, a) == s'.proxies;
    assert MembersAfter(s, a) == s'.members;
    assert TasksAfter(s, a) == s'.tasks;
    assert OmittedBy(s, a) == s'.omitted;
  }

  lemma SentOne(w: WorkerId, kind: string)
    ensures var s, s' := LosingState(w, kind, 4), LosingState(w, kind, 5);
            !NoTimeLeft(s.tasks, [0], 0) && SendAll(s.tasks, [0], w, 0) == s'.tasks
  {
    var task := TaskRecord(kind, T.Fresh(None), []);
    assert task.rpcs + [Rpc(w, None)] == [Rpc(w, None)];
  }

  lemma LosingAnswered(w: WorkerId, kind: string)
    requires kind !in T.DURABLE_KINDS
    ensures Follows(LosingState(w, kind, 5), EndResponse(0, 0), LosingState(w, kind, 6))
  {
    var s, a, s' := LosingState(w, kind, 5), EndResponse(0, 0), LosingState(w, kind, 6);
    assert Can(s, a);
    NoneDurable(w, kind);
    AnsweredShape(s, a);
    hide DurableOf, MoveAll, Can, ProxyAfter, MembersAfter, TasksAfter;
    assert ProxiesAfter(s, a) == s'.proxies;
    assert MembersAfter(s, a) == s'.members;
    assert TasksAfter(s, a) == s'.tasks;
    assert OmittedBy(s, a) == s'.omitted;
  }

  lemma AnsweredShape(s: Pool, a: Step)
    requires Can(s, a) && a.EndResponse?
    ensures ProxyAfter(s, a, a.p) == s.proxies[a.p].(phase := Idle, active := Hand([], None))
    ensures MembersAfter(s, a) == s.members
    ensures TasksAfter(s, a) == MoveAll(s.tasks, DurableOf(s.tasks, s.proxies[a.p].active.tasks),
                                        T.Fail(a.at, "worker omitted task result", Some("transport_error")))
  {
    hide MoveAll, DurableOf;
  }

  lemma NoneDurable(w: WorkerId, kind: string)
    requires kind !in T.DURABLE_KINDS
    ensures var s := LosingState(w, kind, 5);
            MoveAll(s.tasks, DurableOf(s.tasks, [0]),
                  T.Fail(0, "worker omitted task result", Some("transport_error"))) == s.tasks
  {
    var s, ts: seq<TaskId> := LosingState(w, kind, 5), [0];
    assert ts[1..] == [];
    assert DurableOf(s.tasks, ts) == [];
  }

  lemma LosingRun(w: WorkerId, kind: string, k: nat)
    requires kind !in T.DURABLE_KINDS && k < 6
    ensures Follows(LosingState(w, kind, k), LosingSteps(w)[k], LosingState(w, kind, k + 1))
  {
    hide Follows, LosingState;
    match k
    case 0 => LosingAdded(w, kind);
    case 1 => LosingSubmitted(w, kind);
    case 2 => LosingTaken(w, kind);
    case 3 => LosingScreened(w, kind);
    case 4 => LosingSent(w, kind);
    case _ => LosingAnswered(w, kind);
  }

  lemma LosingEnds(w: WorkerId, kind: string)
    ensures Start(LosingState(w, kind, 0))
    ensures var s := LosingState(w, kind, 6);
            0 in s.placed && Unresolved(s.tasks, 0) && forall p | p in s.proxies :: 0 !in Holds(s.proxies[p])
  {
  }

  /** A task of any kind that is not durable can be lost: it was accepted, has no outcome, and is held
      nowhere, although its worker neither failed nor was removed. */
  lemma TaskLost(w: WorkerId, kind: string) returns (states: seq<Pool>)
    requires kind !in T.DURABLE_KINDS
    ensures IsRun(states, LosingSteps(w)) && Start(states[0])
    ensures var s := states[|states| - 1];
            0 in s.placed && Unresolved(s.tasks, 0) && forall p | p in s.proxies :: 0 !in Holds(s.proxies[p])
  {
    hide Follows, LosingState, Start, Holds;
    states := seq(7, (k: nat) => LosingState(w, kind, k));
    forall k | 0 <= k < 6 ensures Follows(states[k], LosingSteps(w)[k], states[k + 1]) {
      LosingRun(w, kind, k);
    }
    LosingEnds(w, kind);
  }

  // ---------------------------------------------------------------------------------------------
  // Calls
  // ---------------------------------------------------------------------------------------------

  lemma {:induction false} DeadlineKept(states: seq<Pool>, steps: seq<Step>, n: nat, t: TaskId)
    requires IsRun(states, steps) && n < |states| && t in states[0].tasks
    ensures t in states[n].tasks && states[n].tasks[t].state.deadline == states[0].tasks[t].state.deadline
    ensures states[n].tasks[t].kind == states[0].tasks[t].kind
    decreases n
  {
    if n > 0 {
      DeadlineKept(states, steps, n - 1, t);
      assert Follows(states[n - 1], steps[n - 1], states[n]);
      TasksGoOnStep(states[n - 1], steps[n - 1]);
    }
  }

  /** A task is put in at most two ProcessBatch calls, the second on another worker and both with its
      original deadline; a task of a durable kind in at most one. */
  lemma DispatchBound(states: seq<Pool>, steps: seq<Step>, n: nat, t: TaskId)
    requires IsRun(states, steps) && Start(states[0]) && n < |states| && t in states[0].tasks
    ensures
      t in states[n].tasks &&
      var r := states[n].tasks[t];
      && |r.rpcs| <= 2
      && (r.kind == "synthx_v73" || r.kind == "synthx_text_v123" || r.kind == "synthx_text_refinement" ==>
            |r.rpcs| <= 1)
      && (|r.rpcs| == 2 ==> r.rpcs[0].worker != r.rpcs[1].worker && r.state.retries == 1)
      && (forall i | 0 <= i < |r.rpcs| :: r.rpcs[i].deadline == states[0].tasks[t].state.deadline)
  {
    Reached(states, steps, n);
    DeadlineKept(states, steps, n, t);
    assert CallsOk(states[n].tasks[t]);
  }

  /** All calls made for a set of tasks. */
  ghost function CallsFor(s: Pool, ts: set<TaskId>): nat {
    if ts == {} then 0
    else
      var t :| t in ts;
      (if t in s.tasks then |s.tasks[t].rpcs| else 0) + CallsFor(s, ts - {t})
  }

  lemma {:induction false} AtMostOneEach(s: Pool, ts: set<TaskId>)
    requires forall t | t in ts && t in s.tasks :: |s.tasks[t].rpcs| <= 1
    ensures CallsFor(s, ts) <= |ts|
    decreases |ts|
  {
    if ts != {} {
      var t :| t in ts && CallsFor(s, ts) == (if t in s.tasks then |s.tasks[t].rpcs| else 0) + CallsFor(s, ts - {t});
      AtMostOneEach(s, ts - {t});
    }
  }

  /** End to end: when the tasks the gateways create for a durable job are dispatched by a pool, all
      ProcessBatch calls for the job together never exceed the attempts counted in its row. */
  lemma CallsWithinAttempts(ys: seq<G.System>, gsteps: seq<G.Step>, k: nat,
                            states: seq<Pool>, steps: seq<Step>, n: nat, j: nat)
    requires G.IsRun(ys, gsteps) && G.Start(ys[0]) && k < |ys| && j in ys[k].store.rows
    requires IsRun(states, steps) && Start(states[0]) && n < |states|
    requires forall t | t in G.TasksOf(ys[k], j) :: t in states[0].tasks && states[0].tasks[t].kind == "synthx_v73"
    ensures CallsFor(states[n], G.TasksOf(ys[k], j)) <= ys[k].store.rows[j].attempts
  {
    hide G.IsRun, G.Start, IsRun, Start;
    var ts := G.TasksOf(ys[k], j);
    forall t | t in ts ensures t in states[n].tasks && |states[n].tasks[t].rpcs| <= 1 {
      DispatchBound(states, steps, n, t);
      DeadlineKept(states, steps, n, t);
      assert states[n].tasks[t].Durable();
    }
    AtMostOneEach(states[n], ts);
    G.TasksWithinAttempts(ys, gsteps, k, j);
  }

  // ---------------------------------------------------------------------------------------------
  // Retirement
  // ---------------------------------------------------------------------------------------------

  /** No proxy ever has more than two outstanding batches, and each queued batch is of one kind that
      its worker supports. */
  lemma TwoSlots(states: seq<Pool>, steps: seq<Step>, n: nat, p: ProxyId)
    requires IsRun(states, steps) && Start(states[0]) && n < |states| && p in states[n].proxies
    ensures
      var q := states[n].proxies[p];
      && q.Outstanding() <= 2
      && forall b | b in q.queue :: b != [] && q.wid in states[n].kinds
           && forall t, u | t in b && u in b :: t in states[n].tasks && u in states[n].tasks
                && states[n].tasks[t].kind in states[n].kinds[q.wid]
                && states[n].tasks[t].kind == states[n].tasks[u].kind
  {
    Reached(states, steps, n);
    var q := states[n].proxies[p];
    assert ProxyOk(states[n], q);
    forall b, t, u | b in q.queue && t in b && u in b
      ensures t in states[n].tasks && u in states[n].tasks
    {
      assert BatchOk(states[n], q.wid, b);
    }
  }

  /** A batch was accepted by proxy p: its queue grew. */
  predicate Accepted(s: Pool, a: Step, p: ProxyId) {
    (a.Submit? && a.p == p) || (a.TryNext? && a.c == p && Accepting(s, a))
  }

  lemma {:induction false} StaysStopped(states: seq<Pool>, steps: seq<Step>, m: nat, n: nat, p: ProxyId)
    requires IsRun(states, steps) && m <= n < |states| && p in states[m].proxies && states[m].proxies[p].stopped
    ensures p in states[n].proxies && states[n].proxies[p].stopped
    ensures |states[n].proxies[p].queue| <= |states[m].proxies[p].queue|
    decreases n
  {
    if m < n {
      hide Can, ProxyAfter, Follows, TasksAfter, OmittedBy;
      StaysStopped(states, steps, m, n - 1, p);
      var s, a := states[n - 1], steps[n - 1];
      StopKept(s, a, states[n], p);
    }
  }

  lemma StopKept(s: Pool, a: Step, s': Pool, p: ProxyId)
    requires Follows(s, a, s') && p in s.proxies && s.proxies[p].stopped
    ensures p in s'.proxies && s'.proxies[p].stopped && |s'.proxies[p].queue| <= |s.proxies[p].queue|
  {
    hide ProxyAfter, TasksAfter, OmittedBy;
    WorkersStay(s, a, p);
  }

  /** After the critical section that removes a proxy, or that shuts the pool down, no batch is ever
      accepted by it again: neither a submission nor a handoff. */
  lemma NothingAfterRetirement(states: seq<Pool>, steps: seq<Step>, m: nat, n: nat, p: ProxyId)
    requires IsRun(states, steps) && m <= n < |steps| && p in states[m].proxies && states[m].proxies[p].stopped
    ensures !Accepted(states[n], steps[n], p)
  {
    StaysStopped(states, steps, m, n, p);
    assert Follows(states[n], steps[n], states[n + 1]);
  }

  /** Removal retires the proxy that stood for the worker. */
  lemma RemovalRetires(s: Pool, a: Step)
    requires MembersOk(s) && Can(s, a) && a.RemoveProxy?
    ensures s.members[a.wid] in Next(s, a).proxies && Next(s, a).proxies[s.members[a.wid]].stopped
    ensures a.wid !in Next(s, a).members
  {
    hide TasksAfter, OmittedBy;
  }

  predicate AllStopped(s: Pool) {
    forall p | p in s.proxies :: s.proxies[p].stopped
  }

  /** Shutdown retires every proxy. */
  lemma ShutdownRetires(s: Pool)
    requires MembersOk(s)
    ensures Next(s, StopPool).stopping && AllStopped(Next(s, StopPool))
  {
    hide TasksAfter, OmittedBy;
    forall p | p in s.proxies ensures ProxyAfter(s, StopPool, p).stopped {
    }
  }

  lemma {:induction false} StoppingForever(states: seq<Pool>, steps: seq<Step>, m: nat, n: nat)
    requires IsRun(states, steps) && m <= n < |states| && states[m].stopping
    ensures states[n].stopping
    decreases n
  {
    if m < n {
      StoppingForever(states, steps, m, n - 1);
      assert Follows(states[n - 1], steps[n - 1], states[n]);
    }
  }

  /** Once shutdown has begun, no proxy of the pool accepts anything, and no new proxy appears. */
  lemma NothingAfterShutdown(states: seq<Pool>, steps: seq<Step>, m: nat, n: nat, p: ProxyId)
    requires IsRun(states, steps) && Start(states[0]) && m <= n < |steps| && states[m].stopping
    ensures !Accepted(states[n], steps[n], p) && !steps[n].AddProxy?
  {
    StoppingForever(states, steps, m, n);
    Reached(states, steps, n);
    assert Follows(states[n], steps[n], states[n + 1]);
    assert MembersOk(states[n]);
  }

  /** A task that left the queue of p is not in it at any later state. */
  lemma {:induction false} StaysGone(states: seq<Pool>, steps: seq<Step>, k: nat, n: nat, p: ProxyId, t: TaskId)
    requires IsRun(states, steps) && Start(states[0]) && k < n < |states| && Leaves(states[k], steps[k], p, t)
    ensures Gone(states[n], p, t)
    decreases n
  {
    hide Can, Next, Structured, Conserved, Counted, Leaves, Gone, Start;
    Reached(states, steps, n - 1);
    assert Follows(states[n - 1], steps[n - 1], states[n]);
    if k == n - 1 {
      LeavingLeaves(states[k], steps[k], p, t);
    } else {
      StaysGone(states, steps, k, n - 1, p, t);
      GoneStep(states[n - 1], steps[n - 1], p, t);
    }
  }

  /** Between a state in which a task is queued and one in which it is not, some step takes or drains it. */
  lemma {:induction false} SomeStepLeaves(states: seq<Pool>, steps: seq<Step>, m: nat, n: nat, p: ProxyId, t: TaskId)
    returns (k: nat)
    requires IsRun(states, steps) && m <= n < |states| && Queued(states[m], p, t) && !Queued(states[n], p, t)
    ensures m <= k < n && Leaves(states[k], steps[k], p, t)
    decreases n
  {
    hide Can, Next, ProxyAfter;
    assert m < n;
    assert Follows(states[n - 1], steps[n - 1], states[n]);
    if Queued(states[n - 1], p, t) {
      OldProxy(states[n - 1], steps[n - 1], p);
      QueueLeaves(states[n - 1], steps[n - 1], p, t);
      k := n - 1;
    } else {
      k := SomeStepLeaves(states, steps, m, n - 1, p, t);
    }
  }

  lemma LeavesQueue(s: Pool, a: Step, p: ProxyId, t: TaskId)
    requires Leaves(s, a, p, t)
    ensures Queued(s, p, t)
  {
    if a == Take(p) {
      FlatSplit(s.proxies[p].queue);
    }
  }

  lemma LeavesOnce(states: seq<Pool>, steps: seq<Step>, k: nat, i: nat, p: ProxyId, t: TaskId)
    requires IsRun(states, steps) && Start(states[0]) && k < i < |steps| && Leaves(states[k], steps[k], p, t)
    ensures !Leaves(states[i], steps[i], p, t)
  {
    hide Start, Leaves, Follows, Gone, Queued;
    StaysGone(states, steps, k, i, p, t);
    GoneUnqueued(states[i], p, t);
    if Leaves(states[i], steps[i], p, t) {
      LeavesQueue(states[i], steps[i], p, t);
    }
  }

  /** A task queued at a proxy in one state and no longer queued there in a later one left the queue by
      exactly one step in between: the dispatch thread of the running proxy took the first batch, with the
      task in it, or stop drained the stopped proxy. It is never taken and drained, nor queued there again. */
  lemma TakenOrDrained(states: seq<Pool>, steps: seq<Step>, m: nat, n: nat, p: ProxyId, t: TaskId) returns (k: nat)
    requires IsRun(states, steps) && Start(states[0]) && m <= n < |states|
    requires Queued(states[m], p, t) && !Queued(states[n], p, t)
    ensures m <= k < n && p in states[k].proxies && p in states[k + 1].proxies
    ensures
      var q, q' := states[k].proxies[p], states[k + 1].proxies[p];
      || (steps[k] == Take(p) && !q.stopped && q.queue != [] && t in q.queue[0] && t in q'.active.tasks)
      || (steps[k] == Drain(p) && q.stopped && t in Flat(q.queue) && t in q'.drained.tasks)
    ensures forall i | m <= i < n && Leaves(states[i], steps[i], p, t) :: i == k
    ensures forall i | k < i < |states| :: !Queued(states[i], p, t)
  {
    k := SomeStepLeaves(states, steps, m, n, p, t);
    assert Follows(states[k], steps[k], states[k + 1]);
    LeavingStep(states[k], steps[k], p, t);
    hide IsRun, Start, Leaves, Can, Next, Gone;
    forall i | m <= i < n && i != k ensures !Leaves(states[i], steps[i], p, t) {
      if i > k {
        LeavesOnce(states, steps, k, i, p, t);
      } else if Leaves(states[i], steps[i], p, t) {
        LeavesOnce(states, steps, i, k, p, t);
      }
    }
    forall i | k < i < |states| ensures !Queued(states[i], p, t) {
      StaysGone(states, steps, k, i, p, t);
      GoneUnqueued(states[i], p, t);
    }
  }

  lemma GoneUnqueued(s: Pool, p: ProxyId, t: TaskId)
    requires Gone(s, p, t)
    ensures !Queued(s, p, t)
  {
  }

  lemma LeavingStep(s: Pool, a: Step, p: ProxyId, t: TaskId)
    requires Can(s, a) && Leaves(s, a, p, t)
    ensures p in s.proxies && p in Next(s, a).proxies
    ensures
      var q, q' := s.proxies[p], Next(s, a).proxies[p];
      || (a == Take(p) && !q.stopped && q.queue != [] && t in q.queue[0] && t in q'.active.tasks)
      || (a == Drain(p) && q.stopped && t in Flat(q.queue) && t in q'.drained.tasks)
  {
    OldProxy(s, a, p);
    FlatConcat(s.proxies[p].queue);
    assert t in Flat(s.proxies[p].queue) ==> t in multiset(Concat(s.proxies[p].queue));
  }
}
