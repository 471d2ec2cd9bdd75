/** How often a task can be put in a ProcessBatch call: an invariant of the worker pool protocol. */
module ProxyDispatch {
  import opened Wrappers
  import opened ProxyProtocol
  import T = Tasks

  /** What holds of every task: at most one reserved retry, at most one call more than that, never two
      calls on one worker, always the task's own deadline, and no retry at all of a durable kind. */
  predicate CallsOk(r: TaskRecord) {
    && r.state.retries <= 1 && |r.rpcs| <= r.state.retries + 1
    && (r.Durable() ==> r.state.retries == 0)
    && (|r.rpcs| == 2 ==> r.rpcs[0].worker != r.rpcs[1].worker)
    && (forall i | 0 <= i < |r.rpcs| :: r.rpcs[i].deadline == r.state.deadline)
  }

  /** A task waiting to be sent by worker wid: every earlier call was retried, and made elsewhere. */
  predicate Waiting(r: TaskRecord, wid: WorkerId) {
    && |r.rpcs| <= r.state.retries
    && (forall i | 0 <= i < |r.rpcs| :: r.rpcs[i].worker != wid)
  }

  /** A task in the hand of a thread of worker wid: its only unretried call, if any, was made here. */
  predicate InHand(r: TaskRecord, wid: WorkerId) {
    |r.rpcs| == 1 && r.state.retries == 0 ==> r.rpcs[0].worker == wid
  }

  /** A task being offered to other workers: the retry is reserved, and any call so far was made here. */
  predicate OnOffer(r: TaskRecord, wid: WorkerId) {
    r.state.retries == 1 && |r.rpcs| <= 1 && (|r.rpcs| == 1 ==> r.rpcs[0].worker == wid)
  }

  ghost predicate HandCounts(tasks: map<TaskId, TaskRecord>, wid: WorkerId, h: Hand) {
    && (forall t | t in h.tasks :: t in tasks && InHand(tasks[t], wid))
    && (h.offer.Some? && h.offer.value.reserved ==> h.tasks != [] && OnOffer(tasks[h.tasks[0]], wid))
  }

  ghost predicate Counts(tasks: map<TaskId, TaskRecord>, q: Proxy) {
    && (forall b, t | b in q.queue && t in b :: t in tasks && Waiting(tasks[t], q.wid))
    && (q.phase.Screening? ==> forall t | t in q.active.tasks :: t in tasks && Waiting(tasks[t], q.wid))
    && HandCounts(tasks, q.wid, q.active)
    && HandCounts(tasks, q.wid, q.drained)
  }

  ghost predicate Counted(s: Pool) {
    && (forall t | t in s.tasks :: CallsOk(s.tasks[t]))
    && (forall p | p in s.proxies :: Counts(s.tasks, s.proxies[p]))
  }

  // ---------------------------------------------------------------------------------------------
  // Steps that count nothing
  // ---------------------------------------------------------------------------------------------

  predicate Sends(s: Pool, a: Step) {
    && a.Begin? && a.p in s.proxies
    && var q := s.proxies[a.p];
       q.active.tasks != [] && !q.stopped && !NoTimeLeft(s.tasks, q.active.tasks, a.at)
  }

  predicate Retries(s: Pool, a: Step) {
    && a.Reserve? && HasHead(s, a.p, a.who)
    && T.Reserves(s.tasks[Head(s, a.p, a.who)].state, a.at)
  }

  /** Calls and retries of the tasks are as before. */
  ghost predicate SameCounts(tasks: map<TaskId, TaskRecord>, tasks': map<TaskId, TaskRecord>) {
    && tasks.Keys == tasks'.Keys
    && forall t | t in tasks ::
         && tasks'[t].rpcs == tasks[t].rpcs && tasks'[t].state.retries == tasks[t].state.retries
         && tasks'[t].kind == tasks[t].kind && tasks'[t].state.deadline == tasks[t].state.deadline
  }

  lemma MoveTaskCounts(tasks: map<TaskId, TaskRecord>, t: TaskId, op: T.TaskOp)
    requires t in tasks && (op.Reserve? ==> !T.Reserves(tasks[t].state, op.at))
    ensures SameCounts(tasks, MoveTask(tasks, t, op))
  {
  }

  lemma MoveAllCounts(tasks: map<TaskId, TaskRecord>, ts: seq<TaskId>, op: T.TaskOp)
    requires !op.Reserve?
    ensures SameCounts(tasks, MoveAll(tasks, ts, op))
  {
  }

  lemma SameCountsRefl(tasks: map<TaskId, TaskRecord>)
    ensures SameCounts(tasks, tasks)
  {
  }

  lemma SameCountsTrans(a: map<TaskId, TaskRecord>, b: map<TaskId, TaskRecord>, c: map<TaskId, TaskRecord>)
    requires SameCounts(a, b) && SameCounts(b, c)
    ensures SameCounts(a, c)
  {
  }

  lemma QuietBegin(s: Pool, p: ProxyId, at: T.Time)
    requires Can(s, Begin(p, at)) && !Sends(s, Begin(p, at))
    ensures SameCounts(s.tasks, TasksAfter(s, Begin(p, at)))
  {
    hide MoveAll, SendAll, NoTimeLeft, SameCounts;
    var ts := s.proxies[p].active.tasks;
    SameCountsRefl(s.tasks);
    MoveAllCounts(s.tasks, ts, T.Start(at));
    MoveAllCounts(MoveAll(s.tasks, ts, T.Start(at)), ts, DeadlineFailure(at));
    SameCountsTrans(s.tasks, MoveAll(s.tasks, ts, T.Start(at)),
          MoveAll(MoveAll(s.tasks, ts, T.Start(at)), ts, DeadlineFailure(at)));
  }

  lemma QuietHand(s: Pool, a: Step)
    requires Can(s, a) && !Retries(s, a) && (a.Resolve? || a.Reserve? || a.GiveUp?)
    ensures SameCounts(s.tasks, TasksAfter(s, a))
  {
    hide MoveTask, CandidatesFor, SameCounts;
    var t := Head(s, a.p, a.who);
    if a.Resolve? {
      MoveTaskCounts(s.tasks, t, ResolveOp(s.tasks[t], a.at, a.error));
    } else {
      MoveTaskCounts(s.tasks, t, T.Fail(a.at, a.error, None));
    }
  }

  lemma QuietCounts(s: Pool, a: Step)
    requires Can(s, a) && !Sends(s, a) && !Retries(s, a)
    ensures SameCounts(s.tasks, TasksAfter(s, a))
  {
    hide MoveTask, MoveAll, SendAll, DurableOf, NoTimeLeft, CandidatesFor, SameCounts;
    SameCountsRefl(s.tasks);
    if a.Resolve? || a.Reserve? || a.GiveUp? {
      QuietHand(s, a);
    } else {
      hide Retries, Sends;
      match a
      case External(t, op) => MoveTaskCounts(s.tasks, t, op);
      case Answer(_, t, op) => MoveTaskCounts(s.tasks, t, op);
      case Screen(p, at) =>
        MoveTaskCounts(s.tasks, s.proxies[p].active.tasks[s.proxies[p].phase.next], DeadlineFailure(at));
      case Begin(p, at) => QuietBegin(s, p, at);
      case EndResponse(p, at) =>
        MoveAllCounts(s.tasks, DurableOf(s.tasks, s.proxies[p].active.tasks),
                      T.Fail(at, "worker omitted task result", Some("transport_error")));
      case DeadlineError(p, at) => MoveAllCounts(s.tasks, s.proxies[p].active.tasks, DeadlineFailure(at));
      case _ =>
    }
  }

  lemma CountsCarry(tasks: map<TaskId, TaskRecord>, tasks': map<TaskId, TaskRecord>, q: Proxy)
    requires SameCounts(tasks, tasks') && Counts(tasks, q)
    ensures Counts(tasks', q)
  {
  }

  lemma CallsCarry(tasks: map<TaskId, TaskRecord>, tasks': map<TaskId, TaskRecord>)
    requires SameCounts(tasks, tasks') && forall t | t in tasks :: CallsOk(tasks[t])
    ensures forall t | t in tasks' :: CallsOk(tasks'[t])
  {
  }

  // ---------------------------------------------------------------------------------------------
  // What a step makes of one proxy, judged by the counts before it
  // ---------------------------------------------------------------------------------------------

  lemma ConcatFrom(q: seq<Batch>, t: TaskId)
    requires t in Concat(q)
    ensures exists b | b in q :: t in b
    decreases |q|
  {
    if t in q[0] {
      assert q[0] in q;
    } else {
      ConcatFrom(q[1..], t);
      var b :| b in q[1..] && t in b;
      assert b in q;
    }
  }

  lemma HandCountsTail(tasks: map<TaskId, TaskRecord>, wid: WorkerId, h: Hand)
    requires HandCounts(tasks, wid, h) && h.tasks != []
    ensures HandCounts(tasks, wid, Hand(h.tasks[1..], None))
  {
  }

  lemma CountsDropHead(tasks: map<TaskId, TaskRecord>, q: Proxy, who: Thread)
    requires Counts(tasks, q) && q.Resolving(who) && q.HandOf(who).tasks != []
    ensures Counts(tasks, DropHead(q, who))
  {
    HandCountsTail(tasks, q.wid, q.HandOf(who));
    hide Waiting, InHand, OnOffer;
  }

  lemma CountsOf(s: Pool, p: ProxyId)
    requires Counted(s) && p in s.proxies
    ensures Counts(s.tasks, s.proxies[p])
  {
  }

  /** Making an offer, or going on with one that was there. */
  lemma CountsOffer(tasks: map<TaskId, TaskRecord>, q: Proxy, who: Thread, o: Offer)
    requires Counts(tasks, q) && q.Resolving(who)
    requires o.reserved ==> q.HandOf(who).offer.Some? && q.HandOf(who).offer.value.reserved
    ensures Counts(tasks, SetOffer(q, who, o))
  {
    hide Waiting, InHand, OnOffer;
    assert HandCounts(tasks, q.wid, q.HandOf(who));
  }

  lemma CountsHand(s: Pool, a: Step, p: ProxyId)
    requires Counted(s) && Can(s, a) && p in s.proxies && !Retries(s, a) && !Accepting(s, a)
    requires a.Resolve? || a.Candidates? || a.Reserve? || a.GiveUp? || a.TryNext?
    ensures Counts(s.tasks, ProxyAfter(s, a, p))
  {
    hide CandidatesFor, InHand, OnOffer, Waiting, NoTimeLeft, Remove, Concat, CallsOk, DropHead, SetOffer, Counts;
    var q := s.proxies[p];
    assert Counts(s.tasks, q) by { CountsOf(s, p); }
    if a.p == p {
      CountsDropHead(s.tasks, q, a.who);
      if a.Candidates? {
        CountsOffer(s.tasks, q, a.who, Offer(CandidatesFor(s, Head(s, p, a.who), q.wid), false));
      } else if a.TryNext? {
        var o := q.HandOf(a.who).offer.value;
        CountsOffer(s.tasks, q, a.who, o.(candidates := o.candidates - {a.c}));
      }
    }
  }

  lemma DispatchElsewhere(s: Pool, a: Step, p: ProxyId)
    requires Can(s, a) && p in s.proxies && DispatchStep(a) && a.p != p
    ensures ProxyAfter(s, a, p) == s.proxies[p]
  {
    hide NoTimeLeft, CandidatesFor, DropHead, SetOffer, Concat;
  }

  lemma CountsTake(tasks: map<TaskId, TaskRecord>, q: Proxy)
    requires Counts(tasks, q) && q.queue != []
    ensures Counts(tasks, q.(queue := q.queue[1..], active := Hand(q.queue[0], None), phase := Screening(0)))
  {
    hide OnOffer;
    assert q.queue[0] in q.queue;
  }

  /** A proxy whose hands only lost tasks, and that screens only what it screened. */
  predicate Shrunk(q: Proxy, r: Proxy) {
    && r.wid == q.wid && r.queue == q.queue && r.drained == q.drained
    && (r.phase.Screening? ==> q.phase.Screening?)
    && (r.active.offer == None || r.active == q.active)
    && forall t | t in r.active.tasks :: t in q.active.tasks
  }

  lemma CountsShrunk(tasks: map<TaskId, TaskRecord>, q: Proxy, r: Proxy)
    requires Counts(tasks, q) && Shrunk(q, r)
    ensures Counts(tasks, r)
  {
    hide Waiting, InHand, OnOffer;
  }

  lemma DispatchShrinks(s: Pool, a: Step, p: ProxyId)
    requires Can(s, a) && p in s.proxies && DispatchStep(a) && !a.Take? && a.p == p
    ensures Shrunk(s.proxies[p], ProxyAfter(s, a, p))
  {
    hide CandidatesFor, DropHead, SetOffer, Concat, NoTimeLeft;
  }

  lemma CountsDispatch(s: Pool, a: Step, p: ProxyId)
    requires Counted(s) && Can(s, a) && p in s.proxies && DispatchStep(a) && !Sends(s, a)
    ensures Counts(s.tasks, ProxyAfter(s, a, p))
  {
    var q := s.proxies[p];
    assert Counts(s.tasks, q);
    hide Counts, Counted, Sends, Shrunk;
    if a.p != p {
      DispatchElsewhere(s, a, p);
    } else if a.Take? {
      CountsTake(s.tasks, q);
    } else {
      hide Can, ProxyAfter;
      DispatchShrinks(s, a, p);
      CountsShrunk(s.tasks, q, ProxyAfter(s, a, p));
    }
  }

  predicate DispatchStep(a: Step) {
    a.Take? || a.Screen? || a.Begin? || a.Answer? || a.EndResponse? || a.DeadlineError? || a.RpcFailed? || a.EndBatch?
  }

  lemma CountsDrain(s: Pool, a: Step, p: ProxyId)
    requires Counted(s) && Can(s, a) && p in s.proxies && a.Drain?
    ensures Counts(s.tasks, ProxyAfter(s, a, p))
  {
    var q := s.proxies[p];
    assert Counts(s.tasks, q);
    if a.p == p {
      forall t | t in Concat(q.queue) ensures t in s.tasks && InHand(s.tasks[t], q.wid) {
        ConcatFrom(q.queue, t);
      }
    }
  }

  lemma CountsOther(s: Pool, a: Step, p: ProxyId)
    requires Counted(s) && Can(s, a) && p in s.proxies
    requires a.External? || a.Submit? || a.AddProxy? || a.SetRouting? || a.RemoveProxy? || a.StopPool?
    ensures Counts(s.tasks, ProxyAfter(s, a, p))
  {
    hide OnOffer, InHand;
    var q := s.proxies[p];
    assert Counts(s.tasks, q);
  }

  lemma CountsReceive(tasks: map<TaskId, TaskRecord>, q: Proxy, t: TaskId)
    requires Counts(tasks, q) && t in tasks && Waiting(tasks[t], q.wid)
    ensures Counts(tasks, q.(queue := q.queue + [[t]]))
  {
    hide Waiting, HandCounts;
  }

  lemma HeadOnOffer(tasks: map<TaskId, TaskRecord>, q: Proxy, who: Thread)
    requires Counts(tasks, q) && q.HandOf(who).offer.Some? && q.HandOf(who).offer.value.reserved
    ensures q.HandOf(who).tasks != [] && q.HandOf(who).tasks[0] in tasks
              && OnOffer(tasks[q.HandOf(who).tasks[0]], q.wid)
  {
    assert HandCounts(tasks, q.wid, q.HandOf(who));
    assert q.HandOf(who).tasks[0] in q.HandOf(who).tasks;
  }

  lemma OnOfferElsewhere(r: TaskRecord, wid: WorkerId, other: WorkerId)
    requires OnOffer(r, wid) && wid != other
    ensures Waiting(r, other)
  {
  }

  lemma CountsHandoff(s: Pool, a: Step, p: ProxyId)
    requires Counted(s) && Structured(s) && Can(s, a) && p in s.proxies && Accepting(s, a)
    ensures Counts(s.tasks, ProxyAfter(s, a, p))
  {
    var q := s.proxies[p];
    HandoffShape(s, a, p);
    OtherProxy(s, a);
    assert Counts(s.tasks, q) && Counts(s.tasks, s.proxies[a.p]);
    hide Structured, Can, ProxyAfter, CallsOk, Counts, DropHead;
    if a.p == p {
      CountsDropHead(s.tasks, q, a.who);
    } else if a.c == p {
      var t := Head(s, a.p, a.who);
      HeadOnOffer(s.tasks, s.proxies[a.p], a.who);
      OnOfferElsewhere(s.tasks[t], s.proxies[a.p].wid, q.wid);
      CountsReceive(s.tasks, q, t);
    }
  }

  lemma CountsAfter(s: Pool, a: Step, p: ProxyId)
    requires Counted(s) && Structured(s) && Can(s, a) && p in s.proxies && !Sends(s, a) && !Retries(s, a)
    ensures Counts(s.tasks, ProxyAfter(s, a, p))
  {
    hide Counted, Counts, Structured, Can, ProxyAfter, Sends, Retries;
    if Accepting(s, a) {
      CountsHandoff(s, a, p);
    } else if DispatchStep(a) {
      CountsDispatch(s, a, p);
    } else if a.Drain? {
      CountsDrain(s, a, p);
    } else if a.Resolve? || a.Candidates? || a.Reserve? || a.GiveUp? || a.TryNext? {
      CountsHand(s, a, p);
    } else {
      CountsOther(s, a, p);
    }
  }

  lemma QuietStep(s: Pool, a: Step)
    requires Counted(s) && Structured(s) && Can(s, a) && !Sends(s, a) && !Retries(s, a)
    ensures Counted(Next(s, a))
  {
    QuietCounts(s, a);
    CallsCarry(s.tasks, TasksAfter(s, a));
    var s' := Next(s, a);
    forall p | p in s'.proxies ensures Counts(s'.tasks, s'.proxies[p]) {
      hide Counts, Structured, TasksAfter, ProxyAfter, OmittedBy, Sends, Retries, SameCounts, CallsOk;
      if a.AddProxy? && p == a.p {
        EmptyCounts(s'.tasks, a.wid, a.ready);
      } else {
        CountsAfter(s, a, p);
        CountsCarry(s.tasks, s'.tasks, ProxyAfter(s, a, p));
      }
    }
  }

  lemma EmptyCounts(tasks: map<TaskId, TaskRecord>, wid: WorkerId, ready: bool)
    ensures Counts(tasks, NewProxy(wid, ready))
  {
  }

  // ---------------------------------------------------------------------------------------------
  // Sending a batch and reserving a retry
  // ---------------------------------------------------------------------------------------------

  /** A task held by one proxy is in no queue, hand or drained list of another. */
  lemma HeldOnce(s: Pool, p: ProxyId, q: ProxyId, t: TaskId)
    requires Conserved(s) && p in s.proxies && q in s.proxies && p != q && t in Holds(s.proxies[p])
    ensures t !in Holds(s.proxies[q])
  {
    var h := Holdings(s);
    assert h[p] == Holds(s.proxies[p]) && h[q] == Holds(s.proxies[q]);
  }

  lemma FlatHas(q: seq<Batch>, b: Batch, t: TaskId)
    requires b in q && t in b
    ensures t in Flat(q)
    decreases |q|
  {
    if b == q[0] {
      assert t in multiset(b);
    } else {
      assert b in q[1..];
      FlatHas(q[1..], b, t);
    }
  }

  lemma HoldsHas(q: Proxy, t: TaskId)
    requires t in q.active.tasks || t in q.drained.tasks || exists b | b in q.queue :: t in b
    ensures t in Holds(q)
  {
    if b :| b in q.queue && t in b {
      FlatHas(q.queue, b, t);
    }
    assert t in q.active.tasks ==> t in multiset(q.active.tasks);
    assert t in q.drained.tasks ==> t in multiset(q.drained.tasks);
  }

  /** Tasks the step counts: the batch being sent, or the task whose retry is reserved. */
  ghost predicate CountsOnly(s: Pool, tasks': map<TaskId, TaskRecord>, touched: set<TaskId>) {
    && s.tasks.Keys == tasks'.Keys
    && forall t | t in s.tasks && t !in touched ::
         && tasks'[t].rpcs == s.tasks[t].rpcs && tasks'[t].state.retries == s.tasks[t].state.retries
  }

  lemma CountsElsewhere(s: Pool, tasks': map<TaskId, TaskRecord>, touched: set<TaskId>, p: ProxyId, q: ProxyId)
    requires Conserved(s) && p in s.proxies && q in s.proxies && p != q
    requires CountsOnly(s, tasks', touched) && Counts(s.tasks, s.proxies[q])
    requires forall t | t in touched :: t in Holds(s.proxies[p])
    ensures Counts(tasks', s.proxies[q])
  {
    hide Holds, Conserved, CallsOk;
    var z := s.proxies[q];
    forall t | (t in z.active.tasks || t in z.drained.tasks
          || exists b | b in z.queue :: t in b) ensures t !in touched {
      HoldsHas(z, t);
      if t in touched {
        HeldOnce(s, p, q, t);
      }
    }
  }

  /** A task in one part of a proxy is in no other part, and once in a hand. */
  lemma PartsApart(s: Pool, p: ProxyId, t: TaskId)
    requires Conserved(s) && p in s.proxies
    ensures
      var q := s.proxies[p];
      && (t in q.active.tasks ==> t !in q.drained.tasks && forall b | b in q.queue :: t !in b)
      && (t in q.drained.tasks ==> forall b | b in q.queue :: t !in b)
      && multiset(q.active.tasks)[t] <= 1 && multiset(q.drained.tasks)[t] <= 1
  {
    var q := s.proxies[p];
    assert Holdings(s)[p][t] <= 1;
    assert t in q.active.tasks ==> t in multiset(q.active.tasks);
    assert t in q.drained.tasks ==> t in multiset(q.drained.tasks);
    forall b | b in q.queue && t in b ensures t in Flat(q.queue) {
      FlatHas(q.queue, b, t);
    }
  }

  lemma SendCalls(s: Pool, a: Step, t: TaskId)
    requires Counted(s) && Can(s, a) && Sends(s, a) && t in s.tasks
    ensures CallsOk(TasksAfter(s, a)[t])
    ensures
      var q := s.proxies[a.p];
      if t in q.active.tasks then InHand(TasksAfter(s, a)[t], q.wid)
      else TasksAfter(s, a)[t] == s.tasks[t]
  {
    hide NoTimeLeft, HandCounts;
    assert Counts(s.tasks, s.proxies[a.p]);
  }

  lemma SendHere(s: Pool, a: Step)
    requires Counted(s) && Conserved(s) && Can(s, a) && Sends(s, a) && ProxyOk(s, s.proxies[a.p])
    ensures Counts(TasksAfter(s, a), ProxyAfter(s, a, a.p))
  {
    hide CandidatesFor, Remove, Concat, DropHead, SetOffer;
    var q := s.proxies[a.p];
    var tasks' := TasksAfter(s, a);
    assert Counts(s.tasks, q);
    assert ProxyAfter(s, a, a.p) == q.(phase := InRpc);
    hide NoTimeLeft, CallsOk, Waiting, InHand, OnOffer, Conserved, TasksAfter, ProxyAfter;
    forall t | t in s.tasks
      ensures if t in q.active.tasks then InHand(tasks'[t], q.wid) else tasks'[t] == s.tasks[t]
    {
      SendCalls(s, a, t);
    }
    forall t | t in q.active.tasks ensures t !in q.drained.tasks && forall b | b in q.queue :: t !in b {
      PartsApart(s, a.p, t);
    }
    SendKeys(s, a);
    assert q.active.offer == None;
    hide Can, Counted, Counts, ProxyOk, Sends;
    SentProxy(s.tasks, tasks', q);
  }

  /** Sending a batch leaves the rest of the proxy as it was. */
  lemma SentProxy(tasks: map<TaskId, TaskRecord>, tasks': map<TaskId, TaskRecord>, q: Proxy)
    requires Counts(tasks, q) && tasks'.Keys == tasks.Keys && q.active.offer == None
    requires forall t | t in tasks :: if t in q.active.tasks then InHand(tasks'[t], q.wid) else tasks'[t] == tasks[t]
    requires forall t | t in q.active.tasks :: t !in q.drained.tasks && forall b | b in q.queue :: t !in b
    ensures Counts(tasks', q.(phase := InRpc))
  {
    hide Waiting, InHand, OnOffer;
  }

  lemma SendKeys(s: Pool, a: Step)
    requires Can(s, a)
    ensures TasksAfter(s, a).Keys == s.tasks.Keys
  {
    TasksGoOnStep(s, a);
  }

  /** Reserving a retry counts it for the head of a hand, whose only call so far was made here. */
  lemma RetryCalls(s: Pool, a: Step, t: TaskId)
    requires Counted(s) && Structured(s) && Can(s, a) && Retries(s, a) && t in s.tasks
    ensures t in TasksAfter(s, a) && CallsOk(TasksAfter(s, a)[t])
    ensures
      var q := s.proxies[a.p];
      if t == Head(s, a.p, a.who) then OnOffer(TasksAfter(s, a)[t], q.wid) && InHand(TasksAfter(s, a)[t], q.wid)
      else TasksAfter(s, a)[t] == s.tasks[t]
  {
    ReserveShape(s, a);
    HeadReady(s, a);
    hide Can, TasksAfter, ProxyAfter, SetOffer, CallsOk, InHand, OnOffer, Structured, HandCounts, Counts;
    if t == Head(s, a.p, a.who) {
      ReserveRecord(s.tasks[t], s.proxies[a.p].wid, a.at);
    }
  }

  /** The head of the hand is not durable, and its only unretried call was made here. */
  lemma HeadReady(s: Pool, a: Step)
    requires Counted(s) && Structured(s) && Can(s, a) && Retries(s, a)
    ensures var r := s.tasks[Head(s, a.p, a.who)]; !r.Durable() && InHand(r, s.proxies[a.p].wid) && CallsOk(r)
  {
    hide CallsOk, InHand, OnOffer;
    var q := s.proxies[a.p];
    assert ProxyOk(s, q) && HandOk(s, q.wid, q.HandOf(a.who));
    assert Counts(s.tasks, q) && HandCounts(s.tasks, q.wid, q.HandOf(a.who));
  }

  lemma ReserveRecord(r: TaskRecord, wid: WorkerId, at: T.Time)
    requires CallsOk(r) && InHand(r, wid) && !r.Durable() && T.Reserves(r.state, at)
    ensures var r' := r.(state := T.Move(r.state, T.Reserve(at))); CallsOk(r') && OnOffer(r', wid) && InHand(r', wid)
  {
  }

  /** Only the head of one hand is counted differently, and it is in no other part of the proxy. */
  lemma RetryCounts(tasks: map<TaskId, TaskRecord>, tasks': map<TaskId, TaskRecord>, q: Proxy, who: Thread, o: Offer)
    requires Counts(tasks, q) && q.Resolving(who) && q.HandOf(who).tasks != [] && tasks.Keys == tasks'.Keys
    requires
      var head := q.HandOf(who).tasks[0];
      && head in tasks && OnOffer(tasks'[head], q.wid) && InHand(tasks'[head], q.wid)
      && (forall t | t in tasks && t != head :: tasks'[t] == tasks[t])
      && (forall b | b in q.queue :: head !in b)
      && head !in q.HandOf(if who == Dispatcher then Stopper else Dispatcher).tasks
    ensures Counts(tasks', SetOffer(q, who, o))
  {
    hide Waiting, InHand, OnOffer;
    var r := SetOffer(q, who, o);
    assert HandCounts(tasks', q.wid, r.HandOf(who));
    assert HandCounts(tasks', q.wid, r.HandOf(if who == Dispatcher then Stopper else Dispatcher));
  }

  /** What reserving a retry does to the hand's proxy and to the tasks. */
  lemma ReserveShape(s: Pool, a: Step)
    requires Can(s, a) && Retries(s, a)
    ensures
      var q, head := s.proxies[a.p], Head(s, a.p, a.who);
      && q.HandOf(a.who).offer.Some?
      && ProxyAfter(s, a, a.p) == SetOffer(q, a.who, q.HandOf(a.who).offer.value.(reserved := true))
      && TasksAfter(s, a) == s.tasks[head := s.tasks[head].(state := T.Move(s.tasks[head].state, T.Reserve(a.at)))]
  {
  }

  lemma RetryHere(s: Pool, a: Step)
    requires Counted(s) && Structured(s) && Conserved(s) && Can(s, a) && Retries(s, a)
    ensures Counts(TasksAfter(s, a), ProxyAfter(s, a, a.p))
  {
    ReserveShape(s, a);
    hide Can;
    var q := s.proxies[a.p];
    var head := Head(s, a.p, a.who);
    var tasks' := TasksAfter(s, a);
    var o := q.HandOf(a.who).offer.value.(reserved := true);
    assert Counts(s.tasks, q);
    hide CallsOk, Waiting, InHand, OnOffer, Conserved, TasksAfter, ProxyAfter, Structured, ProxyOk, Counts, SetOffer;
    PartsApart(s, a.p, head);
    SendKeys(s, a);
    forall t | t in s.tasks
      ensures if t == head then OnOffer(tasks'[t], q.wid) && InHand(tasks'[t], q.wid) else tasks'[t] == s.tasks[t]
    {
      RetryCalls(s, a, t);
    }
    OtherHand(s, a);
    RetryCounts(s.tasks, tasks', q, a.who, o);
  }

  /** The thread that is not reserving keeps its offer, which is about another task. */
  lemma OtherHand(s: Pool, a: Step)
    requires Conserved(s) && Can(s, a) && Retries(s, a)
    ensures
      var other := s.proxies[a.p].HandOf(if a.who == Dispatcher then Stopper else Dispatcher);
      Head(s, a.p, a.who) !in other.tasks
  {
    PartsApart(s, a.p, Head(s, a.p, a.who));
  }

  ghost function Touched(s: Pool, a: Step): set<TaskId>
    requires Can(s, a) && (Sends(s, a) || Retries(s, a))
  {
    if a.Begin? then (set t | t in s.proxies[a.p].active.tasks) else {Head(s, a.p, a.who)}
  }

  lemma TouchedIsHeld(s: Pool, a: Step)
    requires Can(s, a) && (Sends(s, a) || Retries(s, a))
    ensures forall t | t in Touched(s, a) :: t in Holds(s.proxies[a.p])
  {
    hide Holds;
    forall t | t in Touched(s, a) ensures t in Holds(s.proxies[a.p]) {
      HoldsHas(s.proxies[a.p], t);
    }
  }

  lemma CountingCalls(s: Pool, a: Step, t: TaskId)
    requires Counted(s) && Structured(s) && Can(s, a) && (Sends(s, a) || Retries(s, a)) && t in s.tasks
    ensures t in TasksAfter(s, a) && CallsOk(TasksAfter(s, a)[t])
    ensures t !in Touched(s, a) ==> TasksAfter(s, a)[t] == s.tasks[t]
  {
    hide CallsOk, Counted, Structured, TasksAfter, Can, InHand, OnOffer;
    SendKeys(s, a);
    if a.Begin? { SendCalls(s, a, t); } else { RetryCalls(s, a, t); }
  }

  lemma CountingProxy(s: Pool, a: Step, p: ProxyId)
    requires Counted(s) && Structured(s) && Conserved(s) && Can(s, a) && (Sends(s, a) || Retries(s, a))
    requires p in s.proxies
    ensures Counts(TasksAfter(s, a), ProxyAfter(s, a, p))
  {
    assert Counts(s.tasks, s.proxies[p]) && ProxyOk(s, s.proxies[a.p]);
    hide Counts, CallsOk, Conserved, Structured, TasksAfter, ProxyAfter, Holds, ProxyOk, Counted, Sends, Retries,
        Touched, Can;
    if p != a.p {
      SendKeys(s, a);
      TouchedIsHeld(s, a);
      forall t | t in s.tasks && t !in Touched(s, a) ensures TasksAfter(s, a)[t] == s.tasks[t] {
        CountingCalls(s, a, t);
      }
      CountsElsewhere(s, TasksAfter(s, a), Touched(s, a), a.p, p);
      Bystander(s, a, p);
    } else if a.Begin? {
      SendHere(s, a);
    } else {
      RetryHere(s, a);
    }
  }

  lemma CountingStep(s: Pool, a: Step)
    requires Counted(s) && Structured(s) && Conserved(s) && Can(s, a) && (Sends(s, a) || Retries(s, a))
    ensures Counted(Next(s, a))
  {
    hide Counts, CallsOk, Conserved, Structured, TasksAfter, ProxyAfter, Touched, Can, OmittedBy;
    SendKeys(s, a);
    forall t | t in s.tasks ensures CallsOk(TasksAfter(s, a)[t]) {
      CountingCalls(s, a, t);
    }
    forall p | p in s.proxies ensures Counts(TasksAfter(s, a), ProxyAfter(s, a, p)) {
      CountingProxy(s, a, p);
    }
  }

  lemma Bystander(s: Pool, a: Step, p: ProxyId)
    requires Can(s, a) && p in s.proxies && (Sends(s, a) || Retries(s, a)) && p != a.p
    ensures ProxyAfter(s, a, p) == s.proxies[p]
  {
  }

  lemma CountedStep(s: Pool, a: Step)
    requires Counted(s) && Structured(s) && Conserved(s) && Can(s, a)
    ensures Counted(Next(s, a))
  {
    hide Counted, Structured, Conserved, Can, Sends, Retries, Next;
    if Sends(s, a) || Retries(s, a) {
      CountingStep(s, a);
    } else {
      QuietStep(s, a);
    }
  }
}
