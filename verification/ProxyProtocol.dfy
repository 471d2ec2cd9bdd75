/** The worker pool as a transition system (system/grpc_worker_pool.py): proxies with a two-slot queue
    and a dispatch thread, stop threads that drain them, submitters, discovery updates and shutdown, all
    interleaved. One step is one lock-protected section or one update of a single task. */
module ProxyProtocol {
  import opened Wrappers
  import T = Tasks

  type TaskId = nat
  type ProxyId = nat
  type WorkerId = string
  type Batch = seq<TaskId>

  /** One task put in a ProcessBatch call. */
  datatype Rpc = Rpc(worker: WorkerId, deadline: Option<T.Time>)

  datatype TaskRecord = TaskRecord(kind: string, state: T.TaskState, rpcs: seq<Rpc>) {
    predicate Durable() {
      kind in T.DURABLE_KINDS
    }
  }

  /** Where the dispatch thread of a proxy is. */
  datatype Phase = Idle | Screening(next: nat) | InRpc | HandingOff(retry: bool)

  /** The handoff of the first task of a hand: the proxies still to be tried. */
  datatype Offer = Offer(candidates: set<ProxyId>, reserved: bool)

  /** Tasks one thread still has to resolve, first one first. */
  datatype Hand = Hand(tasks: seq<TaskId>, offer: Option<Offer>)

  datatype Proxy = Proxy(
    wid: WorkerId,
    queue: seq<Batch>,
    phase: Phase,
    active: Hand,          // the dispatch thread's batch
    drained: Hand,         // what stop took from the queue
    stopped: bool,
    retryOnStop: bool,
    ready: bool
  ) {
    predicate Processing() {
      phase != Idle
    }

    function Outstanding(): nat {
      |queue| + if Processing() then 1 else 0
    }

    /** The test of try_submit. */
    predicate Accepts() {
      !stopped && ready && Outstanding() < 2
    }

    predicate IsReady() {
      !stopped && ready
    }

    function HandOf(who: Thread): Hand {
      if who == Dispatcher then active else drained
    }

    function WithHand(who: Thread, h: Hand): Proxy {
      if who == Dispatcher then this.(active := h) else this.(drained := h)
    }

    /** Whether the thread may hand its tasks to another worker. */
    predicate MayRetry(who: Thread) {
      if who == Dispatcher then phase == HandingOff(true) else retryOnStop
    }

    /** Whether the thread is resolving its tasks one by one. */
    predicate Resolving(who: Thread) {
      who == Dispatcher ==> phase.HandingOff?
    }
  }

  datatype Thread = Dispatcher | Stopper

  datatype Pool = Pool(
    proxies: map<ProxyId, Proxy>,     // every proxy ever created
    members: map<WorkerId, ProxyId>,  // _workers
    stopping: bool,
    tasks: map<TaskId, TaskRecord>,
    placed: set<TaskId>,              // tasks accepted by some proxy
    omitted: set<TaskId>,             // tasks a response left out, still unresolved at that point
    kinds: map<WorkerId, set<string>> // what each worker supports
  )

  datatype Step =
    | External(task: TaskId, op: T.TaskOp)
    | Submit(p: ProxyId, batch: Batch)
    | Take(p: ProxyId)
    | Screen(p: ProxyId, at: T.Time)
    | Begin(p: ProxyId, at: T.Time)
    | Answer(p: ProxyId, task: TaskId, op: T.TaskOp)
    | EndResponse(p: ProxyId, at: T.Time)
    | DeadlineError(p: ProxyId, at: T.Time)
    | RpcFailed(p: ProxyId, retry: bool)
    | Resolve(p: ProxyId, who: Thread, at: T.Time, error: string)
    | Candidates(p: ProxyId, who: Thread, at: T.Time)
    | Reserve(p: ProxyId, who: Thread, at: T.Time, error: string)
    | TryNext(p: ProxyId, who: Thread, c: ProxyId)
    | GiveUp(p: ProxyId, who: Thread, at: T.Time, error: string)
    | EndBatch(p: ProxyId)
    | Drain(p: ProxyId)
    | AddProxy(wid: WorkerId, p: ProxyId, ready: bool)
    | SetRouting(wid: WorkerId, ready: bool)
    | RemoveProxy(wid: WorkerId)
    | StopPool

  // ---------------------------------------------------------------------------------------------
  // Effects
  // ---------------------------------------------------------------------------------------------

  /** Tasks keep their kind and deadline, and terminal tasks stay as they are. */
  ghost predicate TasksGoOn(tasks: map<TaskId, TaskRecord>, tasks': map<TaskId, TaskRecord>) {
    && tasks.Keys == tasks'.Keys
    && forall t | t in tasks ::
         && tasks'[t].kind == tasks[t].kind
         && tasks'[t].state.deadline == tasks[t].state.deadline
         && (tasks[t].state.Terminal() ==> tasks'[t].state == tasks[t].state)
  }

  function MoveTask(tasks: map<TaskId, TaskRecord>, t: TaskId, op: T.TaskOp): (tasks': map<TaskId, TaskRecord>)
    requires t in tasks
    ensures TasksGoOn(tasks, tasks')
  {
    tasks[t := tasks[t].(state := T.Move(tasks[t].state, op))]
  }

  /** The same update on every task of a list. */
  function MoveAll(tasks: map<TaskId, TaskRecord>, ts: seq<TaskId>, op: T.TaskOp): (tasks': map<TaskId, TaskRecord>)
    ensures TasksGoOn(tasks, tasks')
  {
    map t | t in tasks :: if t in ts then tasks[t].(state := T.Move(tasks[t].state, op)) else tasks[t]
  }

  /** Mark the tasks started and put them in one ProcessBatch call. */
  function SendAll(tasks: map<TaskId, TaskRecord>, ts: seq<TaskId>, wid: WorkerId,
        at: T.Time): (tasks': map<TaskId, TaskRecord>)
    ensures TasksGoOn(tasks, tasks')
  {
    map t | t in tasks ::
      if t in ts then tasks[t].(state := T.Move(tasks[t].state, T.Start(at)),
                                rpcs := tasks[t].rpcs + [Rpc(wid, tasks[t].state.deadline)])
      else tasks[t]
  }

  function DeadlineFailure(at: T.Time): T.TaskOp {
    T.Fail(at, "request deadline exceeded", Some("deadline_exceeded"))
  }

  predicate Unresolved(tasks: map<TaskId, TaskRecord>, t: TaskId) {
    t in tasks && !tasks[t].state.Terminal()
  }

  /** Some task has a deadline, and none of those that have one has time left. */
  predicate NoTimeLeft(tasks: map<TaskId, TaskRecord>, ts: seq<TaskId>, at: T.Time) {
    && (exists t | t in ts :: t in tasks && tasks[t].state.deadline.Some?)
    && (forall t | t in ts :: t in tasks && tasks[t].state.deadline.Some? ==> tasks[t].state.Expired(at))
  }

  function Remove(ts: seq<TaskId>, k: nat): seq<TaskId>
    requires k < |ts|
  {
    ts[..k] + ts[k + 1..]
  }

  function Flat(q: seq<Batch>): multiset<TaskId> {
    if q == [] then multiset{} else multiset(q[0]) + Flat(q[1..])
  }

  function Concat(q: seq<Batch>): seq<TaskId> {
    if q == [] then [] else q[0] + Concat(q[1..])
  }

  function Stopped(q: Proxy, retry: bool): Proxy {
    if q.stopped then q else q.(stopped := true, retryOnStop := retry)
  }

  function NewProxy(wid: WorkerId, ready: bool): Proxy {
    Proxy(wid, [], Idle, Hand([], None), Hand([], None), false, false, ready)
  }

  /** Other ready members that support the task. */
  function CandidatesFor(s: Pool, t: TaskId, wid: WorkerId): set<ProxyId>
    requires t in s.tasks
  {
    set w | w in s.members && s.members[w] in s.proxies && w != wid
            && s.proxies[s.members[w]].IsReady() && w in s.kinds && s.tasks[t].kind in s.kinds[w] :: s.members[w]
  }

  // ---------------------------------------------------------------------------------------------
  // The transition relation
  // ---------------------------------------------------------------------------------------------

  /** The first task a thread of proxy p is resolving. */
  predicate HasHead(s: Pool, p: ProxyId, who: Thread) {
    && p in s.proxies && s.proxies[p].Resolving(who)
    && s.proxies[p].HandOf(who).tasks != [] && s.proxies[p].HandOf(who).tasks[0] in s.tasks
  }

  function Head(s: Pool, p: ProxyId, who: Thread): TaskId
    requires HasHead(s, p, who)
  {
    s.proxies[p].HandOf(who).tasks[0]
  }

  predicate OfferOpen(s: Pool, p: ProxyId, who: Thread) {
    HasHead(s, p, who) && s.proxies[p].HandOf(who).offer.Some?
  }

  /** The first task leaves the hand. */
  function DropHead(q: Proxy, who: Thread): (r: Proxy)
    requires q.HandOf(who).tasks != []
    ensures r.wid == q.wid && r.stopped == q.stopped && r.queue == q.queue
  {
    q.WithHand(who, Hand(q.HandOf(who).tasks[1..], None))
  }

  function SetOffer(q: Proxy, who: Thread, o: Offer): (r: Proxy)
    ensures r.wid == q.wid && r.stopped == q.stopped && r.queue == q.queue
  {
    q.WithHand(who, q.HandOf(who).(offer := Some(o)))
  }

  predicate Can(s: Pool, a: Step) {
    match a
    case External(t, op) => t in s.tasks && (op.Finish? || op.Fail?)
    case Submit(p, b) =>
      && p in s.proxies && s.proxies[p].Accepts() && b != []
      && (forall t | t in b :: t in s.tasks && t !in s.placed && s.tasks[t].rpcs == [] && s.tasks[t].state.retries == 0)
      && (forall i, k | 0 <= i < k < |b| :: b[i] != b[k])
      && s.proxies[p].wid in s.kinds
      && (forall t | t in b :: s.tasks[t].kind == s.tasks[b[0]].kind && s.tasks[t].kind in s.kinds[s.proxies[p].wid])
    case Take(p) =>
      p in s.proxies && !s.proxies[p].stopped && s.proxies[p].queue != [] && s.proxies[p].phase == Idle
    case Screen(p, _) =>
      p in s.proxies && s.proxies[p].phase.Screening? && s.proxies[p].phase.next < |s.proxies[p].active.tasks|
      && s.proxies[p].active.tasks[s.proxies[p].phase.next] in s.tasks
    case Begin(p, _) => p in s.proxies && s.proxies[p].phase == Screening(|s.proxies[p].active.tasks|)
    case Answer(p, t, op) =>
      p in s.proxies && s.proxies[p].phase == InRpc && t in s.proxies[p].active.tasks && t in s.tasks
          && (op.Finish? || op.Fail?)
    case EndResponse(p, _) => p in s.proxies && s.proxies[p].phase == InRpc
    case DeadlineError(p, _) => p in s.proxies && s.proxies[p].phase == InRpc
    case RpcFailed(p, retry) =>
      p in s.proxies && s.proxies[p].phase == InRpc && (retry && s.proxies[p].stopped ==> s.proxies[p].retryOnStop)
    case Resolve(p, who, at, _) =>
      && HasHead(s, p, who) && s.proxies[p].HandOf(who).offer == None
      && var r := s.tasks[Head(s, p, who)];
         r.state.Terminal() || r.state.Expired(at) || r.Durable() || !s.proxies[p].MayRetry(who)
    case Candidates(p, who, at) =>
      && HasHead(s, p, who) && s.proxies[p].HandOf(who).offer == None && s.proxies[p].MayRetry(who)
      && var r := s.tasks[Head(s, p, who)];
         !r.state.Terminal() && !r.state.Expired(at) && !r.Durable() && !s.stopping
    case Reserve(p, who, _, _) =>
      OfferOpen(s, p, who) && !s.proxies[p].HandOf(who).offer.value.reserved
      && s.proxies[p].HandOf(who).offer.value.candidates != {}
    case TryNext(p, who, c) =>
      OfferOpen(s, p, who) && s.proxies[p].HandOf(who).offer.value.reserved
      && c in s.proxies[p].HandOf(who).offer.value.candidates && c in s.proxies
    case GiveUp(p, who, _, _) =>
      && HasHead(s, p, who) && !s.tasks[Head(s, p, who)].Durable()
      && (match s.proxies[p].HandOf(who).offer
          case Some(o) => o.candidates == {}
          case None => s.stopping && s.proxies[p].MayRetry(who))
    case EndBatch(p) =>
      p in s.proxies && s.proxies[p].phase.HandingOff? && s.proxies[p].active.tasks == []
    case Drain(p) => p in s.proxies && s.proxies[p].stopped && s.proxies[p].drained == Hand([], None)
    case AddProxy(w, p, _) => !s.stopping && w !in s.members && p !in s.proxies
    case SetRouting(w, _) => !s.stopping && w in s.members && s.members[w] in s.proxies
    case RemoveProxy(w) => !s.stopping && w in s.members && s.members[w] in s.proxies
    case StopPool => true
  }

  function TasksAfter(s: Pool, a: Step): map<TaskId, TaskRecord>
    requires Can(s, a)
  {
    match a
    case External(t, op) => MoveTask(s.tasks, t, op)
    case Screen(p, at) =>
      var t := s.proxies[p].active.tasks[s.proxies[p].phase.next];
      if s.tasks[t].state.Expired(at) then MoveTask(s.tasks, t, DeadlineFailure(at)) else s.tasks
    case Begin(p, at) =>
      var q := s.proxies[p];
      if q.active.tasks == [] || q.stopped then s.tasks
      else if NoTimeLeft(s.tasks, q.active.tasks, at) then
        MoveAll(MoveAll(s.tasks, q.active.tasks, T.Start(at)), q.active.tasks, DeadlineFailure(at))
      else SendAll(s.tasks, q.active.tasks, q.wid, at)
    case Answer(p, t, op) => MoveTask(s.tasks, t, op)
    case EndResponse(p, at) =>
      MoveAll(s.tasks, DurableOf(s.tasks, s.proxies[p].active.tasks),
              T.Fail(at, "worker omitted task result", Some("transport_error")))
    case DeadlineError(p, at) => MoveAll(s.tasks, s.proxies[p].active.tasks, DeadlineFailure(at))
    case Resolve(p, who, at, error) =>
      MoveTask(s.tasks, Head(s, p, who), ResolveOp(s.tasks[Head(s, p, who)], at, error))
    case Reserve(p, who, at, error) =>
      var t := Head(s, p, who);
      MoveTask(s.tasks, t, if T.Reserves(s.tasks[t].state, at) then T.Reserve(at) else T.Fail(at, error, None))
    case GiveUp(p, who, at, error) => MoveTask(s.tasks, Head(s, p, who), T.Fail(at, error, None))
    case _ => s.tasks
  }

  /** What becomes of the proxy a step acts on. */
  function ProxyAfter(s: Pool, a: Step, p: ProxyId): Proxy
    requires Can(s, a) && p in s.proxies
  {
    var q := s.proxies[p];
    match a
    case Submit(o, b) => if o == p then q.(queue := q.queue + [b]) else q
    case Take(o) =>
      if o == p then q.(queue := q.queue[1..], active := Hand(q.queue[0], None), phase := Screening(0)) else q
    case Screen(o, at) =>
      if o != p then q else
      var k := q.phase.next;
      var r := s.tasks[q.active.tasks[k]];
      if r.state.Terminal() || r.state.Expired(at) then q.(active := Hand(Remove(q.active.tasks, k), None))
      else q.(phase := Screening(k + 1))
    case Begin(o, at) =>
      if o != p then q
      else if q.active.tasks == [] then q.(phase := Idle)
      else if q.stopped then q.(phase := HandingOff(q.retryOnStop))
      else if NoTimeLeft(s.tasks, q.active.tasks, at) then q.(phase := Idle, active := Hand([], None))
      else q.(phase := InRpc)
    case EndResponse(o, _) => if o == p then q.(phase := Idle, active := Hand([], None)) else q
    case DeadlineError(o, _) => if o == p then q.(phase := Idle, active := Hand([], None)) else q
    case RpcFailed(o, retry) => if o == p then q.(phase := HandingOff(retry)) else q
    case Resolve(o, who, _, _) => if o == p then DropHead(q, who) else q
    case Candidates(o, who, _) =>
      if o == p then SetOffer(q, who, Offer(CandidatesFor(s, Head(s, p, who), q.wid), false)) else q
    case Reserve(o, who, at, _) =>
      if o != p then q
      else if T.Reserves(s.tasks[Head(s, p, who)].state, at) then
        SetOffer(q, who, q.HandOf(who).offer.value.(reserved := true))
      else DropHead(q, who)
    case TryNext(o, who, c) =>
      if s.proxies[c].Accepts() then
        if o == p then DropHead(q, who)
        else if c == p then q.(queue := q.queue + [[Head(s, o, who)]])
        else q
      else if o == p then
        SetOffer(q, who, q.HandOf(who).offer.value.(candidates := q.HandOf(who).offer.value.candidates - {c}))
      else q
    case GiveUp(o, who, _, _) => if o == p then DropHead(q, who) else q
    case EndBatch(o) => if o == p then q.(phase := Idle) else q
    case Drain(o) => if o == p then q.(queue := [], drained := Hand(Concat(q.queue), None)) else q
    case SetRouting(w, ready) => if s.members[w] == p then q.(ready := ready) else q
    case RemoveProxy(w) => if s.members[w] == p then Stopped(q, true) else q
    case StopPool => if p in s.members.Values then Stopped(q, false) else q
    case _ => q
  }

  function ProxiesAfter(s: Pool, a: Step): map<ProxyId, Proxy>
    requires Can(s, a)
  {
    var kept := map p | p in s.proxies :: ProxyAfter(s, a, p);
    if a.AddProxy? then kept[a.p := NewProxy(a.wid, a.ready)] else kept
  }

  function MembersAfter(s: Pool, a: Step): map<WorkerId, ProxyId>
    requires Can(s, a)
  {
    match a
    case AddProxy(w, p, _) => s.members[w := p]
    case RemoveProxy(w) => s.members - {w}
    case StopPool => map[]
    case _ => s.members
  }

  /** The tasks a response leaves unresolved. */
  function OmittedBy(s: Pool, a: Step): set<TaskId>
    requires Can(s, a)
  {
    if a.EndResponse? then
      set t | t in s.proxies[a.p].active.tasks && Unresolved(TasksAfter(s, a), t)
    else {}
  }

  function Next(s: Pool, a: Step): Pool
    requires Can(s, a)
  {
    Pool(ProxiesAfter(s, a), MembersAfter(s, a), s.stopping || a.StopPool?, TasksAfter(s, a),
         if a.Submit? then s.placed + (set t | t in a.batch) else s.placed,
         s.omitted + OmittedBy(s, a), s.kinds)
  }

  function DurableOf(tasks: map<TaskId, TaskRecord>, ts: seq<TaskId>): seq<TaskId> {
    if ts == [] then []
    else (if ts[0] in tasks && tasks[ts[0]].Durable() then [ts[0]] else []) + DurableOf(tasks, ts[1..])
  }

  /** _finish_or_retry without a handoff: a terminal task stays, then the deadline, then the kind. */
  function ResolveOp(r: TaskRecord, at: T.Time, error: string): T.TaskOp {
    if r.state.Expired(at) then DeadlineFailure(at)
    else T.Fail(at, error, if r.Durable() then Some("transport_error") else None)
  }

  // ---------------------------------------------------------------------------------------------
  // Conservation
  // ---------------------------------------------------------------------------------------------

  /** Everything a proxy holds: queued batches, the active batch, and what stop drained. */
  function Holds(q: Proxy): multiset<TaskId> {
    Flat(q.queue) + multiset(q.active.tasks) + multiset(q.drained.tasks)
  }

  function Holdings(s: Pool): map<ProxyId, multiset<TaskId>> {
    map p | p in s.proxies :: Holds(s.proxies[p])
  }

  /** No task is held twice, in one proxy or in two. */
  ghost predicate Disjoint(h: map<ProxyId, multiset<TaskId>>) {
    && (forall p, t | p in h :: h[p][t] <= 1)
    && (forall p, q, t | p in h && q in h && t in h[p] && t in h[q] :: p == q)
  }

  ghost predicate Held(h: map<ProxyId, multiset<TaskId>>, t: TaskId) {
    exists p | p in h :: t in h[p]
  }

  /** Held tasks were accepted, omitted tasks are held nowhere, and an accepted unresolved task that
      was not omitted is held somewhere. */
  ghost predicate Accounted(h: map<ProxyId, multiset<TaskId>>, placed: set<TaskId>, omitted: set<TaskId>,
                            tasks: map<TaskId, TaskRecord>)
  {
    && omitted <= placed <= tasks.Keys
    && (forall t | Held(h, t) :: t in placed && t !in omitted)
    && (forall t | t in placed && t !in omitted && !tasks[t].state.Terminal() :: Held(h, t))
  }

  ghost predicate Conserved(s: Pool) {
    Disjoint(Holdings(s)) && Accounted(Holdings(s), s.placed, s.omitted, s.tasks)
  }

  /** What happens to the holdings when tasks are only let go: the rest stays where it was. */
  ghost predicate LetsGo(h: map<ProxyId, multiset<TaskId>>, h': map<ProxyId, multiset<TaskId>>) {
    && h.Keys <= h'.Keys
    && forall p | p in h' :: if p in h then h'[p] <= h[p] else h'[p] == multiset{}
  }

  lemma ShrinkDisjoint(h: map<ProxyId, multiset<TaskId>>, h': map<ProxyId, multiset<TaskId>>)
    requires Disjoint(h) && LetsGo(h, h')
    ensures Disjoint(h')
  {
    forall p, t | p in h' ensures h'[p][t] <= 1 {
      assert p in h ==> h[p][t] <= 1;
    }
    forall p, q, t | p in h' && q in h' && t in h'[p] && t in h'[q] ensures p == q {
      assert t in h[p] && t in h[q];
    }
  }

  ghost predicate Dropped(h: map<ProxyId, multiset<TaskId>>, h': map<ProxyId, multiset<TaskId>>, t: TaskId)
    requires h.Keys <= h'.Keys
  {
    exists p | p in h :: t in h[p] && t !in h'[p]
  }

  lemma DroppedIsGone(h: map<ProxyId, multiset<TaskId>>, h': map<ProxyId, multiset<TaskId>>, t: TaskId)
    requires Disjoint(h) && LetsGo(h, h') && Dropped(h, h', t)
    ensures forall p | p in h' :: t !in h'[p]
  {
    var q :| q in h && t in h[q] && t !in h'[q];
    forall p | p in h' ensures t !in h'[p] {
      assert p in h && t in h[p] ==> p == q;
    }
  }

  /** Steps that only let go of tasks: what is let go is resolved or omitted. */
  lemma Shrink(h: map<ProxyId, multiset<TaskId>>, h': map<ProxyId, multiset<TaskId>>, placed: set<TaskId>,
               omitted: set<TaskId>, omitted': set<TaskId>, tasks: map<TaskId, TaskRecord>,
                   tasks': map<TaskId, TaskRecord>)
    requires Disjoint(h) && Accounted(h, placed, omitted, tasks) && LetsGo(h, h')
    requires omitted <= omitted' && tasks.Keys == tasks'.Keys
    requires forall t | Dropped(h, h', t) :: t in tasks' && (tasks'[t].state.Terminal() || t in omitted')
    requires forall t | t in omitted' && t !in omitted :: Dropped(h, h', t)
    requires forall t | t in tasks && tasks[t].state.Terminal() :: tasks'[t].state.Terminal()
    ensures Disjoint(h') && Accounted(h', placed, omitted', tasks')
  {
    ShrinkDisjoint(h, h');
    forall t | t in placed && t !in omitted' && !tasks'[t].state.Terminal() ensures Held(h', t) {
      assert Held(h, t);
      var p :| p in h && t in h[p];
      assert Dropped(h, h', t) || t in h'[p];
    }
    forall t | t in omitted' && t !in omitted ensures t in placed && forall p | p in h' :: t !in h'[p] {
      assert Held(h, t);
      DroppedIsGone(h, h', t);
    }
    forall t | Held(h', t) ensures t in placed && t !in omitted' {
      var p :| p in h' && t in h'[p];
      assert t in h[p] && Held(h, t);
    }
  }

  lemma GrowDisjoint(h: map<ProxyId, multiset<TaskId>>, p: ProxyId, b: multiset<TaskId>)
    requires Disjoint(h) && p in h
    requires forall t :: b[t] <= 1
    requires forall q, t | q in h && t in b :: t !in h[q]
    ensures Disjoint(h[p := h[p] + b])
  {
    var h' := h[p := h[p] + b];
    forall q, t | q in h' ensures h'[q][t] <= 1 {
      assert t in b ==> t !in h[p];
      assert h[q][t] <= 1 && b[t] <= 1;
    }
    forall q, r, t | q in h' && r in h' && t in h'[q] && t in h'[r] ensures q == r {
      if t !in b {
        assert t in h[q] && t in h[r];
      }
    }
  }

  lemma GrowHeld(h: map<ProxyId, multiset<TaskId>>, p: ProxyId, m: multiset<TaskId>, t: TaskId)
    requires p in h
    ensures Held(h[p := h[p] + m], t) <==> t in m || Held(h, t)
  {
    var h' := h[p := h[p] + m];
    if t in m {
      assert t in h'[p];
    } else {
      assert forall q | q in h :: t in h[q] <==> t in h'[q];
    }
  }

  /** A proxy accepts a batch of tasks that are nowhere yet. */
  lemma Grow(h: map<ProxyId, multiset<TaskId>>, p: ProxyId, b: Batch, placed: set<TaskId>, omitted: set<TaskId>,
             tasks: map<TaskId, TaskRecord>)
    requires Disjoint(h) && Accounted(h, placed, omitted, tasks) && p in h
    requires forall t | t in b :: t in tasks && t !in placed
    requires forall i, k | 0 <= i < k < |b| :: b[i] != b[k]
    ensures Disjoint(h[p := h[p] + multiset(b)])
    ensures Accounted(h[p := h[p] + multiset(b)], placed + (set t | t in b), omitted, tasks)
  {
    var m := multiset(b);
    var h' := h[p := h[p] + m];
    assert forall t :: t in m <==> t in b;
    DistinctBatch(b);
    assert forall q, t | q in h && t in m :: t !in h[q] by {
      forall q, t | q in h && t in m ensures t !in h[q] {
        assert t in h[q] ==> Held(h, t);
      }
    }
    GrowDisjoint(h, p, m);
    hide Disjoint, Held;
    GrowAccounted(h, p, b, placed, omitted, tasks);
  }

  lemma GrowAccounted(h: map<ProxyId, multiset<TaskId>>, p: ProxyId, b: Batch, placed: set<TaskId>,
        omitted: set<TaskId>,
                      tasks: map<TaskId, TaskRecord>)
    requires Accounted(h, placed, omitted, tasks) && p in h && forall t | t in b :: t in tasks && t !in placed
    ensures Accounted(h[p := h[p] + multiset(b)], placed + (set t | t in b), omitted, tasks)
  {
    hide Held;
    forall t ensures Held(h[p := h[p] + multiset(b)], t) <==> t in b || Held(h, t) {
      GrowHeld(h, p, multiset(b), t);
    }
  }

  lemma {:induction false} DistinctBatch(b: Batch)
    requires forall i, k | 0 <= i < k < |b| :: b[i] != b[k]
    ensures forall t :: multiset(b)[t] <= 1
    decreases |b|
  {
    if b != [] {
      DistinctBatch(b[1..]);
      assert b == [b[0]] + b[1..];
      assert b[0] !in b[1..];
    }
  }

  function Moved(h: map<ProxyId, multiset<TaskId>>, p: ProxyId, c: ProxyId, t: TaskId): map<ProxyId, multiset<TaskId>>
    requires p in h && c in h
  {
    h[p := h[p] - multiset{t}][c := h[c] + multiset{t}]
  }

  lemma MovedAt(h: map<ProxyId, multiset<TaskId>>, p: ProxyId, c: ProxyId, t: TaskId)
    requires p in h && c in h && p != c && h[p][t] == 1 && h[c][t] == 0
    ensures Moved(h, p, c, t).Keys == h.Keys
    ensures forall q, u | q in h && u != t :: Moved(h, p, c, t)[q][u] == h[q][u]
    ensures forall q | q in h && q != p && q != c :: Moved(h, p, c, t)[q][t] == h[q][t]
    ensures Moved(h, p, c, t)[p][t] == 0 && Moved(h, p, c, t)[c][t] == 1
  {
  }

  lemma TransferDisjoint(h: map<ProxyId, multiset<TaskId>>, p: ProxyId, c: ProxyId, t: TaskId)
    requires Disjoint(h) && p in h && c in h && p != c && t in h[p]
    ensures Disjoint(Moved(h, p, c, t))
  {
    hide Moved;
    var h' := Moved(h, p, c, t);
    assert h[p][t] == 1;
    forall q | q in h && q != p ensures h[q][t] == 0 {
      assert t !in h[q];
    }
    MovedAt(h, p, c, t);
    forall q, r, u | q in h' && r in h' && u in h'[q] && u in h'[r] ensures q == r {
      if u == t {
        assert q == c && r == c;
      } else {
        assert u in h[q] && u in h[r];
      }
    }
    forall q, u | q in h' ensures h'[q][u] <= 1 {
      if u == t { assert h'[q][t] <= 1; } else { assert h[q][u] <= 1; }
    }
  }

  lemma TransferHeld(h: map<ProxyId, multiset<TaskId>>, p: ProxyId, c: ProxyId, t: TaskId, u: TaskId)
    requires p in h && c in h && p != c && h[p][t] == 1 && h[c][t] == 0
    ensures Held(Moved(h, p, c, t), u) <==> Held(h, u)
  {
    hide Moved;
    MovedAt(h, p, c, t);
    if u == t {
      assert u in h[p] && u in Moved(h, p, c, t)[c];
    } else {
      assert forall q | q in h :: u in h[q] <==> u in Moved(h, p, c, t)[q];
    }
  }

  /** A task moves from one proxy to another. */
  lemma Transfer(h: map<ProxyId, multiset<TaskId>>, p: ProxyId, c: ProxyId, t: TaskId, placed: set<TaskId>,
                 omitted: set<TaskId>, tasks: map<TaskId, TaskRecord>)
    requires Disjoint(h) && Accounted(h, placed, omitted, tasks)
    requires p in h && c in h && p != c && t in h[p]
    ensures Disjoint(Moved(h, p, c, t))
    ensures Accounted(Moved(h, p, c, t), placed, omitted, tasks)
  {
    TransferDisjoint(h, p, c, t);
    assert h[p][t] == 1 && t !in h[c];
    hide Disjoint, Moved, Held;
    forall u ensures Held(Moved(h, p, c, t), u) <==> Held(h, u) {
      TransferHeld(h, p, c, t, u);
    }
  }

  lemma {:induction false} FlatAppend(q: seq<Batch>, b: Batch)
    ensures Flat(q + [b]) == Flat(q) + multiset(b)
    decreases |q|
  {
    if q == [] {
      assert q + [b] == [b] && [b][1..] == [];
    } else {
      assert (q + [b])[1..] == q[1..] + [b];
      FlatAppend(q[1..], b);
    }
  }

  lemma {:induction false} FlatConcat(q: seq<Batch>)
    ensures multiset(Concat(q)) == Flat(q)
    decreases |q|
  {
    if q != [] {
      FlatConcat(q[1..]);
    }
  }

  lemma RemoveOne(ts: seq<TaskId>, k: nat)
    requires k < |ts|
    ensures multiset(Remove(ts, k)) + multiset{ts[k]} == multiset(ts)
  {
    assert ts == ts[..k] + [ts[k]] + ts[k + 1..];
  }

  // ---------------------------------------------------------------------------------------------
  // Structure of the proxies
  // ---------------------------------------------------------------------------------------------

  /** Every task of a queued batch is of one kind, and the proxy's worker supports it. */
  ghost predicate BatchOk(s: Pool, wid: WorkerId, b: Batch) {
    && b != [] && wid in s.kinds
    && (forall t | t in b :: t in s.tasks && s.tasks[t].kind in s.kinds[wid])
    && (forall t, u | t in b && u in b :: s.tasks[t].kind == s.tasks[u].kind)
  }

  /** Proxies still to be tried belong to other workers that support the task. */
  ghost predicate HandOk(s: Pool, wid: WorkerId, h: Hand) {
    && (forall t | t in h.tasks :: t in s.tasks)
    && (h.offer.Some? ==>
          && h.tasks != []
          && !s.tasks[h.tasks[0]].Durable()
          && forall c | c in h.offer.value.candidates ::
               && c in s.proxies && s.proxies[c].wid != wid && s.proxies[c].wid in s.kinds
               && s.tasks[h.tasks[0]].kind in s.kinds[s.proxies[c].wid])
  }

  ghost predicate ProxyOk(s: Pool, q: Proxy) {
    && q.Outstanding() <= 2
    && (q.phase == Idle ==> q.active.tasks == [])
    && (q.phase.Screening? ==> q.phase.next <= |q.active.tasks|)
    && (!q.phase.HandingOff? ==> q.active.offer == None)
    && (q.drained.tasks != [] ==> q.stopped)
    && (forall b | b in q.queue :: BatchOk(s, q.wid, b))
    && HandOk(s, q.wid, q.active) && HandOk(s, q.wid, q.drained)
  }

  /** The members are exactly the proxies that are not stopped, and none is left once the pool stops. */
  ghost predicate MembersOk(s: Pool) {
    && (forall w | w in s.members ::
           s.members[w] in s.proxies && s.proxies[s.members[w]].wid == w && !s.proxies[s.members[w]].stopped)
    && (forall p | p in s.proxies && !s.proxies[p].stopped ::
           s.proxies[p].wid in s.members && s.members[s.proxies[p].wid] == p)
    && (s.stopping ==> s.members == map[])
  }

  ghost predicate Structured(s: Pool) {
    MembersOk(s) && forall p | p in s.proxies :: ProxyOk(s, s.proxies[p])
  }

  /** Nothing a proxy depends on ever changes: kinds, and the worker a proxy stands for. */
  ghost predicate Extends(s: Pool, s': Pool) {
    && s'.kinds == s.kinds && s.tasks.Keys == s'.tasks.Keys
    && (forall t | t in s.tasks :: s'.tasks[t].kind == s.tasks[t].kind)
    && s.proxies.Keys <= s'.proxies.Keys
    && (forall p | p in s.proxies :: s'.proxies[p].wid == s.proxies[p].wid)
  }

  lemma TasksGoOnStep(s: Pool, a: Step)
    requires Can(s, a)
    ensures TasksGoOn(s.tasks, Next(s, a).tasks)
  {
    hide MoveTask, MoveAll, SendAll, DurableOf;
  }

  lemma WorkersStay(s: Pool, a: Step, p: ProxyId)
    requires Can(s, a) && p in s.proxies
    ensures ProxyAfter(s, a, p).wid == s.proxies[p].wid
    ensures s.proxies[p].stopped ==> ProxyAfter(s, a, p).stopped && |ProxyAfter(s, a, p).queue| <= |s.proxies[p].queue|
  {
    hide CandidatesFor, NoTimeLeft, Concat, Remove, DropHead, SetOffer;
  }

  lemma ExtendsStep(s: Pool, a: Step)
    requires Can(s, a)
    ensures Extends(s, Next(s, a))
  {
    hide ProxyAfter, TasksAfter;
    TasksGoOnStep(s, a);
    forall p | p in s.proxies ensures p in ProxiesAfter(s, a) && ProxiesAfter(s, a)[p].wid == s.proxies[p].wid {
      WorkersStay(s, a, p);
    }
  }

  lemma BatchStays(s: Pool, s': Pool, wid: WorkerId, b: Batch)
    requires Extends(s, s') && BatchOk(s, wid, b)
    ensures BatchOk(s', wid, b)
  {
  }

  lemma HandStays(s: Pool, s': Pool, wid: WorkerId, h: Hand)
    requires Extends(s, s') && HandOk(s, wid, h)
    ensures HandOk(s', wid, h)
  {
  }

  lemma ProxyStays(s: Pool, s': Pool, q: Proxy)
    requires Extends(s, s') && ProxyOk(s, q)
    ensures ProxyOk(s', q)
  {
    hide BatchOk, HandOk, Extends;
    forall b | b in q.queue ensures BatchOk(s', q.wid, b) {
      BatchStays(s, s', q.wid, b);
    }
    HandStays(s, s', q.wid, q.active);
    HandStays(s, s', q.wid, q.drained);
  }

  lemma FirstKind(s: Pool, wid: WorkerId, b: Batch)
    requires BatchOk(s, wid, b)
    ensures forall t | t in b :: t in s.tasks
  {
  }

  lemma CandidatesOk(s: Pool, t: TaskId, wid: WorkerId)
    requires MembersOk(s) && t in s.tasks
    ensures forall c | c in CandidatesFor(s, t, wid) ::
              && c in s.proxies && s.proxies[c].wid != wid && s.proxies[c].wid in s.kinds
              && s.tasks[t].kind in s.kinds[s.proxies[c].wid]
  {
  }

  lemma ConcatKnown(s: Pool, wid: WorkerId, q: seq<Batch>)
    requires forall b | b in q :: BatchOk(s, wid, b)
    ensures forall t | t in Concat(q) :: t in s.tasks
    decreases |q|
  {
    if q != [] {
      assert q[0] in q;
      ConcatKnown(s, wid, q[1..]);
    }
  }

  /** Judged by the tasks and proxies before the step, what a step makes of a proxy is in order. */
  lemma ProxyOkDispatch(s: Pool, a: Step, p: ProxyId)
    requires Structured(s) && Can(s, a) && p in s.proxies
    requires !a.Resolve? && !a.Candidates? && !a.Reserve? && !a.TryNext? && !a.GiveUp? && !a.Submit? && !a.Drain?
    ensures ProxyOk(s, ProxyAfter(s, a, p))
  {
    hide NoTimeLeft, Concat, CandidatesFor, DropHead, SetOffer, MembersOk;
    var q := s.proxies[p];
    assert ProxyOk(s, q);
    if a.Take? && a.p == p {
      FirstKind(s, q.wid, q.queue[0]);
    }
  }

  lemma DropHeadOk(s: Pool, q: Proxy, who: Thread)
    requires ProxyOk(s, q) && q.Resolving(who) && q.HandOf(who).tasks != []
    ensures ProxyOk(s, DropHead(q, who))
  {
  }

  lemma SetOfferOk(s: Pool, q: Proxy, who: Thread, o: Offer)
    requires ProxyOk(s, q) && q.Resolving(who) && q.HandOf(who).tasks != []
    requires HandOk(s, q.wid, q.HandOf(who).(offer := Some(o)))
    ensures ProxyOk(s, SetOffer(q, who, o))
  {
  }

  lemma ProxyOkHands(s: Pool, a: Step, p: ProxyId)
    requires Structured(s) && Can(s, a) && p in s.proxies
    requires a.Resolve? || a.Candidates? || a.Reserve? || a.GiveUp?
    ensures ProxyOk(s, ProxyAfter(s, a, p))
  {
    var q := s.proxies[p];
    assert ProxyOk(s, q);
    if a.p == p {
      DropHeadOk(s, q, a.who);
      if a.Candidates? {
        hide ProxyOk, Structured, CandidatesFor;
        CandidatesOk(s, Head(s, p, a.who), q.wid);
        SetOfferOk(s, q, a.who, Offer(CandidatesFor(s, Head(s, p, a.who), q.wid), false));
      } else if a.Reserve? {
        assert HandOk(s, q.wid, q.HandOf(a.who));
        hide ProxyOk, Structured;
        SetOfferOk(s, q, a.who, q.HandOf(a.who).offer.value.(reserved := true));
      }
    }
  }

  lemma ProxyOkQueue(s: Pool, a: Step, p: ProxyId)
    requires Structured(s) && Can(s, a) && p in s.proxies && (a.Submit? || a.Drain?)
    ensures ProxyOk(s, ProxyAfter(s, a, p))
  {
    hide Concat;
    var q := s.proxies[p];
    assert ProxyOk(s, q);
    if a.Drain? && a.p == p {
      ConcatKnown(s, q.wid, q.queue);
    }
  }

  /** The candidate that accepts a handoff gets a batch of one task its worker supports. */
  lemma ProxyOkReceive(s: Pool, a: Step)
    requires Structured(s) && Can(s, a) && Accepting(s, a) && a.p != a.c
    ensures ProxyOk(s, ProxyAfter(s, a, a.c))
  {
    var q := s.proxies[a.c];
    var h := s.proxies[a.p].HandOf(a.who);
    assert ProxyOk(s, q) && ProxyOk(s, s.proxies[a.p]);
    assert HandOk(s, s.proxies[a.p].wid, h);
    assert BatchOk(s, q.wid, [h.tasks[0]]);
    assert ProxyAfter(s, a, a.c) == q.(queue := q.queue + [[h.tasks[0]]]);
    hide MembersOk, BatchOk, HandOk, Structured, ProxyAfter;
  }

  lemma ProxyOkTry(s: Pool, a: Step, p: ProxyId)
    requires Structured(s) && Can(s, a) && p in s.proxies && a.TryNext?
    ensures ProxyOk(s, ProxyAfter(s, a, p))
  {
    var q := s.proxies[p];
    assert ProxyOk(s, q);
    if a.p == p {
      DropHeadOk(s, q, a.who);
      var o := q.HandOf(a.who).offer.value;
      assert HandOk(s, q.wid, q.HandOf(a.who));
      SetOfferOk(s, q, a.who, o.(candidates := o.candidates - {a.c}));
      hide ProxyOk, HandOk, MembersOk, Structured;
    } else if a.c == p && s.proxies[p].Accepts() {
      ProxyOkReceive(s, a);
    }
  }

  predicate MembershipStep(a: Step) {
    a.AddProxy? || a.RemoveProxy? || a.StopPool?
  }

  /** Only removal and shutdown stop a proxy. */
  lemma StoppedOnlyBy(s: Pool, a: Step, p: ProxyId)
    requires Can(s, a) && p in s.proxies
    ensures ProxyAfter(s, a, p).wid == s.proxies[p].wid
    ensures !MembershipStep(a) ==> ProxyAfter(s, a, p).stopped == s.proxies[p].stopped
  {
    hide CandidatesFor, NoTimeLeft, Concat, Remove, DropHead, SetOffer;
  }

  lemma SameMembers(s: Pool, a: Step)
    requires Can(s, a) && !MembershipStep(a)
    ensures Next(s, a).members == s.members && Next(s, a).stopping == s.stopping
    ensures Next(s, a).proxies.Keys == s.proxies.Keys
    ensures forall p | p in s.proxies :: Next(s, a).proxies[p] == ProxyAfter(s, a, p)
  {
    hide TasksAfter, OmittedBy, ProxyAfter;
  }

  lemma MembersKept(s: Pool, a: Step)
    requires MembersOk(s) && Can(s, a) && !MembershipStep(a)
    ensures MembersOk(Next(s, a))
  {
    SameMembers(s, a);
    forall p | p in s.proxies
      ensures Next(s, a).proxies[p].stopped == s.proxies[p].stopped && Next(s, a).proxies[p].wid == s.proxies[p].wid
    {
      hide *;
      StoppedOnlyBy(s, a, p);
    }
    hide *;
    MembersFrame(s, Next(s, a));
  }

  lemma MembersFrame(s: Pool, t: Pool)
    requires MembersOk(s) && t.members == s.members && t.stopping == s.stopping && t.proxies.Keys == s.proxies.Keys
    requires forall p | p in s.proxies ::
              t.proxies[p].stopped == s.proxies[p].stopped && t.proxies[p].wid == s.proxies[p].wid
    ensures MembersOk(t)
  {
  }

  lemma MembersChanged(s: Pool, a: Step)
    requires MembersOk(s) && Can(s, a) && MembershipStep(a)
    ensures MembersOk(Next(s, a))
  {
    hide TasksAfter, OmittedBy, CandidatesFor, NoTimeLeft, DropHead, SetOffer, Concat, Remove;
  }

  lemma StructuredStep(s: Pool, a: Step)
    requires Structured(s) && Can(s, a)
    ensures Structured(Next(s, a))
  {
    var s' := Next(s, a);
    if MembershipStep(a) { MembersChanged(s, a); } else { MembersKept(s, a); }
    ExtendsStep(s, a);
    forall p | p in s'.proxies ensures ProxyOk(s', s'.proxies[p]) {
      hide Extends, ProxyOk, ProxyAfter, TasksAfter, OmittedBy, MembersOk;
      if p in s.proxies {
        ProxyAfterOk(s, a, p);
        ProxyStays(s, s', ProxyAfter(s, a, p));
        if a.AddProxy? { NotAdded(s, a, p); }
      } else {
        NewProxyOk(s', a.wid, a.ready);
      }
    }
  }

  lemma NotAdded(s: Pool, a: Step, p: ProxyId)
    requires Can(s, a) && a.AddProxy? && p in s.proxies
    ensures p != a.p
  {
  }

  lemma NewProxyOk(s: Pool, wid: WorkerId, ready: bool)
    ensures ProxyOk(s, NewProxy(wid, ready))
  {
  }

  lemma ProxyAfterOk(s: Pool, a: Step, p: ProxyId)
    requires Structured(s) && Can(s, a) && p in s.proxies
    ensures ProxyOk(s, ProxyAfter(s, a, p))
  {
    hide ProxyOk, ProxyAfter, Can;
    if a.TryNext? {
      ProxyOkTry(s, a, p);
    } else if a.Submit? || a.Drain? {
      ProxyOkQueue(s, a, p);
    } else if a.Resolve? || a.Candidates? || a.Reserve? || a.GiveUp? {
      ProxyOkHands(s, a, p);
    } else {
      ProxyOkDispatch(s, a, p);
    }
  }

  // ---------------------------------------------------------------------------------------------
  // Conservation over every step
  // ---------------------------------------------------------------------------------------------

  predicate Accepting(s: Pool, a: Step) {
    a.TryNext? && a.c in s.proxies && s.proxies[a.c].Accepts()
  }

  /** The tasks a thread lets go of in a step that is not a handoff. */
  function LetGo(s: Pool, a: Step, p: ProxyId): multiset<TaskId>
    requires Can(s, a) && p in s.proxies
  {
    var q := s.proxies[p];
    match a
    case Screen(o, at) =>
      if o == p && (s.tasks[q.active.tasks[q.phase.next]].state.Terminal()
            || s.tasks[q.active.tasks[q.phase.next]].state.Expired(at))
      then multiset{q.active.tasks[q.phase.next]} else multiset{}
    case Begin(o, at) =>
      if o == p && q.active.tasks != [] && !q.stopped && NoTimeLeft(s.tasks, q.active.tasks, at)
      then multiset(q.active.tasks) else multiset{}
    case EndResponse(o, _) => if o == p then multiset(q.active.tasks) else multiset{}
    case DeadlineError(o, _) => if o == p then multiset(q.active.tasks) else multiset{}
    case Resolve(o, who, _, _) => if o == p then multiset{Head(s, p, who)} else multiset{}
    case GiveUp(o, who, _, _) => if o == p then multiset{Head(s, p, who)} else multiset{}
    case Reserve(o, who, at, _) =>
      if o == p && !T.Reserves(s.tasks[Head(s, p, who)].state, at) then multiset{Head(s, p, who)} else multiset{}
    case _ => multiset{}
  }

  lemma DropHeadHolds(q: Proxy, who: Thread)
    requires q.HandOf(who).tasks != []
    ensures Holds(DropHead(q, who)) + multiset{q.HandOf(who).tasks[0]} == Holds(q)
  {
    var ts := q.HandOf(who).tasks;
    assert ts == [ts[0]] + ts[1..];
  }

  lemma OfferHolds(q: Proxy, who: Thread, o: Offer)
    ensures Holds(SetOffer(q, who, o)) == Holds(q)
  {
  }

  lemma HoldsHand(s: Pool, a: Step, p: ProxyId)
    requires Structured(s) && Can(s, a) && p in s.proxies && !Accepting(s, a)
    requires a.Resolve? || a.Candidates? || a.Reserve? || a.GiveUp? || a.TryNext?
    ensures Holds(ProxyAfter(s, a, p)) + LetGo(s, a, p) == Holds(s.proxies[p])
  {
    hide Holds, CandidatesFor, DropHead, SetOffer, Structured, NoTimeLeft, Concat, Remove;
    var q := s.proxies[p];
    if a.p == p {
      DropHeadHolds(q, a.who);
      if a.Candidates? {
        OfferHolds(q, a.who, Offer(CandidatesFor(s, Head(s, p, a.who), q.wid), false));
      } else if a.Reserve? {
        OfferHolds(q, a.who, q.HandOf(a.who).offer.value.(reserved := true));
      } else if a.TryNext? {
        OfferHolds(q, a.who,
              q.HandOf(a.who).offer.value.(candidates := q.HandOf(a.who).offer.value.candidates - {a.c}));
      }
    }
  }

  lemma HoldsTake(s: Pool, a: Step, p: ProxyId)
    requires Structured(s) && Can(s, a) && p in s.proxies && (a.Take? || a.Drain?)
    ensures Holds(ProxyAfter(s, a, p)) + LetGo(s, a, p) == Holds(s.proxies[p])
  {
    var q := s.proxies[p];
    assert ProxyOk(s, q);
    FlatConcat(q.queue);
    hide ProxyOk, Structured, Concat;
    if a.Drain? && a.p == p {
      assert q.drained.tasks == [];
      assert Flat([]) == multiset{};
    }
  }

  lemma HoldsScreen(s: Pool, a: Step, p: ProxyId)
    requires Can(s, a) && p in s.proxies && a.Screen?
    ensures Holds(ProxyAfter(s, a, p)) + LetGo(s, a, p) == Holds(s.proxies[p])
  {
    hide Flat;
    var q := s.proxies[p];
    if a.p == p {
      RemoveOne(q.active.tasks, q.phase.next);
    }
  }

  lemma HoldsBatch(s: Pool, a: Step, p: ProxyId)
    requires Can(s, a) && p in s.proxies && (a.Begin? || a.EndResponse? || a.DeadlineError?)
    ensures Holds(ProxyAfter(s, a, p)) + LetGo(s, a, p) == Holds(s.proxies[p])
  {
    hide NoTimeLeft, Flat;
    assert multiset(Hand([], None).tasks) == multiset{};
  }

  lemma HoldsOther(s: Pool, a: Step, p: ProxyId)
    requires Can(s, a) && p in s.proxies
    requires a.External? || a.Answer? || a.RpcFailed? || a.EndBatch? || a.AddProxy? || a.SetRouting? || a.RemoveProxy?
              || a.StopPool?
    ensures Holds(ProxyAfter(s, a, p)) + LetGo(s, a, p) == Holds(s.proxies[p])
  {
    hide Holds;
    HoldsSame(s.proxies[p], ProxyAfter(s, a, p));
  }

  lemma HoldsSame(q: Proxy, q': Proxy)
    requires q'.queue == q.queue && q'.active.tasks == q.active.tasks && q'.drained.tasks == q.drained.tasks
    ensures Holds(q') == Holds(q)
  {
  }

  lemma MoveAllFails(tasks: map<TaskId, TaskRecord>, ts: seq<TaskId>, op: T.TaskOp, t: TaskId)
    requires t in ts && t in tasks && op.Fail?
    ensures MoveAll(tasks, ts, op)[t].state.Terminal()
  {
  }

  lemma LetGoBatch(s: Pool, a: Step, p: ProxyId, t: TaskId)
    requires Structured(s) && Can(s, a) && p in s.proxies && t in LetGo(s, a, p)
    requires a.Begin? || a.EndResponse? || a.DeadlineError?
    ensures t in TasksAfter(s, a) && (TasksAfter(s, a)[t].state.Terminal() || t in OmittedBy(s, a))
  {
    hide DurableOf, MoveAll, NoTimeLeft, SendAll;
    var ts := s.proxies[p].active.tasks;
    assert ProxyOk(s, s.proxies[p]);
    assert t in ts;
    if a.Begin? {
      MoveAllFails(MoveAll(s.tasks, ts, T.Start(a.at)), ts, DeadlineFailure(a.at), t);
    } else if a.DeadlineError? {
      MoveAllFails(s.tasks, ts, DeadlineFailure(a.at), t);
    }
  }

  lemma LetGoOne(s: Pool, a: Step, p: ProxyId, t: TaskId)
    requires Structured(s) && Can(s, a) && p in s.proxies && t in LetGo(s, a, p)
    requires !a.Begin? && !a.EndResponse? && !a.DeadlineError?
    ensures t in TasksAfter(s, a) && TasksAfter(s, a)[t].state.Terminal()
  {
    hide DurableOf, MoveAll, NoTimeLeft, SendAll, Structured;
  }

  /** What is let go is resolved, or is a simulation task that the response left out. */
  lemma LetGoResolved(s: Pool, a: Step, p: ProxyId, t: TaskId)
    requires Structured(s) && Can(s, a) && p in s.proxies && t in LetGo(s, a, p)
    ensures t in Next(s, a).tasks && (Next(s, a).tasks[t].state.Terminal() || t in OmittedBy(s, a))
  {
    hide LetGo, TasksAfter, OmittedBy, ProxiesAfter, Structured, Can;
    if a.Begin? || a.EndResponse? || a.DeadlineError? { LetGoBatch(s, a, p, t); } else { LetGoOne(s, a, p, t); }
  }

  lemma ConservedShrink(s: Pool, a: Step)
    requires Structured(s) && Conserved(s) && Can(s, a) && !a.Submit? && !Accepting(s, a)
    ensures Conserved(Next(s, a))
  {
    hide Structured, Can, Disjoint, Accounted, Holds, ProxyAfter, TasksAfter, OmittedBy, LetGo, TasksGoOn, Dropped;
    var s' := Next(s, a);
    var h, h' := Holdings(s), Holdings(s');
    TasksGoOnStep(s, a);
    StepHoldings(s, a);
    forall t | Dropped(h, h', t) ensures t in s'.tasks && (s'.tasks[t].state.Terminal() || t in s'.omitted) {
      var p := DroppedFrom(s, a, t);
      LetGoResolved(s, a, p, t);
    }
    forall t | t in s'.omitted && t !in s.omitted ensures Dropped(h, h', t) {
      OmittedIsDropped(s, a, t);
    }
    GoOnTerminal(s.tasks, s'.tasks);
    Shrink(h, h', s.placed, s.omitted, s'.omitted, s.tasks, s'.tasks);
  }

  lemma GoOnTerminal(tasks: map<TaskId, TaskRecord>, tasks': map<TaskId, TaskRecord>)
    requires TasksGoOn(tasks, tasks')
    ensures tasks.Keys == tasks'.Keys
    ensures forall t | t in tasks && tasks[t].state.Terminal() :: tasks'[t].state.Terminal()
  {
  }

  lemma HoldsStep(s: Pool, a: Step, p: ProxyId)
    requires Structured(s) && Can(s, a) && p in s.proxies && !a.Submit? && !Accepting(s, a)
    ensures Holds(ProxyAfter(s, a, p)) + LetGo(s, a, p) == Holds(s.proxies[p])
  {
    hide Structured, Can, Holds, ProxyAfter, LetGo;
    if a.Resolve? || a.Candidates? || a.Reserve? || a.GiveUp? || a.TryNext? {
      HoldsHand(s, a, p);
    } else if a.Take? || a.Drain? {
      HoldsTake(s, a, p);
    } else if a.Screen? {
      HoldsScreen(s, a, p);
    } else if a.Begin? || a.EndResponse? || a.DeadlineError? {
      HoldsBatch(s, a, p);
    } else {
      HoldsOther(s, a, p);
    }
  }

  lemma StepHoldings(s: Pool, a: Step)
    requires Structured(s) && Can(s, a) && !a.Submit? && !Accepting(s, a)
    ensures LetsGo(Holdings(s), Holdings(Next(s, a)))
    ensures forall p | p in s.proxies :: p in Next(s, a).proxies && Next(s, a).proxies[p] == ProxyAfter(s, a, p)
  {
    hide *;
    forall p | p in s.proxies
      ensures p in Next(s, a).proxies && Next(s, a).proxies[p] == ProxyAfter(s, a, p)
      ensures Holds(ProxyAfter(s, a, p)) + LetGo(s, a, p) == Holds(s.proxies[p])
    {
      OldProxy(s, a, p);
      HoldsStep(s, a, p);
    }
    forall p | p in Next(s, a).proxies && p !in s.proxies ensures Holds(Next(s, a).proxies[p]) == multiset{} {
      AddedProxy(s, a, p);
    }
    HoldingsShrink(s, Next(s, a));
  }

  lemma OldProxy(s: Pool, a: Step, p: ProxyId)
    requires Can(s, a) && p in s.proxies
    ensures p in Next(s, a).proxies && Next(s, a).proxies[p] == ProxyAfter(s, a, p)
  {
    hide ProxyAfter, TasksAfter, OmittedBy, MembersAfter;
    if a.AddProxy? {
      NotAdded(s, a, p);
    }
  }

  lemma AddedProxy(s: Pool, a: Step, p: ProxyId)
    requires Can(s, a) && p in Next(s, a).proxies && p !in s.proxies
    ensures Holds(Next(s, a).proxies[p]) == multiset{}
  {
    hide ProxyAfter, TasksAfter, OmittedBy, MembersAfter, Can;
  }

  /** Proxies that only let tasks go, and new ones that hold none. */
  lemma HoldingsShrink(s: Pool, t: Pool)
    requires forall p | p in s.proxies :: p in t.proxies && Holds(t.proxies[p]) <= Holds(s.proxies[p])
    requires forall p | p in t.proxies && p !in s.proxies :: Holds(t.proxies[p]) == multiset{}
    ensures LetsGo(Holdings(s), Holdings(t))
  {
    hide Holds;
  }

  lemma DroppedFrom(s: Pool, a: Step, t: TaskId) returns (p: ProxyId)
    requires Structured(s) && Can(s, a) && !a.Submit? && !Accepting(s, a)
    requires Holdings(s).Keys <= Holdings(Next(s, a)).Keys && Dropped(Holdings(s), Holdings(Next(s, a)), t)
    ensures p in s.proxies && t in LetGo(s, a, p)
  {
    hide Structured, ProxyAfter, LetGo, TasksAfter, OmittedBy, Can, Holds;
    StepHoldings(s, a);
    p :| p in s.proxies && t in Holdings(s)[p] && t !in Holdings(Next(s, a))[p];
    HoldsStep(s, a, p);
  }

  lemma OmittedIsDropped(s: Pool, a: Step, t: TaskId)
    requires Structured(s) && Conserved(s) && Can(s, a) && t in OmittedBy(s, a)
    requires Holdings(s).Keys <= Holdings(Next(s, a)).Keys
    ensures Dropped(Holdings(s), Holdings(Next(s, a)), t)
  {
    EndedShape(s, a, t);
    OldProxy(s, a, a.p);
    hide Can, Next, ProxyAfter, OmittedBy, Structured;
    var h := Holdings(s);
    var ts := s.proxies[a.p].active.tasks;
    assert t in multiset(ts);
    assert h[a.p][t] <= 1;
    assert t in h[a.p] && t !in Holdings(Next(s, a))[a.p];
  }

  lemma EndedShape(s: Pool, a: Step, t: TaskId)
    requires Can(s, a) && t in OmittedBy(s, a)
    ensures a.EndResponse? && a.p in s.proxies && t in s.proxies[a.p].active.tasks
    ensures ProxyAfter(s, a, a.p) == s.proxies[a.p].(phase := Idle, active := Hand([], None))
  {
    hide TasksAfter;
  }

  /** Steps other than membership changes touch one proxy, or two in a handoff. */
  lemma Untouched(s: Pool, a: Step, p: ProxyId)
    requires Can(s, a) && p in s.proxies && (a.Submit? || a.TryNext?)
    requires p != a.p && (a.TryNext? ==> p != a.c)
    ensures ProxyAfter(s, a, p) == s.proxies[p]
  {
  }

  lemma NextProxies(s: Pool, a: Step)
    requires Can(s, a) && !a.AddProxy?
    ensures Holdings(Next(s, a)) == map p | p in s.proxies :: Holds(ProxyAfter(s, a, p))
  {
    hide ProxyAfter, TasksAfter, OmittedBy, Can, Holds;
  }

  lemma SubmitHolds(s: Pool, a: Step)
    requires Can(s, a) && a.Submit?
    ensures Holds(ProxyAfter(s, a, a.p)) == Holds(s.proxies[a.p]) + multiset(a.batch)
  {
    hide Flat;
    FlatAppend(s.proxies[a.p].queue, a.batch);
  }

  lemma SubmitHoldings(s: Pool, a: Step)
    requires Can(s, a) && a.Submit?
    ensures a.p in Holdings(s)
    ensures Holdings(Next(s, a)) == Holdings(s)[a.p := Holdings(s)[a.p] + multiset(a.batch)]
  {
    hide ProxyAfter, TasksAfter, OmittedBy, Holds, Next;
    NextProxies(s, a);
    SubmitHolds(s, a);
    forall p | p in s.proxies && p != a.p ensures ProxyAfter(s, a, p) == s.proxies[p] {
      Untouched(s, a, p);
    }
  }

  lemma ConservedSubmit(s: Pool, a: Step)
    requires Conserved(s) && Can(s, a) && a.Submit?
    ensures Conserved(Next(s, a))
  {
    hide Disjoint, Accounted, Holdings;
    HoldingsKeys(s);
    SubmitHoldings(s, a);
    Grow(Holdings(s), a.p, a.batch, s.placed, s.omitted, s.tasks);
    assert Next(s, a).tasks == s.tasks && Next(s, a).omitted == s.omitted;
  }

  lemma HoldingsKeys(s: Pool)
    ensures Holdings(s).Keys == s.proxies.Keys
  {
  }

  /** What a handoff makes of each proxy. */
  lemma HandoffShape(s: Pool, a: Step, p: ProxyId)
    requires Can(s, a) && p in s.proxies && Accepting(s, a)
    ensures HasHead(s, a.p, a.who)
    ensures ProxyAfter(s, a, p) == if a.p == p then DropHead(s.proxies[p], a.who)
                                   else if a.c == p
                                       then s.proxies[p].(queue := s.proxies[p].queue + [[Head(s, a.p, a.who)]])
                                   else s.proxies[p]
    ensures s.proxies[a.p].HandOf(a.who).offer.Some? && s.proxies[a.p].HandOf(a.who).offer.value.reserved
  {
  }

  lemma HandoffHolds(s: Pool, a: Step)
    requires Can(s, a) && Accepting(s, a) && a.p != a.c
    ensures Holds(ProxyAfter(s, a, a.p)) == Holds(s.proxies[a.p]) - multiset{Head(s, a.p, a.who)}
    ensures Holds(ProxyAfter(s, a, a.c)) == Holds(s.proxies[a.c]) + multiset{Head(s, a.p, a.who)}
  {
    HandoffShape(s, a, a.p);
    HandoffShape(s, a, a.c);
    hide Flat, DropHead, ProxyAfter, Can, Proxy.Accepts, CandidatesFor;
    var t := Head(s, a.p, a.who);
    DropHeadHolds(s.proxies[a.p], a.who);
    FlatAppend(s.proxies[a.c].queue, [t]);
    assert multiset([t]) == multiset{t};
  }

  lemma TwoUpdates(h: map<ProxyId, multiset<TaskId>>, h': map<ProxyId, multiset<TaskId>>, p: ProxyId, c: ProxyId)
    requires p in h && c in h && p != c && h'.Keys == h.Keys
    requires forall q | q in h && q != p && q != c :: h'[q] == h[q]
    ensures h' == h[p := h'[p]][c := h'[c]]
  {
  }

  lemma HandoffHoldings(s: Pool, a: Step)
    requires Can(s, a) && Accepting(s, a) && a.p != a.c && a.p in s.proxies
    ensures a.p in Holdings(s) && a.c in Holdings(s)
    ensures Holdings(Next(s, a)) == Moved(Holdings(s), a.p, a.c, Head(s, a.p, a.who))
  {
    hide ProxyAfter, Holds, Next, Proxy.Accepts, Can;
    NextProxies(s, a);
    HandoffHolds(s, a);
    forall p | p in s.proxies && p != a.p && p != a.c ensures ProxyAfter(s, a, p) == s.proxies[p] {
      Untouched(s, a, p);
    }
    TwoUpdates(Holdings(s), Holdings(Next(s, a)), a.p, a.c);
  }

  lemma HeadIsHeld(s: Pool, p: ProxyId, who: Thread)
    requires HasHead(s, p, who)
    ensures p in Holdings(s) && Head(s, p, who) in Holdings(s)[p]
  {
    var t := Head(s, p, who);
    assert t in s.proxies[p].HandOf(who).tasks;
    assert t in multiset(s.proxies[p].HandOf(who).tasks);
  }

  /** A proxy is never among the candidates of its own handoff. */
  lemma OtherProxy(s: Pool, a: Step)
    requires Structured(s) && Can(s, a) && a.TryNext?
    ensures a.p != a.c && s.proxies[a.p].wid != s.proxies[a.c].wid
    ensures !s.tasks[Head(s, a.p, a.who)].Durable()
  {
    assert ProxyOk(s, s.proxies[a.p]);
    assert HandOk(s, s.proxies[a.p].wid, s.proxies[a.p].HandOf(a.who));
  }

  lemma ConservedHandoff(s: Pool, a: Step)
    requires Structured(s) && Conserved(s) && Can(s, a) && Accepting(s, a)
    ensures Conserved(Next(s, a))
  {
    hide Disjoint, Accounted, Holdings, Structured, Moved;
    OtherProxy(s, a);
    HoldingsKeys(s);
    HeadIsHeld(s, a.p, a.who);
    HandoffHoldings(s, a);
    Transfer(Holdings(s), a.p, a.c, Head(s, a.p, a.who), s.placed, s.omitted, s.tasks);
    assert Next(s, a).tasks == s.tasks && Next(s, a).omitted == s.omitted && Next(s, a).placed == s.placed;
  }

  lemma ConservedStep(s: Pool, a: Step)
    requires Structured(s) && Conserved(s) && Can(s, a)
    ensures Conserved(Next(s, a))
  {
    hide Structured, Conserved, Can, Next;
    if a.Submit? {
      ConservedSubmit(s, a);
    } else if Accepting(s, a) {
      ConservedHandoff(s, a);
    } else {
      ConservedShrink(s, a);
    }
  }
}
