/** The proxy and pool objects (system/grpc_worker_pool.py), run one call at a time: routing of new
    batches, one handoff of a task, discovery updates and the draining of a removed proxy. The
    interleavings of these calls are the subject of ProxyProtocol. */
module WorkerPools {
  import opened Wrappers
  import opened Tasks

  type Batch = seq<Task>

  const DEFAULT_KINDS: set<string> := {"simulation", "synthx_v73"}

  datatype WorkerInfo = WorkerInfo(address: string, ready: bool)

  /** The task is of the named kind; without a kind of its own it is a simulation. */
  predicate Asks(task: Task, name: string) {
    match task.input
    case Scalar => name == "simulation"
    case Fields(kind, _, _) => if kind == None then name == "simulation" else kind == Some(Text(name))
  }

  predicate AsksDurable(task: Task) {
    Asks(task, "synthx_v73") || Asks(task, "synthx_text_v123") || Asks(task, "synthx_text_refinement")
  }

  /** The kind of a task; None for a kind that is not a string. */
  function KindOf(task: Task): (kind: Option<string>)
    ensures kind.Some? ==> Asks(task, kind.value)
    ensures kind.None? ==> forall name :: !Asks(task, name)
  {
    match task.input
    case Scalar => Some("simulation")
    case Fields(None, _, _) => Some("simulation")
    case Fields(Some(NotText), _, _) => None
    case Fields(Some(Text(name)), _, _) => Some(name)
  }

  const NO_READY := "no ready workers available"
  const AT_CAPACITY := "all workers at capacity"

  function Overloaded(now: Time, message: string): TaskOp {
    Fail(now, message, Some("overloaded"))
  }

  class GrpcWorker {
    const workerId: string
    const address: string
    var batchQueue: seq<Batch>
    var processing: bool
    var stopped: bool
    var retryOnStop: bool
    var ready: bool

    ghost predicate Valid()
      reads this
    {
      Outstanding() <= 2 && forall b | b in batchQueue :: b != []
    }

    function Outstanding(): nat
      reads this
    {
      |batchQueue| + if processing then 1 else 0
    }

    predicate Ready()
      reads this
    {
      !stopped && ready
    }

    predicate Accepts()
      reads this
    {
      Ready() && Outstanding() < 2
    }

    constructor (workerId: string, address: string)
      ensures Valid() && Ready() && Outstanding() == 0 && batchQueue == []
      ensures this.workerId == workerId && this.address == address
    {
      this.workerId, this.address := workerId, address;
      batchQueue, processing, stopped, retryOnStop, ready := [], false, false, false, true;
    }

    /** Accept a batch only when running, ready and below two outstanding batches. */
    method TrySubmit(batch: Batch) returns (accepted: bool)
      requires Valid() && batch != []
      modifies this`batchQueue
      ensures Valid() && accepted == old(Accepts())
      ensures batchQueue == if accepted then old(batchQueue) + [batch] else old(batchQueue)
    {
      if stopped || !ready {
        return false;
      }
      var outstanding := |batchQueue| + if processing then 1 else 0;
      if outstanding >= 2 {
        return false;
      }
      batchQueue := batchQueue + [batch];
      return true;
    }

    method Busy() returns (busy: bool)
      ensures busy == (Outstanding() > 0)
    {
      busy := processing || |batchQueue| > 0;
    }

    method BeginStop(retryPending: bool)
      modifies this`stopped, this`retryOnStop
      ensures stopped && retryOnStop == if old(stopped) then old(retryOnStop) else retryPending
    {
      if !stopped {
        retryOnStop := retryPending;
        stopped := true;
      }
    }

    method SetRoutingState(readyNow: bool)
      modifies this`ready
      ensures ready == readyNow
    {
      ready := readyNow;
    }

    /** The dispatch thread's critical section: take the oldest batch of a running proxy. */
    method TakeBatch() returns (batch: Option<Batch>)
      requires Valid() && !processing
      modifies this`batchQueue, this`processing
      ensures Valid()
      ensures batch.None? <==> stopped || old(batchQueue) == []
      ensures batch.None? ==> batchQueue == old(batchQueue) && !processing
      ensures batch.Some? ==> old(batchQueue) == [batch.value] + batchQueue && processing
    {
      if stopped || batchQueue == [] {
        return None;
      }
      batch := Some(batchQueue[0]);
      assert forall b | b in batchQueue[1..] :: b in batchQueue;
      batchQueue := batchQueue[1..];
      processing := true;
    }

    /** stop's critical section: take everything that is queued. */
    method TakeAll() returns (pending: seq<Batch>)
      requires Valid()
      modifies this`batchQueue
      ensures Valid() && pending == old(batchQueue) && batchQueue == []
    {
      pending := batchQueue;
      batchQueue := [];
    }
  }

  /** Which workers a list of proxies stands for. */
  function Ids(ws: seq<GrpcWorker>): set<string> {
    set w | w in ws :: w.workerId
  }

  predicate DistinctIds(ws: seq<GrpcWorker>) {
    forall i, k | 0 <= i < |ws| && 0 <= k < |ws| && ws[i].workerId == ws[k].workerId :: i == k
  }

  predicate Durable(task: Task)
    ensures Durable(task) <==> AsksDurable(task)
  {
    KindOf(task).Some? && KindOf(task).value in DURABLE_KINDS
  }

  /** How a task whose batch was lost can end up: unchanged if it had an outcome, else failed with the
      reason, or handed to the worker that took it. */
  function Ends(t: Task, s: TaskState, error: string, taken: Option<GrpcWorker>, now: Time): set<TaskState> {
    if taken.Some? then {Move(s, Reserve(now))}
    else if s.Expired(now) then {Move(s, Fail(now, "request deadline exceeded", Some("deadline_exceeded")))}
    else if Durable(t) then {Move(s, Fail(now, error, Some("transport_error")))}
    else {Move(s, Fail(now, error, None)), Move(Move(s, Reserve(now)), Fail(now, error, None))}
  }

  function TasksOf(queue: seq<Batch>): set<Task> {
    set b, t | b in queue && t in b :: t
  }

  predicate Distinct(kinds: seq<string>) {
    forall i, k | 0 <= i < k < |kinds| :: kinds[i] != kinds[k]
  }

  function Elements(kinds: seq<string>): set<string> {
    set k | k in kinds
  }

  /** The tasks of one kind, in the order of the batch. */
  function OfKind(batch: Batch, kind: string): Batch {
    if batch == [] then [] else
    var rest := OfKind(batch[..|batch| - 1], kind);
    if KindOf(batch[|batch| - 1]) == Some(kind) then rest + [batch[|batch| - 1]] else rest
  }

  /** The kinds of a batch, in the order in which they first appear. */
  function KindOrder(batch: Batch): seq<string> {
    if batch == [] then [] else
    var rest := KindOrder(batch[..|batch| - 1]);
    var kind := KindOf(batch[|batch| - 1]);
    if kind.None? || kind.value in rest then rest else rest + [kind.value]
  }

  /** Each kind of a batch is listed once, and its group is not empty and of that kind only. */
  lemma {:induction false} NewKind(batch: Batch, kind: string)
    ensures kind in KindOrder(batch) <==> OfKind(batch, kind) != []
    ensures Distinct(KindOrder(batch))
    ensures forall t :: t in OfKind(batch, kind) <==> t in batch && KindOf(t) == Some(kind)
  {
    if batch != [] {
      NewKind(batch[..|batch| - 1], kind);
      assert batch == batch[..|batch| - 1] + [batch[|batch| - 1]];
    }
  }

  function AfterGrouping(t: Task, s: TaskState, now: Time): TaskState {
    if KindOf(t).None? then Move(s, Fail(now, "invalid task kind", Some("invalid_spec"))) else s
  }

  /** What a submitted task can become: untouched when its group was accepted, else overloaded. */
  function Outcomes(t: Task, s: TaskState, routes: map<string, Option<GrpcWorker>>, now: Time): set<TaskState> {
    match KindOf(t)
    case None => {AfterGrouping(t, s, now)}
    case Some(kind) =>
      if kind in routes && routes[kind].None? then
        {Move(s, Overloaded(now, NO_READY)), Move(s, Overloaded(now, AT_CAPACITY))}
      else {s}
  }

  lemma OutcomeStep(t: Task, s: TaskState, before: TaskState, after: TaskState, routes: map<string, Option<GrpcWorker>>,
                    kind: string, taken: Option<GrpcWorker>, why: string, now: Time)
    requires before in Outcomes(t, s, routes, now) && kind !in routes
              && (taken.None? ==> why in {NO_READY, AT_CAPACITY})
    requires after == if KindOf(t) == Some(kind) && taken.None? then Move(before, Overloaded(now, why)) else before
    ensures after in Outcomes(t, s, routes[kind := taken], now)
  {
  }

  /** The groups that went to one worker, in the order in which their kinds first appear. */
  function Sent(batch: Batch, kinds: seq<string>, routes: map<string, Option<GrpcWorker>>, w: GrpcWorker): seq<Batch> {
    if kinds == [] then [] else
    var k := kinds[|kinds| - 1];
    Sent(batch, kinds[..|kinds| - 1], routes, w)
      + if k in routes && routes[k] == Some(w) then [OfKind(batch, k)] else []
  }

  datatype Load = Load(ready: bool, outstanding: nat)

  ghost function IdleIn(loads: map<GrpcWorker, Load>): set<GrpcWorker> {
    set w | w in loads && loads[w].outstanding == 0
  }

  /** Proxies only become busier while a batch is being placed. */
  ghost predicate GrowIdle(first: map<GrpcWorker, Load>, loads: map<GrpcWorker, Load>) {
    IdleIn(loads) <= IdleIn(first)
  }

  ghost predicate Busier(taken: Option<GrpcWorker>, loads: map<GrpcWorker, Load>, after: map<GrpcWorker, Load>) {
    after.Keys == loads.Keys
    && forall w | w in loads ::
         after[w] == Load(loads[w].ready, loads[w].outstanding + if taken == Some(w) then 1 else 0)
  }

  ghost predicate Appended(batch: Batch, taken: Option<GrpcWorker>, queues: map<GrpcWorker, seq<Batch>>,
        after: map<GrpcWorker, seq<Batch>>)
  {
    after.Keys == queues.Keys
        && forall w | w in after :: after[w] == queues[w] + if taken == Some(w) then [batch] else []
  }

  ghost predicate QueuesGrown(batch: Batch, kinds: seq<string>, routes: map<string, Option<GrpcWorker>>,
                              first: map<GrpcWorker, seq<Batch>>, queues: map<GrpcWorker, seq<Batch>>)
  {
    queues.Keys == first.Keys && forall w | w in queues :: queues[w] == first[w] + Sent(batch, kinds, routes, w)
  }

  lemma QueuesStep(batch: Batch, kinds: seq<string>, j: nat, routes: map<string, Option<GrpcWorker>>,
        taken: Option<GrpcWorker>,
                   first: map<GrpcWorker, seq<Batch>>, queues: map<GrpcWorker, seq<Batch>>,
                       after: map<GrpcWorker, seq<Batch>>)
    requires j < |kinds| && Distinct(kinds) && QueuesGrown(batch, kinds[..j], routes, first, queues)
    requires Appended(OfKind(batch, kinds[j]), taken, queues, after)
    ensures QueuesGrown(batch, kinds[..j + 1], routes[kinds[j] := taken], first, after)
  {
    forall w | w in after ensures after[w] == first[w] + Sent(batch, kinds[..j + 1], routes[kinds[j] := taken], w) {
      SentExtends(batch, kinds, j, routes, taken, w);
    }
  }

  lemma SentExtends(batch: Batch, kinds: seq<string>, j: nat, routes: map<string, Option<GrpcWorker>>,
                    taken: Option<GrpcWorker>, w: GrpcWorker)
    requires j < |kinds| && Distinct(kinds)
    ensures Sent(batch, kinds[..j + 1], routes[kinds[j] := taken], w)
            == Sent(batch, kinds[..j], routes, w) + if taken == Some(w) then [OfKind(batch, kinds[j])] else []
  {
    assert kinds[..j + 1][..j] == kinds[..j];
    SentIgnores(batch, kinds[..j], routes, kinds[j], taken, w);
  }

  lemma {:induction false} SentIgnores(batch: Batch, kinds: seq<string>, routes: map<string, Option<GrpcWorker>>,
        kind: string,
                    taken: Option<GrpcWorker>, w: GrpcWorker)
    requires kind !in kinds
    ensures Sent(batch, kinds, routes[kind := taken], w) == Sent(batch, kinds, routes, w)
  {
    if kinds != [] {
      SentIgnores(batch, kinds[..|kinds| - 1], routes, kind, taken, w);
    }
  }

  // ---------------------------------------------------------------------------------------------
  // Turns
  // ---------------------------------------------------------------------------------------------

  /** The members of the pool and the tasks that are being finished, at one moment. */
  datatype Snapshot = Snapshot(
    loads: map<GrpcWorker, Load>, queues: map<GrpcWorker, seq<Batch>>, states: map<Task, TaskState>)

  /** One task that a worker lost is finished or handed over. */
  datatype Turn = Turn(
    task: Task, from: string, taken: Option<GrpcWorker>, before: Snapshot, after: Snapshot)

  datatype Job = Job(task: Task, from: string)

  function JobsOf(batch: Batch, from: string): seq<Job> {
    seq(|batch|, i requires 0 <= i < |batch| => Job(batch[i], from))
  }

  function JobsIn(turns: seq<Turn>): seq<Job> {
    seq(|turns|, i requires 0 <= i < |turns| => Job(turns[i].task, turns[i].from))
  }

  function Flat(queue: seq<Batch>): Batch {
    if queue == [] then [] else Flat(queue[..|queue| - 1]) + queue[|queue| - 1]
  }

  lemma {:induction false} FlatHas(queue: seq<Batch>)
    ensures forall t | t in TasksOf(queue) :: t in Flat(queue)
  {
    if queue != [] {
      var n := |queue| - 1;
      FlatHas(queue[..n]);
      forall t | t in TasksOf(queue) ensures t in Flat(queue) {
        var b :| b in queue && t in b;
        if b != queue[n] {
          assert b in queue[..n] && t in TasksOf(queue[..n]);
        }
      }
    }
  }

  function FailedWith(s: TaskState, error: string, code: Option<string>, now: Time): TaskState {
    s.(status := Failed, error := Some(error), errorCode := code, endTime := Some(now))
  }

  /** The end of a lost task that may not be handed over. */
  function Finished(t: Task, s: TaskState, error: string, now: Time): TaskState {
    if s.status == Done || s.status == Failed then s
    else if s.deadline.Some? && s.deadline.value <= now then
      FailedWith(s, "request deadline exceeded", Some("deadline_exceeded"), now)
    else if AsksDurable(t) then FailedWith(s, error, Some("transport_error"), now)
    else FailedWith(s, error, None, now)
  }

  /** No other turn is about the same task. */
  predicate Sole(turns: seq<Turn>, i: nat)
    requires i < |turns|
  {
    forall m | 0 <= m < |turns| && m != i :: turns[m].task != turns[i].task
  }

  /** Each turn begins where the one before it ended. */
  predicate Linked(first: Snapshot, turns: seq<Turn>, last: Snapshot) {
    if turns == [] then first == last else
    && turns[0].before == first && turns[|turns| - 1].after == last
    && forall i | 0 <= i < |turns| - 1 :: turns[i].after == turns[i + 1].before
  }

  /** The moment before the k-th turn. */
  function Moment(first: Snapshot, turns: seq<Turn>, k: nat): Snapshot
    requires k <= |turns|
  {
    if k == 0 then first else turns[k - 1].after
  }

  lemma LinkedOn(first: Snapshot, turns: seq<Turn>, last: Snapshot, turn: Turn)
    requires Linked(first, turns, last) && turn.before == last
    ensures Linked(first, turns + [turn], turn.after)
    ensures JobsIn(turns + [turn]) == JobsIn(turns) + [Job(turn.task, turn.from)]
  {
  }

  lemma LinkedBoth(first: Snapshot, turns: seq<Turn>, mid: Snapshot, more: seq<Turn>, last: Snapshot)
    requires Linked(first, turns, mid) && Linked(mid, more, last)
    ensures Linked(first, turns + more, last) && JobsIn(turns + more) == JobsIn(turns) + JobsIn(more)
  {
  }

  class GrpcWorkerPool {
    var workers: seq<GrpcWorker>        // _workers, in insertion order
    var rrIndex: nat
    var stopping: bool
    const capabilities: Option<map<string, set<string>>>

    ghost predicate Valid()
      reads this`workers, workers
    {
      Sound() && AllCarried(Queues())
    }

    ghost predicate Sound()
      reads this`workers, workers
    {
      DistinctIds(workers) && forall w | w in workers :: w.Valid() && !w.stopped
    }

    ghost predicate AllCarried(queues: map<GrpcWorker, seq<Batch>>) {
      forall w | w in queues :: forall b | b in queues[w] :: Carries(w, b)
    }

    /** Every queued batch is of one kind, and its worker supports that kind. */
    predicate Carries(worker: GrpcWorker, batch: Batch)
    {
      batch != [] && Capable(worker, KindOf(batch[0])) && forall t | t in batch :: KindOf(t) == KindOf(batch[0])
    }

    /** Without a configuration a worker takes simulations and durable audio jobs, and otherwise the kinds that
        are listed for it. */
    predicate Capable(worker: GrpcWorker, kind: Option<string>) {
      kind.Some? &&
      match capabilities
      case None => kind.value == "simulation" || kind.value == "synthx_v73"
      case Some(listed) => worker.workerId in listed && kind.value in listed[worker.workerId]
    }

    function Supports(worker: GrpcWorker, kind: Option<string>): (supported: bool)
      ensures supported <==> Capable(worker, kind)
    {
      var kinds := match capabilities
        case None => DEFAULT_KINDS
        case Some(c) => if worker.workerId in c then c[worker.workerId] else {};
      kind.Some? && kind.value in kinds
    }

    constructor (capabilities: Option<map<string, set<string>>>)
      ensures Valid() && workers == [] && !stopping && rrIndex == 0 && this.capabilities == capabilities
    {
      this.capabilities := capabilities;
      workers, rrIndex, stopping := [], 0, false;
    }

    // -------------------------------------------------------------------------------------------
    // Routing of new batches
    // -------------------------------------------------------------------------------------------

    ghost function Loads(): map<GrpcWorker, Load>
      reads this`workers, workers
    {
      map w | w in workers :: Load(w.Ready(), w.Outstanding())
    }

    ghost function Queues(): map<GrpcWorker, seq<Batch>>
      reads this`workers, workers
    {
      map w | w in workers :: w.batchQueue
    }

    ghost predicate Compatible(w: GrpcWorker, kind: Option<string>, except: Option<string>,
          loads: map<GrpcWorker, Load>)
    {
      w in loads && loads[w].ready && Capable(w, kind) && Some(w.workerId) != except
    }

    /** The compatible ready proxies among those known, other than the excluded worker. */
    ghost predicate Chosen(found: seq<GrpcWorker>, kind: Option<string>, except: Option<string>,
          loads: map<GrpcWorker, Load>)
    {
      && (forall w | w in found :: Compatible(w, kind, except, loads))
      && (forall w | w in loads && Compatible(w, kind, except, loads) :: w in found)
    }

    method Candidates(kind: Option<string>, except: Option<string>) returns (found: seq<GrpcWorker>)
      ensures Chosen(found, kind, except, Loads())
    {
      found := [];
      for i := 0 to |workers|
        invariant forall w | w in found :: Compatible(w, kind, except, Loads())
        invariant forall w | w in workers[..i] && Compatible(w, kind, except, Loads()) :: w in found
      {
        if workers[i].Ready() && Supports(workers[i], kind) && Some(workers[i].workerId) != except {
          found := found + [workers[i]];
        }
      }
    }

    method SplitByLoad(ws: seq<GrpcWorker>) returns (idle: seq<GrpcWorker>, busy: seq<GrpcWorker>)
      requires forall w | w in ws :: w in workers
      ensures forall w | w in idle :: w in ws && Loads()[w].outstanding == 0
      ensures forall w | w in busy :: w in ws
      ensures forall w | w in ws :: if Loads()[w].outstanding == 0 then w in idle else w in busy
    {
      idle, busy := [], [];
      for i := 0 to |ws|
        invariant forall w | w in idle :: w in ws && Loads()[w].outstanding == 0
        invariant forall w | w in busy :: w in ws
        invariant forall w | w in ws[..i] :: if Loads()[w].outstanding == 0 then w in idle else w in busy
      {
        var b := ws[i].Busy();
        if b { busy := busy + [ws[i]]; } else { idle := idle + [ws[i]]; }
      }
    }

    method FailAll(batch: Batch, message: string, code: Option<string>, now: Time)
      modifies set t | t in batch
      ensures forall t | t in batch :: t.State() == Move(old(t.State()), Fail(now, message, code))
    {
      for i := 0 to |batch|
        invariant forall t | t in batch[..i] :: t.State() == Move(old(t.State()), Fail(now, message, code))
        invariant forall t | t in batch :: t in batch[..i] || t.State() == old(t.State())
      {
        batch[i].MarkFailed(message, code, now);
      }
    }

    /** Where a batch of one kind went, given the proxies as they were: to a compatible ready proxy with a
        free slot, an idle one if there was one; nowhere only when no compatible ready proxy had a slot. */
    ghost predicate Routed(kind: Option<string>, except: Option<string>, taken: Option<GrpcWorker>,
          loads: map<GrpcWorker, Load>)
    {
      match taken
      case None => forall w | w in loads && Compatible(w, kind, except, loads) :: loads[w].outstanding >= 2
      case Some(worker) =>
        Preferred(worker, kind, except, loads) && loads[worker].outstanding < 2
    }

    /** A compatible proxy that is idle, unless no compatible one is. */
    ghost predicate Preferred(w: GrpcWorker, kind: Option<string>, except: Option<string>,
          loads: map<GrpcWorker, Load>)
    {
      Compatible(w, kind, except, loads)
      && (loads[w].outstanding == 0
             || forall x | x in loads && Compatible(x, kind, except, loads) :: loads[x].outstanding > 0)
    }

    /** The batch is now last in the queue of the proxy that took it; nothing else about any proxy changed. */
    ghost predicate Placed(batch: Batch, taken: Option<GrpcWorker>, queues: map<GrpcWorker, seq<Batch>>,
          loads: map<GrpcWorker, Load>)
      reads this`workers, workers
    {
      (taken.Some? ==> taken.value in loads) && Appended(batch, taken, queues, Queues())
          && Busier(taken, loads, Loads())
    }

    /** A proxy that would accept a batch. */
    ghost predicate Free(w: GrpcWorker, loads: map<GrpcWorker, Load>) {
      w in loads && loads[w].ready && loads[w].outstanding < 2
    }

    ghost predicate FirstFree(ws: seq<GrpcWorker>, taken: Option<GrpcWorker>, at: nat, loads: map<GrpcWorker, Load>) {
      && at <= |ws| && (forall k | 0 <= k < at :: !Free(ws[k], loads))
      && if taken.None? then at == |ws| else at < |ws| && ws[at] == taken.value && Free(ws[at], loads)
    }

    ghost predicate AllCarry(ws: seq<GrpcWorker>, batch: Batch)
      reads this`workers
    {
      batch != [] && forall w | w in ws :: w in workers && Carries(w, batch)
    }

    lemma StillCarried(worker: GrpcWorker, batch: Batch, taken: Option<GrpcWorker>, queues: map<GrpcWorker, seq<Batch>>,
                       after: map<GrpcWorker, seq<Batch>>)
      requires AllCarried(queues) && Carries(worker, batch) && taken in {None, Some(worker)}
                && Appended(batch, taken, queues, after)
      ensures AllCarried(after)
    {
    }

    /** try_submit on one member of the pool. */
    method Offer(worker: GrpcWorker, batch: Batch) returns (taken: Option<GrpcWorker>)
      requires Valid() && AllCarry([worker], batch)
      modifies worker`batchQueue
      ensures Valid() && Placed(batch, taken, old(Queues()), old(Loads()))
      ensures taken == if Free(worker, old(Loads())) then Some(worker) else None
      ensures taken.None? ==> Queues() == old(Queues()) && Loads() == old(Loads())
    {
      hide GrpcWorkerPool.Carries, KindOf, GrpcWorkerPool.AllCarried, GrpcWorkerPool.Sound, GrpcWorkerPool.Loads,
          GrpcWorkerPool.Queues;
      assert worker in [worker];
      taken := OfferTo(worker, batch);
      StillCarried(worker, batch, taken, old(Queues()), Queues());
    }

    method OfferTo(worker: GrpcWorker, batch: Batch) returns (taken: Option<GrpcWorker>)
      requires Sound() && worker in workers && batch != []
      modifies worker`batchQueue
      ensures Sound() && worker in old(Loads()) && worker in old(Queues())
      ensures taken == if Free(worker, old(Loads())) then Some(worker) else None
      ensures Queues() == if taken.None? then old(Queues())
                else old(Queues())[worker := old(Queues())[worker] + [batch]]
      ensures Loads() == if taken.None? then old(Loads())
                else old(Loads())[worker := Load(true, old(Loads())[worker].outstanding + 1)]
    {
      hide DistinctIds;
      var accepted := worker.TrySubmit(batch);
      taken := if accepted then Some(worker) else None;
      assert forall w | w in workers && w != worker :: w.Valid() && w.Outstanding() == old(w.Outstanding());
    }

    /** Offer a batch to the proxies in order until one accepts it. */
    method TryEach(ws: seq<GrpcWorker>, batch: Batch) returns (taken: Option<GrpcWorker>, ghost at: nat)
      requires Valid() && AllCarry(ws, batch)
      modifies (set w | w in workers)`batchQueue
      ensures Valid() && Placed(batch, taken, old(Queues()), old(Loads()))
      ensures FirstFree(ws, taken, at, old(Loads()))
    {
      hide Valid, Loads, Queues, Carries;
      taken, at := None, 0;
      for i := 0 to |ws|
        invariant Valid() && workers == old(workers) && Queues() == old(Queues()) && Loads() == old(Loads())
        invariant forall k | 0 <= k < i :: !Free(ws[k], old(Loads()))
      {
        taken := Offer(ws[i], batch);
        at := i;
        if taken.Some? {
          return;
        }
      }
      at := |ws|;
      taken := None;
    }

    /** One group of one kind: it goes whole to one proxy, or all its tasks are failed as overloaded. */
    method SubmitCompatible(batch: Batch, kind: string, now: Time) returns (taken: Option<GrpcWorker>, why: string)
      requires Valid() && batch != [] && forall t | t in batch :: KindOf(t) == Some(kind)
      modifies this`rrIndex, (set w | w in workers)`batchQueue, set t | t in batch
      ensures Valid() && workers == old(workers)
      ensures Routed(Some(kind), None, taken, old(Loads())) && Placed(batch, taken, old(Queues()), old(Loads()))
      ensures taken.None? ==>
                why == if NoneCompatible(Some(kind), old(Loads())) then "no ready workers available"
                       else "all workers at capacity"
      ensures forall t | t in batch ::
                t.State() == if taken.Some? then old(t.State()) else Move(old(t.State()), Overloaded(now, why))
    {
      hide GrpcWorkerPool.Valid, GrpcWorkerPool.Loads, GrpcWorkerPool.Queues, GrpcWorkerPool.Routed,
          GrpcWorkerPool.Placed, Move;
      taken, why := SelectAndTry(batch, kind);
      if taken.None? {
        FailAll(batch, why, Some("overloaded"), now);
      }
    }

    ghost predicate NoneCompatible(kind: Option<string>, loads: map<GrpcWorker, Load>) {
      forall w | w in loads :: !Compatible(w, kind, None, loads)
    }

    /** The selection under the pool lock: an idle compatible proxy if there is one, else any compatible one. */
    method Select(kind: string) returns (choice: Option<GrpcWorker>)
      modifies this`rrIndex
      ensures choice.None? <==> NoneCompatible(Some(kind), Loads())
      ensures choice.Some? ==> Preferred(choice.value, Some(kind), None, Loads())
    {
      var readyOnes := Candidates(Some(kind), None);
      if readyOnes == [] {
        return None;
      }
      CompatibleMembers(readyOnes, Some(kind), None);
      var idle, busy := SplitByLoad(readyOnes);
      var pool := if idle != [] then idle else readyOnes;
      var worker := pool[rrIndex % |pool|];
      assert worker in pool && worker in readyOnes;
      rrIndex := rrIndex + 1;
      choice := Some(worker);
    }

    lemma CompatibleMembers(found: seq<GrpcWorker>, kind: Option<string>, except: Option<string>)
      requires Chosen(found, kind, except, Loads())
      ensures forall w | w in found :: w in workers
    {
    }

    lemma CompatibleCarry(found: seq<GrpcWorker>, kind: Option<string>, except: Option<string>, batch: Batch)
      requires Chosen(found, kind, except, Loads())
      requires batch != [] && forall t | t in batch :: KindOf(t) == kind
      ensures AllCarry(found, batch)
    {
    }

    lemma PreferredCarries(w: GrpcWorker, kind: string, batch: Batch)
      requires Valid() && Preferred(w, Some(kind), None, Loads())
      requires batch != [] && forall t | t in batch :: KindOf(t) == Some(kind)
      ensures w in workers && AllCarry([w], batch)
      ensures forall x | x in Loads() && x.workerId == w.workerId :: x == w
    {
    }

    lemma RoutedAtOnce(w: GrpcWorker, kind: Option<string>, except: Option<string>, loads: map<GrpcWorker, Load>)
      requires Preferred(w, kind, except, loads) && Free(w, loads)
      ensures Routed(kind, except, Some(w), loads)
    {
    }

    /** The selection, the first attempt, and the sweep over the others. */
    method SelectAndTry(batch: Batch, kind: string) returns (taken: Option<GrpcWorker>, why: string)
      requires Valid() && batch != [] && forall t | t in batch :: KindOf(t) == Some(kind)
      modifies this`rrIndex, (set w | w in workers)`batchQueue
      ensures Valid() && workers == old(workers)
      ensures Routed(Some(kind), None, taken, old(Loads())) && Placed(batch, taken, old(Queues()), old(Loads()))
      ensures taken.None? ==> why == if NoneCompatible(Some(kind), old(Loads())) then NO_READY else AT_CAPACITY
    {
      hide *;
      var choice := Select(kind);
      if choice.None? {
        NowhereToGo(batch, Some(kind));
        return None, NO_READY;
      }
      NotNone(choice.value, Some(kind), Loads());
      taken := TryAndSweep(choice.value, batch, kind);
      why := AT_CAPACITY;
    }

    method TryAndSweep(choice: GrpcWorker, batch: Batch, kind: string) returns (taken: Option<GrpcWorker>)
      requires Valid() && Preferred(choice, Some(kind), None, Loads())
      requires batch != [] && forall t | t in batch :: KindOf(t) == Some(kind)
      modifies (set w | w in workers)`batchQueue
      ensures Valid()
      ensures Routed(Some(kind), None, taken, old(Loads())) && Placed(batch, taken, old(Queues()), old(Loads()))
    {
      hide *;
      PreferredCarries(choice, kind, batch);
      taken := Offer(choice, batch);
      if taken.Some? {
        RoutedAtOnce(choice, Some(kind), None, old(Loads()));
        return;
      }
      var others := Candidates(Some(kind), Some(choice.workerId));
      CompatibleCarry(others, Some(kind), Some(choice.workerId), batch);
      ghost var at;
      taken, at := TryEach(others, batch);
      AfterRefusal(choice, others, taken, at, kind, old(Loads()));
    }

    lemma NowhereToGo(batch: Batch, kind: Option<string>)
      requires NoneCompatible(kind, Loads())
      ensures Routed(kind, None, None, Loads()) && Placed(batch, None, Queues(), Loads())
    {
    }

    lemma NotNone(w: GrpcWorker, kind: Option<string>, loads: map<GrpcWorker, Load>)
      requires Preferred(w, kind, None, loads)
      ensures !NoneCompatible(kind, loads)
    {
    }

    lemma NoHandoff(batch: Batch, kind: Option<string>, except: Option<string>)
      ensures Placed(batch, None, Queues(), Loads())
      ensures Chosen([], kind, except, Loads()) ==> Routed(kind, except, None, Loads())
    {
    }

    /** The preferred proxy was full, so no compatible one is idle, and the sweep covers all the others. */
    lemma AfterRefusal(choice: GrpcWorker, others: seq<GrpcWorker>, taken: Option<GrpcWorker>, at: nat, kind: string,
                       loads: map<GrpcWorker, Load>)
      requires Preferred(choice, Some(kind), None, loads) && !Free(choice, loads)
      requires forall w | w in loads && w.workerId == choice.workerId :: w == choice
      requires Chosen(others, Some(kind), Some(choice.workerId), loads)
      requires FirstFree(others, taken, at, loads)
      ensures Routed(Some(kind), None, taken, loads)
    {
      forall w | w in loads && Compatible(w, Some(kind), None, loads) && w != choice ensures w in others {
        assert Compatible(w, Some(kind), Some(choice.workerId), loads);
      }
    }

    // -------------------------------------------------------------------------------------------
    // Handoff of one task
    // -------------------------------------------------------------------------------------------

    /** Try one handoff to a different worker, an idle one first, with the task's own deadline. */
    method TryResubmit(task: Task, failedWorkerId: string, now: Time) returns (taken: Option<GrpcWorker>)
      requires Valid()
      modifies (set w | w in workers)`batchQueue, task
      ensures Valid() && Placed([task], taken, old(Queues()), old(Loads()))
      ensures if stopping || !Reserves(old(task.State()), now) then taken.None?
              else Routed(KindOf(task), Some(failedWorkerId), taken, old(Loads()))
      ensures task.State() == old(task.State()) || task.State() == Move(old(task.State()), Reserve(now))
      ensures taken.Some? ==> task.State() == Move(old(task.State()), Reserve(now))
      ensures stopping ==> task.State() == old(task.State())
    {
      hide *;
      taken := None;
      NoHandoff([task], KindOf(task), Some(failedWorkerId));
      if stopping {
        return;
      }
      var candidates := Candidates(KindOf(task), Some(failedWorkerId));
      if candidates == [] {
        return;
      }
      var reserved := task.TryReserveRetry(now);
      if !reserved {
        return;
      }
      taken := OfferIdleFirst(candidates, [task], KindOf(task), Some(failedWorkerId));
    }

    method OfferIdleFirst(candidates: seq<GrpcWorker>, batch: Batch, ghost kind: Option<string>,
          ghost except: Option<string>)
      returns (taken: Option<GrpcWorker>)
      requires Valid() && Chosen(candidates, kind, except, Loads())
      requires batch != [] && forall t | t in batch :: KindOf(t) == kind
      modifies (set w | w in workers)`batchQueue
      ensures Valid()
      ensures Routed(kind, except, taken, old(Loads())) && Placed(batch, taken, old(Queues()), old(Loads()))
    {
      hide *;
      CompatibleMembers(candidates, kind, except);
      var idle, busy := SplitByLoad(candidates);
      CompatibleCarry(candidates, kind, except, batch);
      AllCarryBoth(candidates, idle, busy, batch);
      ghost var at;
      taken, at := TryEach(idle + busy, batch);
      IdleFirst(candidates, idle, busy, taken, at, kind, except, old(Loads()));
    }

    lemma AllCarryBoth(found: seq<GrpcWorker>, idle: seq<GrpcWorker>, busy: seq<GrpcWorker>, batch: Batch)
      requires AllCarry(found, batch)
      requires (forall w | w in idle :: w in found) && (forall w | w in busy :: w in found)
      ensures AllCarry(idle + busy, batch)
    {
    }

    lemma IdleFirst(found: seq<GrpcWorker>, idle: seq<GrpcWorker>, busy: seq<GrpcWorker>, taken: Option<GrpcWorker>,
          at: nat,
                    kind: Option<string>, except: Option<string>, loads: map<GrpcWorker, Load>)
      requires Chosen(found, kind, except, loads)
      requires forall w | w in idle :: w in found && loads[w].outstanding == 0
      requires forall w | w in busy :: w in found
      requires forall w | w in found :: if loads[w].outstanding == 0 then w in idle else w in busy
      requires FirstFree(idle + busy, taken, at, loads)
      ensures Routed(kind, except, taken, loads)
    {
      var ws := idle + busy;
      if taken.Some? {
        assert ws[at] in found;
        if loads[ws[at]].outstanding > 0 && idle != [] {
          assert idle[0] in idle && idle[0] in found;
          assert ws[0] == idle[0] && Free(ws[0], loads);
        }
      } else {
        forall w | w in loads && Compatible(w, kind, except, loads) ensures loads[w].outstanding >= 2 {
          assert w in ws;
        }
      }
    }

    /** Keep a terminal task as it is, fail an expired or durable one, hand off another if allowed. */
    method FinishOrRetry(task: Task, workerId: string, error: string, retryAllowed: bool, now: Time)
        returns (taken: Option<GrpcWorker>)
      requires Valid()
      modifies (set w | w in workers)`batchQueue, task
      ensures Valid() && Placed([task], taken, old(Queues()), old(Loads()))
      ensures taken.None? <==> task.State().Terminal()
      ensures task.State() in Ends(task, old(task.State()), error, taken, now)
      ensures taken.Some? ==> retryAllowed && !stopping && !Durable(task) && Reserves(old(task.State()), now)
      ensures retryAllowed && !stopping && !Durable(task) && Reserves(old(task.State()), now) ==>
                Routed(KindOf(task), Some(workerId), taken, old(Loads()))
      ensures !retryAllowed || stopping ==> task.State().retries == old(task.State().retries)
    {
      hide GrpcWorkerPool.Valid, GrpcWorkerPool.Routed, GrpcWorkerPool.Loads, GrpcWorkerPool.Queues,
          GrpcWorkerPool.Placed;
      NoHandoff([task], KindOf(task), Some(workerId));
      taken := None;
      if task.status in {Done, Failed} {
        return;
      }
      var expired := task.IsExpired(now);
      if expired {
        task.MarkFailed("request deadline exceeded", Some("deadline_exceeded"), now);
        return;
      }
      if Durable(task) {
        task.MarkFailed(error, Some("transport_error"), now);
        return;
      }
      if retryAllowed {
        taken := TryResubmit(task, workerId, now);
        if taken.Some? {
          return;
        }
      }
      task.MarkFailed(error, None, now);
    }

    // -------------------------------------------------------------------------------------------
    // Membership
    // -------------------------------------------------------------------------------------------

    ghost function Snap(tasks: set<Task>): Snapshot
      reads this`workers, workers, tasks
    {
      Snapshot(Loads(), Queues(), map t | t in tasks :: t.State())
    }

    /** A ready member other than the worker that lost the task takes its kind and has a free slot. */
    ghost predicate Spare(w: GrpcWorker, task: Task, from: string, loads: map<GrpcWorker, Load>) {
      && w in loads && loads[w].ready && loads[w].outstanding < 2
      && w.workerId != from && Capable(w, KindOf(task))
    }

    /** What one turn makes of its task. A task with an outcome keeps it; one that is late, or of a durable kind,
        fails; one that may be handed over fails if and only if no member has room for it, and is otherwise
        last in the queue of a member that had, an idle one if there was one. */
    ghost predicate Turned(turn: Turn, error: string, allowed: bool, now: Time) {
      Effects(turn) && Decided(turn, error, allowed, now)
    }

    /** Only the task changes, and the queue of the member that took it. */
    ghost predicate Effects(turn: Turn) {
      var t, a, b := turn.task, turn.before, turn.after;
      && t in a.states && t in b.states && b.states == a.states[t := b.states[t]]
      && b.queues.Keys == a.queues.Keys && b.loads.Keys == a.loads.Keys
      && (forall w | w in a.queues :: b.queues[w] == a.queues[w] + if turn.taken == Some(w) then [[t]] else [])
      && (forall w | w in a.loads ::
            && b.loads[w].ready == a.loads[w].ready
            && b.loads[w].outstanding == a.loads[w].outstanding + if turn.taken == Some(w) then 1 else 0)
    }

    ghost predicate Decided(turn: Turn, error: string, allowed: bool, now: Time)
      requires Effects(turn)
    {
      var t, a := turn.task, turn.before;
      var s, r := a.states[t], turn.after.states[t];
      if s.status == Done || s.status == Failed then turn.taken == None && r == s
      else if s.deadline.Some? && s.deadline.value <= now then
        turn.taken == None && r == FailedWith(s, "request deadline exceeded", Some("deadline_exceeded"), now)
      else if AsksDurable(t) then turn.taken == None && r == FailedWith(s, error, Some("transport_error"), now)
      else if allowed && s.retries == 0 then
        match turn.taken
        case Some(w) =>
          && Spare(w, t, turn.from, a.loads) && w in a.queues && r == s.(retries := 1)
          && (a.loads[w].outstanding == 0
              || forall x | x in a.loads && Spare(x, t, turn.from, a.loads) :: a.loads[x].outstanding > 0)
        case None =>
          && (forall w | w in a.loads :: !Spare(w, t, turn.from, a.loads))
          && r in {FailedWith(s, error, None, now), FailedWith(s.(retries := 1), error, None, now)}
      else turn.taken == None && r == FailedWith(s, error, None, now)
    }

    ghost predicate AllTurned(turns: seq<Turn>, error: string, allowed: bool, now: Time) {
      forall i | 0 <= i < |turns| :: Turned(turns[i], error, allowed, now)
    }

    /** What a call of _finish_or_retry promises is a turn. */
    lemma TurnHolds(turn: Turn, error: string, allowed: bool, now: Time)
      requires var t, a, b := turn.task, turn.before, turn.after;
        && t in a.states && t in b.states && b.states == a.states[t := b.states[t]]
        && (turn.taken.Some? ==> turn.taken.value in a.loads) && a.loads.Keys == a.queues.Keys
        && Appended([t], turn.taken, a.queues, b.queues) && Busier(turn.taken, a.loads, b.loads)
        && b.states[t] in Ends(t, a.states[t], error, turn.taken, now)
        && (turn.taken.None? <==> b.states[t].Terminal())
        && (!allowed ==> b.states[t].retries == a.states[t].retries)
        && (turn.taken.Some? ==> allowed && !Durable(t) && Reserves(a.states[t], now))
        && (allowed && !Durable(t) && Reserves(a.states[t], now) ==>
              Routed(KindOf(t), Some(turn.from), turn.taken, a.loads))
      ensures Turned(turn, error, allowed, now)
    {
      hide KindOf, AsksDurable, GrpcWorkerPool.Capable;
      var t, a, b := turn.task, turn.before, turn.after;
      EndsSpelled(t, a.states[t], b.states[t], error, turn.taken, now);
      if allowed && !Durable(t) && Reserves(a.states[t], now) {
        RoutedSpelled(t, turn.from, turn.taken, a.loads);
      }
    }

    lemma EndsSpelled(t: Task, s: TaskState, r: TaskState, error: string, taken: Option<GrpcWorker>, now: Time)
      requires r in Ends(t, s, error, taken, now) && (taken.Some? ==> !Durable(t) && Reserves(s, now))
      requires taken.None? ==> r.Terminal()
      ensures taken.Some? ==> r == s.(retries := 1) && s.retries == 0
      ensures taken.None? && s.Terminal() ==> r == s
      ensures taken.None? && !s.Terminal() ==>
                if s.Expired(now) then r == FailedWith(s, "request deadline exceeded", Some("deadline_exceeded"), now)
                else if Durable(t) then r == FailedWith(s, error, Some("transport_error"), now)
                else if s.retries == 0 then
                  r in {FailedWith(s, error, None, now), FailedWith(s.(retries := 1), error, None, now)}
                else r == FailedWith(s, error, None, now)
    {
      hide Durable;
    }

    lemma RoutedSpelled(t: Task, from: string, taken: Option<GrpcWorker>, loads: map<GrpcWorker, Load>)
      requires Routed(KindOf(t), Some(from), taken, loads)
      ensures taken.None? ==> forall w | w in loads :: !Spare(w, t, from, loads)
      ensures taken.Some? ==>
                && Spare(taken.value, t, from, loads)
                && (loads[taken.value].outstanding == 0
                    || forall x | x in loads && Spare(x, t, from, loads) :: loads[x].outstanding > 0)
    {
      hide KindOf, GrpcWorkerPool.Capable;
    }

    /** _finish_or_retry as a turn. */
    method FinishOne(task: Task, workerId: string, error: string, retryAllowed: bool, now: Time, ghost tasks: set<Task>)
      returns (ghost turn: Turn)
      requires Valid() && task in tasks
      modifies (set w | w in workers)`batchQueue, task
      ensures Valid() && turn.task == task && turn.from == workerId
      ensures turn.before == old(Snap(tasks)) && turn.after == Snap(tasks)
      ensures Turned(turn, error, retryAllowed && !stopping, now)
    {
      hide GrpcWorkerPool.Valid, GrpcWorkerPool.Routed, GrpcWorkerPool.Loads, GrpcWorkerPool.Queues, Move, Reserves,
          KindOf, Durable, Appended, Busier, Ends, TaskState.Terminal, GrpcWorkerPool.Turned;
      SameKeys();
      ghost var before := Snap(tasks);
      var taken := FinishOrRetry(task, workerId, error, retryAllowed, now);
      turn := Turn(task, workerId, taken, before, Snap(tasks));
      TurnHolds(turn, error, retryAllowed && !stopping, now);
    }

    lemma SameKeys()
      ensures Loads().Keys == Queues().Keys
    {
    }

    /** Finish or hand off the tasks of a list, one turn each, in order. */
    method FinishAll(batch: Batch, workerId: string, error: string, retryAllowed: bool, now: Time,
                     ghost tasks: set<Task>) returns (ghost turns: seq<Turn>)
      requires Valid() && forall t | t in batch :: t in tasks
      modifies (set w | w in workers)`batchQueue, set t | t in batch
      ensures Valid() && Linked(old(Snap(tasks)), turns, Snap(tasks))
      ensures AllTurned(turns, error, retryAllowed && !stopping, now) && JobsIn(turns) == JobsOf(batch, workerId)
    {
      hide GrpcWorkerPool.Valid, GrpcWorkerPool.Snap, GrpcWorkerPool.Turned;
      turns := [];
      for k := 0 to |batch|
        invariant Valid() && Linked(old(Snap(tasks)), turns, Snap(tasks))
        invariant AllTurned(turns, error, retryAllowed && !stopping, now)
        invariant JobsIn(turns) == JobsOf(batch[..k], workerId)
      {
        ghost var was := Snap(tasks);
        ghost var turn := FinishOne(batch[k], workerId, error, retryAllowed, now, tasks);
        LinkedOn(old(Snap(tasks)), turns, was, turn);
        turns := turns + [turn];
        assert batch[..k + 1] == batch[..k] + [batch[k]];
      }
      assert batch[..|batch|] == batch;
    }

    /** Stop a proxy that has left the pool and finish or hand off all it had queued; handing over is allowed if
        the proxy was stopped by a removal. */
    method Retire(worker: GrpcWorker, retryPending: bool, now: Time, ghost tasks: set<Task>)
      returns (ghost turns: seq<Turn>)
      requires Valid() && worker !in workers && worker.Valid() && TasksOf(worker.batchQueue) <= tasks
      modifies worker, (set w | w in workers)`batchQueue, TasksOf(worker.batchQueue)
      ensures Valid() && worker.Valid() && worker.stopped && worker.batchQueue == []
      ensures Linked(old(Snap(tasks)), turns, Snap(tasks))
      ensures AllTurned(turns, "worker removed",
                        (if old(worker.stopped) then old(worker.retryOnStop) else retryPending) && !stopping, now)
      ensures JobsIn(turns) == JobsOf(Flat(old(worker.batchQueue)), worker.workerId)
    {
      hide GrpcWorkerPool.Valid, GrpcWorkerPool.Turned, GrpcWorkerPool.Loads, GrpcWorkerPool.Queues;
      worker.BeginStop(retryPending);
      var pending := worker.TakeAll();
      turns := [];
      for i := 0 to |pending|
        invariant Valid() && worker.Valid() && worker.stopped && worker.batchQueue == []
        invariant worker.retryOnStop == if old(worker.stopped) then old(worker.retryOnStop) else retryPending
        invariant Linked(old(Snap(tasks)), turns, Snap(tasks))
        invariant AllTurned(turns, "worker removed", worker.retryOnStop && !stopping, now)
        invariant JobsIn(turns) == JobsOf(Flat(pending[..i]), worker.workerId)
      {
        assert pending[i] in pending;
        ghost var was := Snap(tasks);
        ghost var more := FinishAll(pending[i], worker.workerId, "worker removed", worker.retryOnStop, now, tasks);
        LinkedBoth(old(Snap(tasks)), turns, was, more, Snap(tasks));
        turns := turns + more;
        assert pending[..i + 1][..i] == pending[..i];
      }
      assert pending[..|pending|] == pending;
    }

    // What a chain of turns comes to.

    /** Queues and loads only grow, and an outcome stays. */
    lemma {:induction false} TurnsGrow(first: Snapshot, turns: seq<Turn>, last: Snapshot, error: string, allowed: bool,
                                       now: Time, i: nat, k: nat)
      requires Linked(first, turns, last) && AllTurned(turns, error, allowed, now) && i <= k <= |turns|
      ensures var a, b := Moment(first, turns, i), Moment(first, turns, k);
        && a.queues.Keys == b.queues.Keys && a.loads.Keys == b.loads.Keys && a.states.Keys == b.states.Keys
        && (forall w | w in a.queues :: a.queues[w] <= b.queues[w])
        && (forall w | w in a.loads ::
              b.loads[w].ready == a.loads[w].ready && a.loads[w].outstanding <= b.loads[w].outstanding)
        && (forall t | t in a.states && a.states[t].Terminal() :: b.states[t] == a.states[t])
      decreases k
    {
      if i < k {
        hide GrpcWorkerPool.Effects, GrpcWorkerPool.Decided;
        TurnsGrow(first, turns, last, error, allowed, now, i, k - 1);
        OneGrows(turns[k - 1], error, allowed, now);
      }
    }

    lemma OneGrows(turn: Turn, error: string, allowed: bool, now: Time)
      requires Turned(turn, error, allowed, now)
      ensures var a, b := turn.before, turn.after;
        && a.queues.Keys == b.queues.Keys && a.loads.Keys == b.loads.Keys && a.states.Keys == b.states.Keys
        && (forall w | w in a.queues :: a.queues[w] <= b.queues[w])
        && (forall w | w in a.loads ::
              b.loads[w].ready == a.loads[w].ready && a.loads[w].outstanding <= b.loads[w].outstanding)
        && (forall t | t in a.states && a.states[t].Terminal() :: b.states[t] == a.states[t])
    {
      hide GrpcWorkerPool.Spare, AsksDurable;
    }

    /** A task keeps its state until its turn. */
    lemma {:induction false} StateUntil(first: Snapshot, turns: seq<Turn>, last: Snapshot, error: string, allowed: bool,
                                        now: Time, t: Task, i: nat, k: nat)
      requires Linked(first, turns, last) && AllTurned(turns, error, allowed, now) && i <= k <= |turns|
      requires forall m | i <= m < k :: turns[m].task != t
      requires t in Moment(first, turns, i).states
      ensures t in Moment(first, turns, k).states
      ensures Moment(first, turns, k).states[t] == Moment(first, turns, i).states[t]
      decreases k
    {
      if i < k {
        hide GrpcWorkerPool.Decided;
        StateUntil(first, turns, last, error, allowed, now, t, i, k - 1);
        assert Turned(turns[k - 1], error, allowed, now);
      }
    }

    /** After its turn a task has an outcome or is alone in a batch of some member's queue. */
    lemma Placement(first: Snapshot, turns: seq<Turn>, last: Snapshot, error: string, allowed: bool, now: Time, i: nat)
      requires Linked(first, turns, last) && AllTurned(turns, error, allowed, now) && i < |turns|
      ensures turns[i].task in last.states && Kept(turns[i].task, last)
    {
      hide GrpcWorkerPool.Turned, TaskState.Terminal;
      var t, mid := turns[i].task, turns[i].after;
      KeptAfter(turns[i], error, allowed, now);
      TurnsGrow(first, turns, last, error, allowed, now, i + 1, |turns|);
      Ended(first, turns, last);
      if !mid.states[t].Terminal() {
        var w :| w in mid.queues && [t] in mid.queues[w];
        assert mid.queues[w] <= last.queues[w];
        assert [t] in last.queues[w];
      }
    }

    lemma KeptAfter(turn: Turn, error: string, allowed: bool, now: Time)
      requires Turned(turn, error, allowed, now)
      ensures turn.task in turn.after.states && Kept(turn.task, turn.after)
      ensures turn.taken.Some? ==> turn.taken.value in turn.after.queues
      ensures turn.taken.Some? ==> [turn.task] in turn.after.queues[turn.taken.value]
    {
      hide GrpcWorkerPool.Spare, AsksDurable;
      if turn.taken.Some? {
        var w := turn.taken.value;
        assert turn.after.queues[w] == turn.before.queues[w] + [[turn.task]];
        assert [turn.task] in turn.after.queues[w];
      }
    }

    /** The task could still be handed over when the pool was changed. */
    predicate Movable(t: Task, s: TaskState, now: Time) {
      && (s.status == Pending || s.status == Processing) && (s.deadline.Some? ==> now < s.deadline.value)
      && !AsksDurable(t) && s.retries == 0
    }

    /** The end of such a task if it was lost once: it is as it was, with its retry used, in a queue of a
        capable member; or it failed, and then no capable member has room even now. */
    ghost predicate HandedOver(t: Task, s: TaskState, from: string, last: Snapshot) {
      && t in last.states
      && if last.states[t].status == Failed then forall w | w in last.loads :: !Spare(w, t, from, last.loads)
         else
           && last.states[t] == s.(retries := 1)
           && exists w | w in last.queues && [t] in last.queues[w] :: Capable(w, KindOf(t)) && w.workerId != from
    }

    lemma LostOnce(first: Snapshot, turns: seq<Turn>, last: Snapshot, error: string, now: Time, i: nat)
      requires Linked(first, turns, last) && AllTurned(turns, error, true, now) && i < |turns|
      requires forall m | 0 <= m < |turns| && m != i :: turns[m].task != turns[i].task
      requires turns[i].task in first.states && Movable(turns[i].task, first.states[turns[i].task], now)
      ensures HandedOver(turns[i].task, first.states[turns[i].task], turns[i].from, last)
    {
      hide GrpcWorkerPool.Turned, GrpcWorkerPool.Movable, GrpcWorkerPool.HandedOver;
      var t, mid := turns[i].task, turns[i].after;
      StateUntil(first, turns, last, error, true, now, t, 0, i);
      MovedAtOnce(turns[i], error, now);
      TurnsGrow(first, turns, last, error, true, now, i + 1, |turns|);
      KeptAfter(turns[i], error, true, now);
      StateUntil(first, turns, last, error, true, now, t, i + 1, |turns|);
      Ended(first, turns, last);
      OverLater(t, first.states[t], turns[i].from, mid, last);
    }

    lemma MovedAtOnce(turn: Turn, error: string, now: Time)
      requires Turned(turn, error, true, now) && Movable(turn.task, turn.before.states[turn.task], now)
      ensures HandedOver(turn.task, turn.before.states[turn.task], turn.from, turn.after)
    {
      KeptAfter(turn, error, true, now);
      hide AsksDurable, KindOf, GrpcWorkerPool.Capable;
    }

    /** Members do not get room again, and queues do not lose what they have. */
    lemma OverLater(t: Task, s: TaskState, from: string, mid: Snapshot, last: Snapshot)
      requires HandedOver(t, s, from, mid) && t in last.states && last.states[t] == mid.states[t]
      requires mid.queues.Keys == last.queues.Keys && mid.loads.Keys == last.loads.Keys
      requires forall w | w in mid.queues :: mid.queues[w] <= last.queues[w]
      requires forall w | w in mid.loads ::
                 last.loads[w].ready == mid.loads[w].ready && mid.loads[w].outstanding <= last.loads[w].outstanding
      ensures HandedOver(t, s, from, last)
    {
      hide KindOf, GrpcWorkerPool.Capable;
      if mid.states[t].status != Failed {
        var w :| w in mid.queues && [t] in mid.queues[w] && Capable(w, KindOf(t)) && w.workerId != from;
        assert mid.queues[w] <= last.queues[w];
        assert [t] in last.queues[w];
      }
    }

    /** Where nothing is handed over, every task of a turn ends as _finish_or_retry ends it, its retry unused. */
    lemma {:induction false} NothingHanded(first: Snapshot, turns: seq<Turn>, last: Snapshot, error: string, now: Time,
                                           i: nat, k: nat)
      requires Linked(first, turns, last) && AllTurned(turns, error, false, now) && i < k <= |turns|
      requires turns[i].task in first.states
      ensures turns[i].task in Moment(first, turns, k).states
      ensures Moment(first, turns, k).states[turns[i].task]
              == Finished(turns[i].task, first.states[turns[i].task], error, now)
      decreases k
    {
      hide GrpcWorkerPool.Turned, Finished;
      var t := turns[i].task;
      var was := Moment(first, turns, k - 1);
      FinishedAtOnce(turns[k - 1], error, now);
      TurnsGrow(first, turns, last, error, false, now, 0, k - 1);
      if turns[k - 1].task != t {
        NothingHanded(first, turns, last, error, now, i, k - 1);
      } else if j :| 0 <= j < k - 1 && turns[j].task == t {
        NothingHanded(first, turns, last, error, now, j, k - 1);
        FinishedStays(t, first.states[t], error, now);
      } else {
        StateUntil(first, turns, last, error, false, now, t, 0, k - 1);
      }
    }

    lemma FinishedAtOnce(turn: Turn, error: string, now: Time)
      requires Turned(turn, error, false, now)
      ensures turn.task in turn.before.states
      ensures turn.after.states
              == turn.before.states[turn.task := Finished(turn.task, turn.before.states[turn.task], error, now)]
    {
      hide AsksDurable;
    }

    lemma FinishedStays(t: Task, s: TaskState, error: string, now: Time)
      ensures Finished(t, Finished(t, s, error, now), error, now) == Finished(t, s, error, now)
    {
    }

    method Find(wid: string) returns (found: Option<GrpcWorker>)
      ensures found.None? <==> wid !in Ids(workers)
      ensures found.Some? ==> found.value in workers && found.value.workerId == wid
    {
      for i := 0 to |workers|
        invariant forall w | w in workers[..i] :: w.workerId != wid
      {
        if workers[i].workerId == wid {
          return Some(workers[i]);
        }
      }
      return None;
    }

    /** A new proxy is the last member. */
    ghost predicate Joined(before: seq<GrpcWorker>, proxy: GrpcWorker, address: string)
      reads this`workers, proxy
    {
      && workers == before + [proxy]
      && proxy.address == address && proxy.batchQueue == [] && proxy.Outstanding() == 0
    }

    method FindOrAdd(wid: string, address: string) returns (proxy: GrpcWorker)
      requires Valid()
      modifies this`workers
      ensures Valid() && proxy in workers && proxy.workerId == wid && Ids(workers) == Ids(old(workers)) + {wid}
      ensures if wid in Ids(old(workers)) then workers == old(workers)
              else Joined(old(workers), proxy, address) && fresh(proxy)
    {
      var found := Find(wid);
      if found.Some? {
        return found.value;
      }
      proxy := new GrpcWorker(wid, address);
      workers := workers + [proxy];
      assert Queues() == old(Queues())[proxy := []];
    }

    /** One round of the loop: the proxy of a listed worker exists and has the listed state. */
    method ListOne(wid: string, info: WorkerInfo) returns (proxy: GrpcWorker)
      requires Valid()
      modifies this`workers, (set w | w in workers)`ready
      ensures Valid() && proxy in workers && proxy.workerId == wid && proxy.ready == info.ready
      ensures Ids(workers) == Ids(old(workers)) + {wid}
      ensures if wid in Ids(old(workers)) then workers == old(workers)
              else Joined(old(workers), proxy, info.address) && fresh(proxy)
      ensures forall w | w in old(workers) && w != proxy :: w.ready == old(w.ready)
      ensures forall w | w in workers && w.workerId == wid :: w == proxy
    {
      hide GrpcWorkerPool.AllCarried;
      proxy := FindOrAdd(wid, info.address);
      label L:
      proxy.SetRoutingState(info.ready);
      assert Queues() == old@L(Queues());
    }

    /** The first loop under the pool lock: a proxy for every listed worker, with its listed state. */
    method AddListed(infos: map<string, WorkerInfo>)
      requires Valid()
      modifies this`workers, (set w | w in workers)`ready
      ensures Valid() && old(workers) <= workers && Ids(workers) == Ids(old(workers)) + infos.Keys
      ensures forall w | w in workers && w.workerId in infos :: w.ready == infos[w.workerId].ready
      ensures forall w | w in workers && w !in old(workers) ::
                fresh(w) && w.workerId in infos && w.workerId !in Ids(old(workers))
                    && w.address == infos[w.workerId].address
                    && w.batchQueue == [] && w.Outstanding() == 0
    {
      hide GrpcWorkerPool.Valid;
      var todo := infos.Keys;
      while todo != {}
        invariant Valid() && todo <= infos.Keys && old(workers) <= workers
        invariant Ids(workers) == Ids(old(workers)) + (infos.Keys - todo)
        invariant forall w | w in workers && w.workerId in infos && w.workerId !in todo ::
                    w.ready == infos[w.workerId].ready
        invariant forall w | w in workers && w !in old(workers) ::
                    fresh(w) && w.workerId in infos && w.workerId !in Ids(old(workers))
                        && w.address == infos[w.workerId].address
                        && w.batchQueue == [] && w.Outstanding() == 0
      {
        var wid :| wid in todo;
        var proxy := ListOne(wid, infos[wid]);
        todo := todo - {wid};
      }
    }

    /** The tasks queued at the members. */
    ghost function Waiting(): set<Task>
      reads this`workers, workers
    {
      set w, t | w in workers && t in TasksOf(w.batchQueue) :: t
    }

    /** The members right after a membership change: a new one has nothing queued, an old one what it had. */
    ghost predicate Enlisted(before: Snapshot, first: Snapshot)
    {
      && first.states == before.states && first.queues.Keys == first.loads.Keys
      && (forall w | w in first.queues :: first.queues[w] == if w in before.queues then before.queues[w] else [])
      && (forall w | w in first.loads ::
            first.loads[w].outstanding == if w in before.loads then before.loads[w].outstanding else 0)
    }

    /** Every task that was queued at a worker that is gone had its turn, and now has an outcome or is alone in a
        batch of some member's queue. */
    ghost predicate NoneLost(before: Snapshot, turns: seq<Turn>, after: Snapshot, listed: set<string>) {
      forall w, t | w in before.queues && w.workerId !in listed && t in TasksOf(before.queues[w]) ::
        Job(t, w.workerId) in JobsIn(turns) && t in after.states && Kept(t, after)
    }

    ghost predicate Kept(t: Task, after: Snapshot)
      requires t in after.states
    {
      after.states[t].Terminal() || exists x | x in after.queues :: [t] in after.queues[x]
    }

    /** A task that could be handed over, and had one turn, was handed over if that was possible. */
    ghost predicate MovedOver(before: Snapshot, turns: seq<Turn>, after: Snapshot, now: Time) {
      forall i | 0 <= i < |turns| && Sole(turns, i) ::
        var t := turns[i].task;
        t in before.states && Movable(t, before.states[t], now) ==>
          HandedOver(t, before.states[t], turns[i].from, after)
    }

    /** Apply a membership snapshot and retire the proxies of the workers that are gone. Every task that was
        queued at one of them gets its turn. One that could be handed over and was queued there once is now in
        the queue of a capable member, or has failed because no such member has room. */
    method UpdateWorkers(infos: map<string, WorkerInfo>, now: Time)
      returns (ghost turns: seq<Turn>, ghost first: Snapshot)
      requires Valid()
      modifies this`workers, workers, Waiting()
      ensures Valid()
      ensures stopping ==>
                workers == old(workers) && Queues() == old(Queues()) && Loads() == old(Loads()) && turns == []
      ensures !stopping ==>
                Ids(workers) == infos.Keys && forall w | w in workers :: w.Ready() == infos[w.workerId].ready
      ensures forall w | w in workers ::
                w in old(workers)
                    || (fresh(w) && w.workerId !in Ids(old(workers)) && w.address == infos[w.workerId].address)
      ensures !stopping ==> forall w | w in old(workers) ::
                if w.workerId in infos then w in workers && old(w.batchQueue) <= w.batchQueue
                else w.stopped && w.batchQueue == []
      ensures !stopping ==>
                var before, after := old(Snap(Waiting())), Snap(old(Waiting()));
                && Enlisted(before, first) && Linked(first, turns, after)
                && AllTurned(turns, "worker removed", true, now)
                && NoneLost(before, turns, after, infos.Keys) && MovedOver(before, turns, after, now)
    {
      hide GrpcWorkerPool.Valid, GrpcWorkerPool.Snap, GrpcWorkerPool.Queues, GrpcWorkerPool.Loads, DistinctIds, TasksOf;
      hide GrpcWorkerPool.AllTurned, Linked, JobsIn, GrpcWorkerPool.Kept, GrpcWorkerPool.MovedOver;
      hide GrpcWorkerPool.Waiting;
      hide GrpcWorkerPool.Enlisted, GrpcWorkerPool.AllJobs, GrpcWorkerPool.NoneLost, Ids;
      turns, first := [], Snap({});
      if stopping {
        return;
      }
      ghost var tasks := Waiting();
      ghost var before := Snap(tasks);
      SnapFacts(tasks);
      var gone;
      gone, first := Enroll(infos, tasks);
      turns := RetireAll(gone, true, now, true, tasks);
      SnapFacts(tasks);
      AfterTurns(before, first, turns, Snap(tasks), now);
      NoneLostNow(before, turns, Snap(tasks), infos.Keys);
    }

    /** The membership change, with what it leaves to be done. */
    method Enroll(infos: map<string, WorkerInfo>, ghost tasks: set<Task>)
      returns (gone: seq<GrpcWorker>, ghost first: Snapshot)
      requires Valid() && tasks == Waiting()
      modifies this`workers, (set w | w in workers)`ready, (set w | w in workers)`stopped,
          (set w | w in workers)`retryOnStop
      ensures Valid() && Ids(workers) == infos.Keys && forall w | w in workers :: w.Ready() == infos[w.workerId].ready
      ensures forall w | w in workers ::
                w in old(workers)
                    || (fresh(w) && w.workerId !in Ids(old(workers)) && w.address == infos[w.workerId].address)
      ensures DistinctIds(gone)
      ensures forall w | w in gone ::
                && w in old(workers) && w !in workers && w.workerId !in infos && w.stopped && w.retryOnStop && w.Valid()
                && TasksOf(w.batchQueue) <= tasks
      ensures forall w | w in old(workers) :: if w.workerId in infos then w in workers else w in gone
      ensures first == Snap(tasks) && Enlisted(old(Snap(tasks)), first)
      ensures forall w, t | w in old(Snap(tasks)).queues && w.workerId !in infos
                            && t in TasksOf(old(Snap(tasks)).queues[w]) ::
                Job(t, w.workerId) in AllJobs(gone)
    {
      hide GrpcWorkerPool.Valid, GrpcWorkerPool.Snap, GrpcWorkerPool.Queues, GrpcWorkerPool.Loads, DistinctIds;
      hide GrpcWorkerPool.Waiting, GrpcWorkerPool.Enlisted, GrpcWorkerPool.AllJobs, Ids;
      ghost var before := Snap(tasks);
      SnapFacts(tasks);
      WaitingTasks();
      gone := ApplyMembership(infos);
      first := Snap(tasks);
      SnapFacts(tasks);
      EnlistedNow(before, tasks);
      JobsListed(gone);
    }

    lemma EnlistedNow(before: Snapshot, tasks: set<Task>)
      requires before.states.Keys == tasks
      requires forall t | t in tasks :: before.states[t] == t.State()
      requires forall w | w in workers ::
                 && w.batchQueue == (if w in before.queues then before.queues[w] else [])
                 && w.Outstanding() == if w in before.loads then before.loads[w].outstanding else 0
      ensures Enlisted(before, Snap(tasks))
    {
    }

    /** Every task of a worker that is gone had a turn, so it was not lost. */
    lemma NoneLostNow(before: Snapshot, turns: seq<Turn>, after: Snapshot, listed: set<string>)
      requires forall w, t | w in before.queues && w.workerId !in listed && t in TasksOf(before.queues[w]) ::
                 Job(t, w.workerId) in JobsIn(turns)
      requires forall t, from | Job(t, from) in JobsIn(turns) :: t in after.states && Kept(t, after)
      ensures NoneLost(before, turns, after, listed)
    {
      hide JobsIn, GrpcWorkerPool.Kept;
    }

    lemma AfterTurns(before: Snapshot, first: Snapshot, turns: seq<Turn>, last: Snapshot, now: Time)
      requires Linked(first, turns, last) && AllTurned(turns, "worker removed", true, now) && Enlisted(before, first)
      ensures forall w | w in last.queues && w in before.queues :: before.queues[w] <= last.queues[w]
      ensures forall t, from | Job(t, from) in JobsIn(turns) :: t in last.states && Kept(t, last)
      ensures MovedOver(before, turns, last, now)
    {
      hide GrpcWorkerPool.HandedOver, GrpcWorkerPool.Movable, GrpcWorkerPool.AllTurned, Linked, TaskState.Terminal;
      TurnsGrow(first, turns, last, "worker removed", true, now, 0, |turns|);
      Ended(first, turns, last);
      forall t, from | Job(t, from) in JobsIn(turns) ensures t in last.states && Kept(t, last) {
        var i :| 0 <= i < |turns| && JobsIn(turns)[i] == Job(t, from);
        Placement(first, turns, last, "worker removed", true, now, i);
      }
      forall i | 0 <= i < |turns| && Sole(turns, i) && turns[i].task in first.states
                 && Movable(turns[i].task, first.states[turns[i].task], now)
        ensures HandedOver(turns[i].task, first.states[turns[i].task], turns[i].from, last)
      {
        LostOnce(first, turns, last, "worker removed", now, i);
      }
    }

    lemma WaitingTasks()
      ensures forall w | w in workers :: TasksOf(w.batchQueue) <= Waiting()
    {
    }

    lemma SnapFacts(tasks: set<Task>)
      ensures Snap(tasks).queues.Keys == Snap(tasks).loads.Keys == (set w | w in workers)
      ensures Snap(tasks).states.Keys == tasks
      ensures forall w | w in workers :: Snap(tasks).loads[w] == Load(w.Ready(), w.Outstanding())
      ensures forall w | w in workers :: w in Snap(tasks).queues && Snap(tasks).queues[w] == w.batchQueue
      ensures forall t | t in tasks :: t in Snap(tasks).states && Snap(tasks).states[t] == t.State()
    {
    }

    lemma {:induction false} JobsListed(gone: seq<GrpcWorker>)
      ensures forall w, t | w in gone && t in TasksOf(w.batchQueue) :: Job(t, w.workerId) in AllJobs(gone)
    {
      if gone != [] {
        var n := |gone| - 1;
        JobsListed(gone[..n]);
        var w := gone[n];
        FlatHas(w.batchQueue);
        forall v, t | v in gone && t in TasksOf(v.batchQueue) ensures Job(t, v.workerId) in AllJobs(gone) {
          if v == w {
            var k :| 0 <= k < |Flat(w.batchQueue)| && Flat(w.batchQueue)[k] == t;
            assert JobsOf(Flat(w.batchQueue), w.workerId)[k] == Job(t, w.workerId);
          } else {
            assert v in gone[..n];
          }
        }
      }
    }

    lemma Ended(first: Snapshot, turns: seq<Turn>, last: Snapshot)
      requires Linked(first, turns, last)
      ensures Moment(first, turns, |turns|) == last
    {
    }

    /** Everything under the pool lock: afterwards the members are exactly the listed workers. */
    method ApplyMembership(infos: map<string, WorkerInfo>) returns (gone: seq<GrpcWorker>)
      requires Valid()
      modifies this`workers, (set w | w in workers)`ready, (set w | w in workers)`stopped,
          (set w | w in workers)`retryOnStop
      ensures Valid() && Ids(workers) == infos.Keys && forall w | w in workers :: w.Ready() == infos[w.workerId].ready
      ensures forall w | w in workers ::
                w in old(workers)
                    || (fresh(w) && w.workerId !in Ids(old(workers)) && w.address == infos[w.workerId].address
                        && w.batchQueue == [] && w.Outstanding() == 0)
      ensures DistinctIds(gone)
      ensures forall w | w in gone ::
                w in old(workers) && w !in workers && w.workerId !in infos && w.stopped && w.retryOnStop && w.Valid()
      ensures forall w | w in old(workers) :: if w.workerId in infos then w in workers else w in gone
    {
      hide GrpcWorkerPool.Valid, DistinctIds;
      AddListed(infos);
      gone := DropUnlisted(infos.Keys);
    }

    /** The second loop under the pool lock: members that are not listed leave it, marked as stopping. */
    method DropUnlisted(listed: set<string>) returns (gone: seq<GrpcWorker>)
      requires Valid()
      modifies this`workers, (set w | w in workers)`stopped, (set w | w in workers)`retryOnStop
      ensures Valid() && Ids(workers) == Ids(old(workers)) * listed
      ensures forall w | w in workers :: w in old(workers) && !w.stopped
      ensures forall w | w in gone ::
                w in old(workers) && w.workerId !in listed && w.stopped && w.retryOnStop && w.Valid()
      ensures forall w | w in old(workers) :: if w.workerId in listed then w in workers else w in gone
      ensures DistinctIds(gone)
    {
      hide GrpcWorkerPool.AllCarried;
      var kept;
      kept, gone := Partition(listed);
      workers := kept;
      Fewer(old(Queues()), Queues());
    }

    lemma Fewer(queues: map<GrpcWorker, seq<Batch>>, after: map<GrpcWorker, seq<Batch>>)
      requires AllCarried(queues) && forall w | w in after :: w in queues && after[w] == queues[w]
      ensures AllCarried(after)
    {
    }

    method Partition(listed: set<string>) returns (kept: seq<GrpcWorker>, gone: seq<GrpcWorker>)
      requires Sound()
      modifies (set w | w in workers)`stopped, (set w | w in workers)`retryOnStop
      ensures DistinctIds(kept) && DistinctIds(gone)
      ensures forall w | w in kept :: w in workers && w.workerId in listed && !w.stopped
      ensures forall w | w in gone :: w in workers && w.workerId !in listed && w.stopped && w.retryOnStop
      ensures forall w | w in workers :: w.Valid() && if w.workerId in listed then w in kept else w in gone
    {
      kept, gone := [], [];
      for i := 0 to |workers|
        invariant DistinctIds(kept) && DistinctIds(gone)
        invariant forall w | w in kept :: w in workers[..i] && w.workerId in listed && !w.stopped
        invariant forall w | w in gone :: w in workers[..i] && w.workerId !in listed && w.stopped && w.retryOnStop
        invariant forall w | w in workers[..i] :: if w.workerId in listed then w in kept else w in gone
        invariant forall w | w in workers :: w.Valid() && (w in workers[..i] || !w.stopped)
      {
        if workers[i].workerId in listed {
          kept := kept + [workers[i]];
        } else {
          workers[i].BeginStop(true);
          gone := gone + [workers[i]];
        }
      }
    }

    /** The tasks queued at some proxies, proxy by proxy and in order. */
    ghost function AllJobs(gone: seq<GrpcWorker>): seq<Job>
      reads gone
    {
      if gone == [] then [] else
      var w := gone[|gone| - 1];
      AllJobs(gone[..|gone| - 1]) + JobsOf(Flat(w.batchQueue), w.workerId)
    }

    method RetireAll(gone: seq<GrpcWorker>, retryPending: bool, now: Time, ghost handing: bool, ghost tasks: set<Task>)
      returns (ghost turns: seq<Turn>)
      requires Valid() && DistinctIds(gone)
      requires forall w | w in gone ::
                 && w !in workers && w.Valid() && w.stopped && w.retryOnStop == handing
                 && TasksOf(w.batchQueue) <= tasks
      modifies gone, (set w | w in workers)`batchQueue, set w, t | w in gone && t in TasksOf(w.batchQueue) :: t
      ensures Valid()
      ensures forall w | w in gone :: w.stopped && w.batchQueue == []
      ensures Linked(old(Snap(tasks)), turns, Snap(tasks))
      ensures AllTurned(turns, "worker removed", handing && !stopping, now) && JobsIn(turns) == old(AllJobs(gone))
    {
      hide GrpcWorkerPool.Valid, GrpcWorkerPool.Snap, TasksOf, GrpcWorkerPool.Turned, Flat, JobsOf;
      turns := [];
      for i := 0 to |gone|
        invariant Valid()
        invariant forall w | w in gone[..i] :: w.stopped && w.batchQueue == []
        invariant forall w | w in gone[i..] ::
                    && w.Valid() && w.batchQueue == old(w.batchQueue) && w.stopped && w.retryOnStop == handing
        invariant Linked(old(Snap(tasks)), turns, Snap(tasks))
        invariant AllTurned(turns, "worker removed", handing && !stopping, now)
        invariant JobsIn(turns) == old(AllJobs(gone[..i]))
      {
        assert gone[i] in gone[i..] && forall w | w in gone[i + 1..] :: w in gone[i..] && w != gone[i];
        assert gone[..i + 1][..i] == gone[..i];
        ghost var was := Snap(tasks);
        ghost var more := Retire(gone[i], retryPending, now, tasks);
        LinkedBoth(old(Snap(tasks)), turns, was, more, Snap(tasks));
        turns := turns + more;
      }
      assert gone[..|gone|] == gone;
    }

    /** Shut the pool down: no member is left, no retry is accepted any more, and every task that was still
        queued anywhere ends where it is: nothing is handed over. */
    method Stop(now: Time)
      requires Valid()
      modifies this`workers, this`stopping, workers, set w, t | w in workers && t in TasksOf(w.batchQueue) :: t
      ensures Valid() && stopping && workers == []
      ensures forall w | w in old(workers) ::
                && w.stopped && w.batchQueue == []
                && forall t | t in old(TasksOf(w.batchQueue)) ::
                     t.State() == Finished(t, old(t.State()), "worker removed", now)
    {
      hide GrpcWorkerPool.Valid, Finished, GrpcWorkerPool.Waiting, DistinctIds, GrpcWorkerPool.AllJobs;
      ghost var tasks := Waiting();
      var gone := Close(tasks);
      RetireClosed(gone, now, tasks);
    }

    method RetireClosed(gone: seq<GrpcWorker>, now: Time, ghost tasks: set<Task>)
      requires Valid() && DistinctIds(gone)
      requires forall w | w in gone ::
                 w !in workers && w.Valid() && w.stopped && !w.retryOnStop && TasksOf(w.batchQueue) <= tasks
      requires forall w, t | w in gone && t in TasksOf(w.batchQueue) :: Job(t, w.workerId) in AllJobs(gone)
      modifies gone, (set w | w in workers)`batchQueue, set w, t | w in gone && t in TasksOf(w.batchQueue) :: t
      ensures Valid()
      ensures forall w | w in gone ::
                && w.stopped && w.batchQueue == []
                && forall t | t in old(TasksOf(w.batchQueue)) ::
                     t.State() == Finished(t, old(t.State()), "worker removed", now)
    {
      hide GrpcWorkerPool.Valid, GrpcWorkerPool.Snap, GrpcWorkerPool.AllTurned, Linked, JobsIn, GrpcWorkerPool.AllJobs;
      hide Finished, DistinctIds, GrpcWorkerPool.Loads, GrpcWorkerPool.Queues, GrpcWorker.Valid;
      SnapFacts(tasks);
      ghost var first := Snap(tasks);
      ghost var turns := RetireAll(gone, false, now, false, tasks);
      SnapFacts(tasks);
      AllFinished(first, turns, Snap(tasks), now);
    }

    /** Everything under the pool lock: no member is left, and none will hand over what it had. */
    method Close(ghost tasks: set<Task>) returns (gone: seq<GrpcWorker>)
      requires Valid() && tasks == Waiting()
      modifies this`workers, this`stopping, (set w | w in workers)`stopped, (set w | w in workers)`retryOnStop
      ensures Valid() && stopping && workers == [] && gone == old(workers) && DistinctIds(gone)
      ensures forall w | w in gone :: w.Valid() && w.stopped && !w.retryOnStop && TasksOf(w.batchQueue) <= tasks
      ensures forall w, t | w in gone && t in old(TasksOf(w.batchQueue)) ::
                t in tasks && Job(t, w.workerId) in AllJobs(gone)
    {
      hide GrpcWorkerPool.Waiting, GrpcWorkerPool.AllJobs;
      WaitingTasks();
      stopping := true;
      gone := workers;
      workers := [];
      BeginStopAll(gone);
      JobsListed(gone);
    }

    lemma AllFinished(first: Snapshot, turns: seq<Turn>, last: Snapshot, now: Time)
      requires Linked(first, turns, last) && AllTurned(turns, "worker removed", false, now)
      ensures forall t, from | Job(t, from) in JobsIn(turns) && t in first.states ::
                t in last.states && last.states[t] == Finished(t, first.states[t], "worker removed", now)
    {
      hide GrpcWorkerPool.AllTurned, Linked, Finished;
      Ended(first, turns, last);
      forall t, from | Job(t, from) in JobsIn(turns) && t in first.states
        ensures t in last.states && last.states[t] == Finished(t, first.states[t], "worker removed", now)
      {
        var i :| 0 <= i < |turns| && JobsIn(turns)[i] == Job(t, from);
        NothingHanded(first, turns, last, "worker removed", now, i, |turns|);
      }
    }

    method BeginStopAll(gone: seq<GrpcWorker>)
      requires DistinctIds(gone) && forall w | w in gone :: !w.stopped
      modifies (set w | w in gone)`stopped, (set w | w in gone)`retryOnStop
      ensures forall w | w in gone :: w.stopped && !w.retryOnStop
    {
      for i := 0 to |gone|
        invariant forall w | w in gone[..i] :: w.stopped && !w.retryOnStop
        invariant forall w | w in gone[i..] :: !w.stopped
      {
        gone[i].BeginStop(false);
      }
    }

    // -------------------------------------------------------------------------------------------
    // Splitting a batch by kind
    // -------------------------------------------------------------------------------------------

    /** Group a batch by kind; a task whose kind is not a string is failed. */
    method GroupByKind(batch: Batch, now: Time) returns (kinds: seq<string>, groups: map<string, Batch>)
      modifies set t | t in batch
      ensures kinds == KindOrder(batch) && groups.Keys == Elements(kinds)
      ensures forall k | k in groups :: groups[k] == OfKind(batch, k)
      ensures forall t | t in batch :: t.State() == AfterGrouping(t, old(t.State()), now)
    {
      kinds, groups := [], map[];
      for i := 0 to |batch|
        invariant kinds == KindOrder(batch[..i]) && groups.Keys == Elements(kinds)
        invariant forall k | k in groups :: groups[k] == OfKind(batch[..i], k)
        invariant forall t | t in batch[..i] :: t.State() == AfterGrouping(t, old(t.State()), now)
        invariant forall t | t in batch :: t in batch[..i] || t.State() == old(t.State())
      {
        assert batch[..i + 1][..i] == batch[..i];
        var kind := KindOf(batch[i]);
        if kind.None? {
          batch[i].MarkFailed("invalid task kind", Some("invalid_spec"), now);
        } else {
          NewKind(batch[..i], kind.value);
          if kind.value !in groups {
            kinds := kinds + [kind.value];
            groups := groups[kind.value := []];
          }
          groups := groups[kind.value := groups[kind.value] + [batch[i]]];
        }
      }
      assert batch[..|batch|] == batch;
    }

    /** Why a group went where it did, seen when all groups are placed: a refused group leaves no
        compatible ready proxy with a free slot; an accepted one went to a compatible ready proxy, and to
        one that had been idle if any compatible ready proxy is still idle. */
    ghost predicate Explained(kind: string, taken: Option<GrpcWorker>, idle: set<GrpcWorker>,
          loads: map<GrpcWorker, Load>)
    {
      match taken
      case None => forall w | w in loads && Compatible(w, Some(kind), None, loads) :: loads[w].outstanding >= 2
      case Some(worker) =>
        && Compatible(worker, Some(kind), None, loads)
        && (worker in idle
               || forall w | w in loads && Compatible(w, Some(kind), None, loads) :: loads[w].outstanding > 0)
    }

    /** What holds once the groups of some kinds are sent, against the pool as it was at the start. */
    ghost predicate Sending(batch: Batch, kinds: seq<string>, routes: map<string, Option<GrpcWorker>>, now: Time,
                            states: map<Task, TaskState>, queues: map<GrpcWorker, seq<Batch>>,
                                loads: map<GrpcWorker, Load>)
      reads this`workers, workers, batch
    {
      && routes.Keys == Elements(kinds) && GrowIdle(loads, Loads())
      && (forall t | t in batch :: t in states && t.State() in Outcomes(t, states[t], routes, now))
      && QueuesGrown(batch, kinds, routes, queues, Queues())
      && (forall k | k in routes :: Explained(k, routes[k], IdleIn(loads), Loads()))
    }

    /** Split by kind, keeping order, and send every group; a kind that is not a string is refused. */
    method Submit(batch: Batch, now: Time) returns (routes: map<string, Option<GrpcWorker>>)
      requires Valid()
      modifies this`rrIndex, (set w | w in workers)`batchQueue, set t | t in batch
      ensures Valid() && workers == old(workers)
      ensures routes.Keys == Elements(KindOrder(batch))
      ensures forall t | t in batch :: t.State() in Outcomes(t, old(t.State()), routes, now)
      ensures forall w | w in workers :: w.batchQueue == old(w.batchQueue) + Sent(batch, KindOrder(batch), routes, w)
      ensures forall k | k in routes :: Explained(k, routes[k], IdleIn(old(Loads())), Loads())
    {
      ghost var states := map t | t in batch :: t.State();
      ghost var queues, loads := Queues(), Loads();
      var kinds, groups := GroupByKind(batch, now);
      routes := map[];
      for j := 0 to |kinds|
        invariant Valid() && workers == old(workers) && Sending(batch, kinds[..j], routes, now, states, queues, loads)
      {
        assert kinds[j] in groups;
        var taken := SendGroup(batch, groups[kinds[j]], kinds, j, routes, now, states, queues, loads);
        routes := routes[kinds[j] := taken];
      }
      assert kinds[..|kinds|] == kinds;
      forall w | w in workers ensures w.batchQueue == old(w.batchQueue) + Sent(batch, KindOrder(batch), routes, w) {
        assert w in Queues();
      }
    }

    method SendGroup(batch: Batch, group: Batch, ghost kinds: seq<string>, ghost j: nat,
          ghost routes: map<string, Option<GrpcWorker>>,
                     now: Time, ghost states: map<Task, TaskState>, ghost queues: map<GrpcWorker, seq<Batch>>,
                     ghost loads: map<GrpcWorker, Load>) returns (taken: Option<GrpcWorker>)
      requires Valid() && kinds == KindOrder(batch) && j < |kinds| && group == OfKind(batch, kinds[j])
      requires Sending(batch, kinds[..j], routes, now, states, queues, loads)
      modifies this`rrIndex, (set w | w in workers)`batchQueue, set t | t in batch
      ensures Valid() && workers == old(workers)
      ensures Sending(batch, kinds[..j + 1], routes[kinds[j] := taken], now, states, queues, loads)
    {
      hide IdleIn, Sent, Move, Busier, Appended, Outcomes, QueuesGrown, KindOrder, OfKind, GrpcWorkerPool.Valid,
          GrpcWorkerPool.Routed,
           GrpcWorkerPool.Loads, GrpcWorkerPool.Queues, GrpcWorkerPool.Explained;
      ghost var kind := kinds[j];
      NewKind(batch, kind);
      assert forall t | t in group :: t in batch;
      var why;
      taken, why := SubmitCompatible(group, KindOf(group[0]).value, now);
      ExplainedStep(kind, taken, routes, loads, old(Loads()), Loads());
      QueuesStep(batch, kinds, j, routes, taken, queues, old(Queues()), Queues());
      forall t | t in batch ensures t.State() in Outcomes(t, states[t], routes[kind := taken], now) {
        OutcomeStep(t, states[t], old(t.State()), t.State(), routes, kind, taken, why, now);
      }
    }

    /** Placing another group keeps the explanations of the earlier ones. */
    lemma ExplainedStep(kind: string, taken: Option<GrpcWorker>, routes: map<string, Option<GrpcWorker>>,
                        first: map<GrpcWorker, Load>, loads: map<GrpcWorker, Load>, after: map<GrpcWorker, Load>)
      requires forall k | k in routes :: Explained(k, routes[k], IdleIn(first), loads)
      requires GrowIdle(first, loads) && Busier(taken, loads, after) && Routed(Some(kind), None, taken, loads)
      ensures GrowIdle(first, after)
      ensures Explained(kind, taken, IdleIn(first), after)
      ensures forall k | k in routes :: Explained(k, routes[k], IdleIn(first), after)
    {
      forall k | k in routes ensures Explained(k, routes[k], IdleIn(first), after) {
        assert Explained(k, routes[k], IdleIn(first), loads);
        assert forall w | w in loads :: Compatible(w, Some(k), None, after) <==> Compatible(w, Some(k), None, loads);
      }
      assert forall w | w in loads ::
          Compatible(w, Some(kind), None, after) <==> Compatible(w, Some(kind), None, loads);
    }
  }
}
