/** The three strategies and the scheduler that switches between them (system/scheduler.py). */
module Schedulers {
  import opened Tasks
  import opened TaskQueues
  import opened StableSorting
  import opened Scheduling

  /** A clock that never goes back; a still one stands for a tick seen at one moment. */
  class Clock {
    var now: Time
    const still: bool

    constructor (now: Time, still: bool)
      ensures this.now == now && this.still == still
    {
      this.now, this.still := now, still;
    }

    method Read() returns (t: Time)
      modifies this
      ensures t == now && old(now) <= now && (still ==> now == old(now))
    {
      var passed: nat :| true;
      if !still {
        now := now + passed;
      }
      t := now;
    }

    /** A wait that ran into its timeout. */
    method Wait(timeout: nat)
      modifies this
      ensures old(now) + timeout <= now
    {
      var passed: nat :| true;
      now := now + timeout + passed;
    }
  }

  lemma Later(a: seq<Time>, b: seq<Time>, bound: Time)
    requires NonDecreasing(a) && NonDecreasing(b)
    requires (forall r | r in a :: r <= bound) && (forall r | r in b :: bound <= r)
    ensures NonDecreasing(a + b)
  {
    var c := a + b;
    forall i, k | 0 <= i < k < |c| ensures c[i] <= c[k] {
      if i < |a| <= k {
        assert c[i] in a && c[k] in b;
      }
    }
  }

  /** Readings of one pass: in order, between two moments. */
  predicate Readings(clock: seq<Time>, low: Time, high: Time) {
    low <= high && NonDecreasing(clock) && forall r | r in clock :: low <= r <= high
  }

  lemma NextReading(clock: seq<Time>, low: Time, high: Time, now: Time)
    requires Readings(clock, low, high) && high <= now
    ensures Readings(clock + [now], low, now)
  {
    Later(clock, [now], now);
  }

  lemma OneMoment(clock: seq<Time>, now: Time)
    requires Readings(clock, now, now)
    ensures Constant(clock, now)
  {
    forall i | 0 <= i < |clock| ensures clock[i] == now {
      assert clock[i] in clock;
    }
  }

  class FifoScheduler {
    constructor () {}

    /** Up to size tasks in arrival order; fewer only when the queue ran empty. */
    method NextBatch(queue: TaskQueue, size: nat) returns (batch: seq<Task>)
      requires queue.Valid()
      modifies queue
      ensures queue.Valid() && queue.accepted == old(queue.accepted)
      ensures old(queue.items) == batch + queue.items && queue.taken == old(queue.taken) + batch
      ensures |batch| <= size && (|batch| < size ==> queue.items == [])
    {
      batch := [];
      while |batch| < size
        invariant queue.Valid() && queue.accepted == old(queue.accepted)
        invariant old(queue.items) == batch + queue.items && queue.taken == old(queue.taken) + batch && |batch| <= size
      {
        var task := queue.Get();
        if task.None? {
          break;
        }
        batch := batch + [task.value];
      }
    }
  }

  const FILL_TIMEOUT: nat := 100   // milliseconds
  const GET_TIMEOUT: nat := 10

  class BatchingScheduler {
    constructor () {}

    /** Wait for a full batch until the fill window is over; an empty queue does not end the wait. A batch is
        short only when the window is over, and when no time passes but in waits for an empty queue, only
        when the queue ran empty. */
    method NextBatch(queue: TaskQueue, size: nat, clock: Clock) returns (batch: seq<Task>)
      requires queue.Valid()
      modifies queue, clock
      ensures queue.Valid() && queue.accepted == old(queue.accepted)
      ensures old(queue.items) == batch + queue.items && queue.taken == old(queue.taken) + batch && |batch| <= size
      ensures |batch| < size ==> old(clock.now) + 100 <= clock.now
      ensures clock.still && |batch| < size ==> queue.items == []
    {
      var started := clock.Read();
      var deadline := started + FILL_TIMEOUT;
      batch := [];
      while |batch| < size
        invariant queue.Valid() && queue.accepted == old(queue.accepted)
        invariant old(queue.items) == batch + queue.items && queue.taken == old(queue.taken) + batch && |batch| <= size
        invariant clock.still && queue.items != [] ==> clock.now == started
        decreases if clock.now < deadline then deadline - clock.now else 0, size - |batch|
      {
        var now := clock.Read();
        if now >= deadline {
          break;
        }
        var task := queue.Get();
        if task.Some? {
          batch := batch + [task.value];
        } else {
          clock.Wait(GET_TIMEOUT);
        }
      }
    }
  }

  class LatencyAwareScheduler {
    var buffer: seq<Task>

    constructor ()
      ensures buffer == []
    {
      buffer := [];
    }

    /** One pass over the buffer, reading the clock for each element. */
    method Select(clock: Clock, threshold: int, wantOld: bool) returns (picked: seq<Task>, ghost readings: seq<Time>)
      modifies clock
      ensures |readings| == |buffer| && picked == Aged(buffer, readings, threshold, wantOld)
      ensures Readings(readings, old(clock.now), clock.now) && (clock.still ==> clock.now == old(clock.now))
    {
      hide IsOld;
      picked, readings := [], [];
      for i := 0 to |buffer|
        invariant |readings| == i && picked == Aged(buffer[..i], readings, threshold, wantOld)
        invariant Readings(readings, old(clock.now), clock.now) && (clock.still ==> clock.now == old(clock.now))
      {
        hide Readings;
        ghost var before := clock.now;
        var now := clock.Read();
        if IsOld(buffer[i], now, threshold) == wantOld {
          picked := picked + [buffer[i]];
        }
        assert buffer[..i + 1][..i] == buffer[..i] && (readings + [now])[..i] == readings;
        NextReading(readings, old(clock.now), before, now);
        readings := readings + [now];
      }
      assert buffer[..|buffer|] == buffer;
    }

    /** Top up the buffer, pick the batch, and keep the rest in order. */
    method NextBatch(queue: TaskQueue, cap: nat, size: nat, threshold: int, clock: Clock)
      returns (batch: seq<Task>, ghost drained: seq<Task>, ghost first: seq<Time>, ghost second: seq<Time>)
      requires queue.Valid()
      modifies this, queue, clock
      ensures queue.Valid() && queue.accepted == old(queue.accepted)
      ensures old(queue.items) == drained + queue.items && queue.taken == old(queue.taken) + drained
      ensures |drained| == if |old(buffer)| < 4 * cap then Min(4 * cap - |old(buffer)|, |old(queue.items)|) else 0
      ensures |old(buffer) + drained| <= if |old(buffer)| < 4 * cap then 4 * cap else |old(buffer)|
      ensures Picked(old(buffer) + drained, batch, buffer, size, first, second, threshold)
      ensures |batch| <= size
      ensures clock.still ==> batch == Batch(old(buffer) + drained, size) && buffer == Rest(old(buffer) + drained, size)
      ensures NoRepeats(old(buffer) + drained) ==>
                NoRepeats(batch) && NoRepeats(buffer)
                    && multiset(batch) + multiset(buffer) == multiset(old(buffer) + drained)
    {
      hide Picked, Batch, Rest, NoRepeats;
      drained := [];
      if |buffer| < 4 * cap {
        drained := TopUp(queue, 4 * cap - |buffer|);
      }
      assert buffer == old(buffer) + drained;
      batch, first, second := PickBatch(size, threshold, clock);
    }

    method TopUp(queue: TaskQueue, room: nat) returns (drained: seq<Task>)
      requires queue.Valid()
      modifies this, queue
      ensures queue.Valid() && queue.accepted == old(queue.accepted) && buffer == old(buffer) + drained
      ensures old(queue.items) == drained + queue.items && queue.taken == old(queue.taken) + drained
      ensures |drained| == Min(room, |old(queue.items)|)
    {
      drained := queue.Drain(room);
      buffer := buffer + drained;
    }

    /** For some readings of a clock that does not go back: the batch is the front of what they pick, and
        the buffer keeps the others. */
    ghost predicate Picked(all: seq<Task>, batch: seq<Task>, left: seq<Task>, size: nat, first: seq<Time>,
          second: seq<Time>, threshold: int)
    {
      && |first| == |second| == |all| && NonDecreasing(first + second)
      && var picked := Pick(all, first, second, threshold);
      batch == Cut(picked, size) && left == Without(all, Members(batch))
    }

    method PickBatch(size: nat, threshold: int, clock: Clock)
        returns (batch: seq<Task>, ghost first: seq<Time>, ghost second: seq<Time>)
      modifies this, clock
      ensures Picked(old(buffer), batch, buffer, size, first, second, threshold)
      ensures |batch| <= size
      ensures clock.still ==> batch == Batch(old(buffer), size) && buffer == Rest(old(buffer), size)
      ensures NoRepeats(old(buffer)) ==>
                NoRepeats(batch) && NoRepeats(buffer) && multiset(batch) + multiset(buffer) == multiset(old(buffer))
    {
      hide NonDecreasing, NoRepeats, Aged, StableSort;
      ghost var all := buffer;
      var stale, recent;
      stale, first := Select(clock, threshold, true);
      ghost var mid := clock.now;
      recent, second := Select(clock, threshold, false);
      Later(first, second, mid);
      var picked := StableSort(stale) + StableSort(recent);
      batch := Cut(picked, size);
      Remove(batch);
      if clock.still {
        OneMoment(first, mid);
        OneMoment(second, mid);
        FrozenClockSorts(all, first, second, threshold, mid);
      }
      if NoRepeats(all) {
        Kept(all, first, second, threshold, batch);
      }
    }

    /** Keep every buffered task that is not in the batch. */
    method Remove(batch: seq<Task>)
      modifies this
      ensures buffer == Without(old(buffer), Members(batch))
    {
      var left := [];
      for i := 0 to |buffer|
        invariant buffer == old(buffer) && left == Without(buffer[..i], Members(batch))
      {
        if buffer[i] !in batch {
          left := left + [buffer[i]];
        }
        assert buffer[..i + 1][..i] == buffer[..i];
      }
      assert buffer[..|buffer|] == buffer;
      buffer := left;
    }

    lemma Kept(all: seq<Task>, first: seq<Time>, second: seq<Time>, threshold: int, batch: seq<Task>)
      requires NoRepeats(all) && |first| == |second| == |all| && NonDecreasing(first + second)
      requires batch <= Pick(all, first, second, threshold)
      ensures NoRepeats(batch) && NoRepeats(Without(all, Members(batch)))
      ensures multiset(batch) + multiset(Without(all, Members(batch))) == multiset(all)
    {
      ForwardClockPicksOnce(all, first, second, threshold);
      PickMembers(all, first, second, threshold);
      var picked := Pick(all, first, second, threshold);
      forall i, k | 0 <= i < k < |batch| ensures batch[i] != batch[k] {
        assert batch[i] == picked[i] && batch[k] == picked[k];
      }
      forall t | t in batch ensures t in all {
        assert t in picked;
      }
      Conserved(all, batch);
    }
  }

  // ---------------------------------------------------------------------------------------------
  // Switching strategies
  // ---------------------------------------------------------------------------------------------

  lemma Regroup(a: multiset<Task>, b: multiset<Task>, c: multiset<Task>)
    ensures (a + b) + c == a + (b + c) == (a + c) + b == a + c + b
  {
  }

  /** What a round under the latency-aware strategy saw: the tasks it buffered, and the clock for each buffered
      task, once for each of its two passes. */
  datatype Sight = Sight(drained: seq<Task>, first: seq<Time>, second: seq<Time>)

  datatype Strategy = Fifo | Batching | LatencyAware | Unknown

  class Scheduler {
    const queue: TaskQueue
    const fifo: FifoScheduler
    const batching: BatchingScheduler
    const latencyAware: LatencyAwareScheduler
    ghost var handed: seq<Task>            // every task passed to the batch handler, in order

    ghost predicate Valid()
      reads this, queue, latencyAware
    {
      && queue.Valid() && NoRepeats(queue.accepted)
      && multiset(queue.taken) == multiset(handed) + multiset(latencyAware.buffer)
    }

    /** Every task ever accepted is in the queue, in the buffer, or was handed over, and only in one of them
        and only once. */
    lemma EachTaskOnce(t: Task)
      requires Valid()
      ensures t in queue.accepted ==>
                multiset(queue.items)[t] + multiset(latencyAware.buffer)[t] + multiset(handed)[t] == 1
      ensures t !in queue.accepted ==> t !in queue.items && t !in latencyAware.buffer && t !in handed
    {
      NoRepeatsCount(queue.accepted, t);
      assert multiset(queue.accepted)[t] == multiset(queue.taken)[t] + multiset(queue.items)[t];
      assert multiset(queue.taken)[t] == multiset(handed)[t] + multiset(latencyAware.buffer)[t];
      assert t !in queue.accepted ==>
          multiset(queue.items)[t] == 0 && multiset(handed)[t] == 0 && multiset(latencyAware.buffer)[t] == 0;
    }

    constructor (queue: TaskQueue)
      requires queue.Valid() && queue.accepted == []
      ensures Valid() && this.queue == queue && fresh(latencyAware) && handed == []
    {
      this.queue, handed := queue, [];
      fifo := new FifoScheduler();
      batching := new BatchingScheduler();
      latencyAware := new LatencyAwareScheduler();
    }

    /** A producer puts a new task; a full queue refuses it. */
    method Enqueue(task: Task) returns (full: bool)
      requires Valid() && task !in queue.accepted
      modifies queue
      ensures Valid() && queue.accepted == if full then old(queue.accepted) else old(queue.accepted) + [task]
    {
      full := queue.Put(task);
    }

    /** A batch that is the front of the queue. */
    ghost predicate FromQueue(batch: seq<Task>, items: seq<Task>, buffered: seq<Task>)
      reads queue, latencyAware
    {
      items == batch + queue.items && latencyAware.buffer == buffered
    }

    /** A batch that is picked from the buffer, after the buffer was topped up to four times the cap. */
    ghost predicate FromBuffer(batch: seq<Task>, items: seq<Task>, buffered: seq<Task>, cap: nat, size: nat,
                               threshold: int, sight: Sight)
      reads queue, latencyAware
    {
      && items == sight.drained + queue.items
      && |sight.drained| == (if |buffered| >= 4 * cap then 0
                                else if 4 * cap - |buffered| < |items| then 4 * cap - |buffered| else |items|)
      && latencyAware.Picked(buffered + sight.drained, batch, latencyAware.buffer, size, sight.first,
                             sight.second, threshold)
    }

    /** One round of the loop under the configured strategy; the handler may raise, the batch is handed over
        all the same. What is in the batch is up to the strategy: the front of the queue, short only when the
        queue ran empty or the fill window was over, or the oldest of the buffer. */
    method Tick(strategy: Strategy, cap: nat, size: nat, threshold: int, clock: Clock)
      returns (batch: seq<Task>, ghost sight: Sight)
      requires Valid()
      modifies this, queue, latencyAware, clock
      ensures Valid() && queue.accepted == old(queue.accepted) && handed == old(handed) + batch
      ensures strategy.Unknown? ==>
                batch == [] && queue.items == old(queue.items) && latencyAware.buffer == old(latencyAware.buffer)
      ensures strategy.Fifo? ==>
                && FromQueue(batch, old(queue.items), old(latencyAware.buffer))
                && (|batch| < size ==> queue.items == [])
      ensures strategy.Batching? ==>
                && FromQueue(batch, old(queue.items), old(latencyAware.buffer))
                && (|batch| < size ==> old(clock.now) + 100 <= clock.now && (clock.still ==> queue.items == []))
      ensures strategy.LatencyAware? ==>
                && FromBuffer(batch, old(queue.items), old(latencyAware.buffer), cap, size, threshold, sight)
                && (clock.still ==> batch == Batch(old(latencyAware.buffer) + sight.drained, size))
      ensures |batch| <= size
    {
      sight := Sight([], [], []);
      match strategy {
        case Unknown => batch := [];
        case Fifo => batch := fifo.NextBatch(queue, size);
        case Batching => batch := batching.NextBatch(queue, size, clock);
        case LatencyAware => batch, sight := LatencyTick(cap, size, threshold, clock);
      }
      handed := handed + batch;
      Regroup(multiset(old(handed)), multiset(latencyAware.buffer), multiset(batch));
    }

    method LatencyTick(cap: nat, size: nat, threshold: int, clock: Clock)
      returns (batch: seq<Task>, ghost sight: Sight)
      requires Valid()
      modifies queue, latencyAware, clock
      ensures queue.Valid() && queue.accepted == old(queue.accepted) && |batch| <= size
      ensures multiset(queue.taken) == multiset(handed) + multiset(batch) + multiset(latencyAware.buffer)
      ensures FromBuffer(batch, old(queue.items), old(latencyAware.buffer), cap, size, threshold, sight)
      ensures clock.still ==> batch == Batch(old(latencyAware.buffer) + sight.drained, size)
    {
      hide LatencyAwareScheduler.Picked, Batch, Rest, NoRepeats;
      ghost var drained, first, second;
      ghost var items, buffered := queue.items, latencyAware.buffer;
      BufferNoRepeats();
      batch, drained, first, second := latencyAware.NextBatch(queue, cap, size, threshold, clock);
      sight := Sight(drained, first, second);
      assert multiset(queue.taken) == multiset(old(queue.taken)) + multiset(drained);
      assert drained <= items;
      assert NoRepeats(buffered + drained);
      Regroup(multiset(handed), multiset(buffered), multiset(drained));
    }

    /** Buffered and queued tasks are different tasks. */
    lemma BufferNoRepeats()
      requires Valid()
      ensures forall drained | drained <= queue.items :: NoRepeats(latencyAware.buffer + drained)
    {
      forall drained | drained <= queue.items ensures NoRepeats(latencyAware.buffer + drained) {
        var all := latencyAware.buffer + drained;
        forall t | t in all ensures multiset(all)[t] == 1 {
          assert queue.items == drained + queue.items[|drained|..];
          EachTaskOnce(t);
        }
        CountNoRepeats(all);
      }
    }
  }
}
