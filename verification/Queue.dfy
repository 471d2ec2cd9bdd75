/** The bounded FIFO queue between producers and the scheduler (system/queue.py). */
module TaskQueues {
  import opened Wrappers
  import opened Tasks

  class TaskQueue {
    const maxsize: int           // zero or less means unbounded
    var items: seq<Task>
    var totalEnqueued: nat
    var totalDequeued: nat
    ghost var accepted: seq<Task>  // every task ever accepted, in order
    ghost var taken: seq<Task>     // every task ever removed, in order

    ghost predicate Valid()
      reads this
    {
      && accepted == taken + items
      && totalEnqueued == |accepted| && totalDequeued == |taken|
      && (maxsize > 0 ==> |items| <= maxsize)
    }

    constructor (maxsize: int)
      ensures Valid() && items == [] && accepted == [] && taken == [] && this.maxsize == maxsize
    {
      this.maxsize := maxsize;
      items, totalEnqueued, totalDequeued := [], 0, 0;
      accepted, taken := [], [];
    }

    /** Append the task, or raise Full. */
    method Put(task: Task) returns (full: bool)
      requires Valid()
      modifies this
      ensures Valid() && taken == old(taken)
      ensures full <==> maxsize > 0 && old(|items|) == maxsize
      ensures items == if full then old(items) else old(items) + [task]
      ensures accepted == if full then old(accepted) else old(accepted) + [task]
    {
      full := maxsize > 0 && |items| >= maxsize;
      if !full {
        items := items + [task];
        accepted := accepted + [task];
        totalEnqueued := totalEnqueued + 1;
      }
    }

    /** The oldest task; None when the wait times out. */
    method Get() returns (task: Option<Task>)
      requires Valid()
      modifies this
      ensures Valid() && accepted == old(accepted)
      ensures task.None? <==> old(items) == []
      ensures task.None? ==> items == old(items) && taken == old(taken)
      ensures task.Some? ==> old(items) == [task.value] + items && taken == old(taken) + [task.value]
    {
      if items == [] {
        return None;
      }
      task := Some(items[0]);
      taken := taken + [items[0]];
      items := items[1..];
      totalDequeued := totalDequeued + 1;
    }

    /** Up to maxItems tasks, oldest first, without waiting. */
    method Drain(maxItems: int) returns (drained: seq<Task>)
      requires Valid()
      modifies this
      ensures Valid() && accepted == old(accepted)
      ensures old(items) == drained + items && taken == old(taken) + drained
      ensures |drained| == if maxItems < 0 then 0 else if maxItems < old(|items|) then maxItems else old(|items|)
    {
      drained := [];
      var rest := items;
      var i := 0;
      while i < maxItems && rest != []
        invariant 0 <= i && (i <= maxItems || i == 0) && |drained| == i
        invariant items == drained + rest
      {
        drained := drained + [rest[0]];
        rest := rest[1..];
        i := i + 1;
      }
      items := rest;
      taken := taken + drained;
      totalDequeued := totalDequeued + |drained|;
    }
  }
}
