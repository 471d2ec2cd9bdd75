/** The life of one in-memory task (system/task.py). Every method holds the task's lock, so it is one
    atomic step; the clock it reads is an argument. */
module Tasks {
  import opened Wrappers

  type Time = int
  type Json = string

  datatype Kind = Text(name: string) | NotText

  /** input_data: either not a dictionary, or one with the fields the platform looks at. */
  datatype Input = Scalar | Fields(kind: Option<Kind>, spec: Option<Json>, attempt: Option<nat>)

  /** Kinds of tasks that are never handed to another worker and never left without an outcome. */
  const DURABLE_KINDS: set<string> := {"synthx_v73", "synthx_text_v123", "synthx_text_refinement"}

  datatype Status = Pending | Processing | Done | Failed

  datatype TaskState = TaskState(
    status: Status,
    result: Option<Json>,
    error: Option<string>,
    errorCode: Option<string>,
    startTime: Option<Time>,
    endTime: Option<Time>,
    deadline: Option<Time>,
    retries: nat
  ) {
    predicate Terminal() {
      status in {Done, Failed}
    }

    predicate Expired(now: Time) {
      deadline.Some? && deadline.value <= now
    }
  }

  function Fresh(deadline: Option<Time>): TaskState {
    TaskState(Pending, None, None, None, None, None, deadline, 0)
  }

  datatype TaskOp =
    | Start(at: Time)
    | Finish(at: Time, result: Option<Json>)
    | Fail(at: Time, error: string, code: Option<string>)
    | Reserve(at: Time)

  predicate Reserves(s: TaskState, at: Time) {
    !s.Terminal() && !s.Expired(at) && s.retries < 1
  }

  function Move(s: TaskState, op: TaskOp): TaskState {
    if s.Terminal() then s else
    match op
    case Start(at) =>
      s.(status := Processing, startTime := if s.startTime == None then Some(at) else s.startTime)
    case Finish(at, result) => s.(status := Done, result := result, endTime := Some(at))
    case Fail(at, error, code) => s.(status := Failed, error := Some(error), errorCode := code, endTime := Some(at))
    case Reserve(at) => if Reserves(s, at) then s.(retries := s.retries + 1) else s
  }

  function Moves(s: TaskState, ops: seq<TaskOp>): TaskState {
    if ops == [] then s else Move(Moves(s, ops[..|ops| - 1]), ops[|ops| - 1])
  }

  /** The first terminal update wins: whatever is tried afterwards, nothing about the task changes. */
  lemma {:induction false} FirstOutcomeWins(s: TaskState, ops: seq<TaskOp>)
    requires s.Terminal()
    ensures Moves(s, ops) == s
    decreases |ops|
  {
    if ops != [] {
      FirstOutcomeWins(s, ops[..|ops| - 1]);
    }
  }

  /** Over any sequence of calls: the deadline never moves, at most one retry is ever reserved, the
      first start time stays, and a result is present only on a task that is done. */
  lemma {:induction false} LifeOfATask(deadline: Option<Time>, ops: seq<TaskOp>)
    ensures
      var s := Moves(Fresh(deadline), ops);
      && s.deadline == deadline && s.retries <= 1
      && (s.result.Some? ==> s.status == Done)
      && (s.error.Some? <==> s.status == Failed)
      && (s.endTime.Some? <==> s.Terminal())
    decreases |ops|
  {
    if ops != [] {
      LifeOfATask(deadline, ops[..|ops| - 1]);
    }
  }

  /** Of all the calls of try_reserve_retry in a task's life, at most one returns true. */
  lemma {:induction false} ReserveOnce(deadline: Option<Time>, ops: seq<TaskOp>, i: nat, k: nat)
    requires i < k < |ops| && ops[i].Reserve? && ops[k].Reserve?
    requires Reserves(Moves(Fresh(deadline), ops[..i]), ops[i].at)
    ensures !Reserves(Moves(Fresh(deadline), ops[..k]), ops[k].at)
    decreases k
  {
    assert ops[..i + 1][..i] == ops[..i];
    RetriesGrow(Fresh(deadline), ops, i + 1, k);
  }

  lemma {:induction false} RetriesGrow(s: TaskState, ops: seq<TaskOp>, i: nat, k: nat)
    requires i <= k <= |ops|
    ensures Moves(s, ops[..i]).retries <= Moves(s, ops[..k]).retries
    decreases k
  {
    if i < k {
      RetriesGrow(s, ops, i, k - 1);
      assert ops[..k][..k - 1] == ops[..k - 1];
    }
  }

  class Task {
    const taskId: nat
    const input: Input
    const creationTime: Time
    const deadline: Option<Time>
    var status: Status
    var result: Option<Json>
    var error: Option<string>
    var errorCode: Option<string>
    var startTime: Option<Time>
    var endTime: Option<Time>
    var retryCount: nat

    function State(): TaskState
      reads this
    {
      TaskState(status, result, error, errorCode, startTime, endTime, deadline, retryCount)
    }

    constructor (taskId: nat, input: Input, creationTime: Time, deadline: Option<Time>)
      ensures State() == Fresh(deadline)
      ensures this.taskId == taskId && this.input == input && this.creationTime == creationTime
                && this.deadline == deadline
    {
      this.taskId, this.input, this.creationTime, this.deadline := taskId, input, creationTime, deadline;
      status, result, error, errorCode := Pending, None, None, None;
      startTime, endTime, retryCount := None, None, 0;
    }

    /** The remaining budget, never negative; None for an unbounded task. */
    method RemainingSeconds(now: Time) returns (r: Option<Time>)
      ensures r.None? <==> deadline.None?
      ensures r.Some? ==> r.value >= 0 && (r.value == 0 <==> State().Expired(now))
      ensures r.Some? && r.value > 0 ==> now + r.value == deadline.value
    {
      if deadline == None {
        return None;
      }
      return Some(if deadline.value - now > 0 then deadline.value - now else 0);
    }

    method IsExpired(now: Time) returns (b: bool)
      ensures b == State().Expired(now)
    {
      var remaining := RemainingSeconds(now);
      b := remaining.Some? && remaining.value <= 0;
    }

    method MarkProcessing(now: Time)
      modifies this
      ensures State() == Move(old(State()), Start(now))
      ensures State() == if old(status) in {Done, Failed} then old(State()) else
                old(State()).(status := Processing,
                              startTime := if old(startTime).Some? then old(startTime) else Some(now))
    {
      if status in {Done, Failed} {
        return;
      }
      if startTime == None {
        startTime := Some(now);
      }
      status := Processing;
    }

    method MarkDone(value: Option<Json>, now: Time)
      modifies this
      ensures State() == Move(old(State()), Finish(now, value))
      ensures State() == if old(status) in {Done, Failed} then old(State()) else
                old(State()).(status := Done, result := value, endTime := Some(now))
    {
      if status in {Done, Failed} {
        return;
      }
      result := value;
      endTime := Some(now);
      status := Done;
    }

    method MarkFailed(message: string, code: Option<string>, now: Time)
      modifies this
      ensures State() == Move(old(State()), Fail(now, message, code))
      ensures State() == if old(status) in {Done, Failed} then old(State()) else
                old(State()).(status := Failed, error := Some(message), errorCode := code, endTime := Some(now))
    {
      if status in {Done, Failed} {
        return;
      }
      error := Some(message);
      errorCode := code;
      endTime := Some(now);
      status := Failed;
    }

    method TryReserveRetry(now: Time) returns (reserved: bool)
      modifies this
      ensures State() == Move(old(State()), Reserve(now))
      ensures reserved == Reserves(old(State()), now)
      ensures reserved <==> (old(status).Pending? || old(status).Processing?) && old(retryCount) == 0
                            && (deadline.Some? ==> now < deadline.value)
      ensures State() == old(State()).(retries := old(retryCount) + if reserved then 1 else 0)
    {
      if status in {Done, Failed} {
        return false;
      }
      var expired := IsExpired(now);
      if expired || retryCount >= 1 {
        return false;
      }
      retryCount := retryCount + 1;
      return true;
    }
  }
}
