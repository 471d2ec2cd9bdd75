/** The batch RPC of a simulated worker (system/grpc_worker_server.py). The clock remembers its readings and
    the call context its answers, so that a contract can say what was read during a call. */
module BatchServers {
  import opened Wrappers
  import opened DeploymentGates

  type Id = nat            // a task id
  type Time = int

  datatype Request = Request(id: Id, remaining: Option<Time>, input: Option<int>)   // None: input that cannot be used

  datatype Outcome =
    | Prediction(value: int) | Expired | Injected | Unusable | Updating
    | Done | Failure(code: string)

  datatype Result = Result(id: Id, outcome: Outcome)

  predicate NonDecreasing(ts: seq<Time>) {
    forall i, k | 0 <= i < k < |ts| :: ts[i] <= ts[k]
  }

  class Clock {
    var now: Time
    ghost var readings: seq<Time>    // every value Read ever gave, in order

    ghost predicate Valid()
      reads this
    {
      NonDecreasing(readings) && forall t | t in readings :: t <= now
    }

    constructor (now: Time)
      ensures Valid() && this.now == now && readings == []
    {
      this.now, readings := now, [];
    }

    method Read() returns (t: Time)
      requires Valid()
      modifies this
      ensures Valid() && t == now && old(now) <= now && readings == old(readings) + [t]
    {
      var passed: nat :| true;
      now := now + passed;
      t := now;
      forall i, k | 0 <= i < k < |readings + [t]| ensures (readings + [t])[i] <= (readings + [t])[k] {
        assert readings != [] && i < |readings| ==> readings[i] in readings;
      }
      readings := readings + [t];
    }

    method Sleep(duration: Time)
      requires Valid() && duration >= 0
      modifies this
      ensures Valid() && now >= old(now) + duration && readings == old(readings)
    {
      var late: nat :| true;
      now := now + duration + late;
    }
  }

  class Context {
    ghost var answers: seq<bool>     // every answer of is_active, in order

    constructor ()
      ensures answers == []
    {
      answers := [];
    }

    method IsActive() returns (active: bool)
      modifies this
      ensures answers == old(answers) + [active]
    {
      active := *;
      answers := answers + [active];
    }
  }

  // ---------------------------------------------------------------------------------------------
  // Specification
  // ---------------------------------------------------------------------------------------------

  function IdsOf(requests: seq<Request>): seq<Id> {
    if requests == [] then [] else IdsOf(requests[..|requests| - 1]) + [requests[|requests| - 1].id]
  }

  function ResultIds(results: seq<Result>): seq<Id> {
    if results == [] then [] else ResultIds(results[..|results| - 1]) + [results[|results| - 1].id]
  }

  /** The deadline kept for an id: requests with the same id share that of the last one. */
  function DeadlineOf(requests: seq<Request>, id: Id, received: Time): Option<Time> {
    if requests == [] then None else
    var last := requests[|requests| - 1];
    if last.id == id then (match last.remaining case None => None case Some(d) => Some(received + d))
    else DeadlineOf(requests[..|requests| - 1], id, received)
  }

  predicate Past(deadline: Option<Time>, now: Time) {
    deadline.Some? && now >= deadline.value
  }

  /** One pass over tasks, each checked at its own reading: those that are not past their deadline. */
  function Kept(tasks: seq<Request>, deadlines: map<Id, Option<Time>>, seen: seq<Time>): seq<Request>
    requires |seen| == |tasks| && forall t | t in tasks :: t.id in deadlines
  {
    if tasks == [] then [] else
    var n := |tasks| - 1;
    Kept(tasks[..n], deadlines, seen[..n]) + if Past(deadlines[tasks[n].id], seen[n]) then [] else [tasks[n]]
  }

  /** The others, each with the reading it was found past at. */
  function Dropped(tasks: seq<Request>, deadlines: map<Id, Option<Time>>, seen: seq<Time>): seq<(Result, Time)>
    requires |seen| == |tasks| && forall t | t in tasks :: t.id in deadlines
  {
    if tasks == [] then [] else
    var n := |tasks| - 1;
    Dropped(tasks[..n], deadlines, seen[..n])
      + if Past(deadlines[tasks[n].id], seen[n]) then [(Result(tasks[n].id, Expired), seen[n])] else []
  }

  /** What the last pass answers a task. */
  function Computed(t: Request, deadline: Option<Time>, now: Time): Outcome {
    if Past(deadline, now) then Expired else
    match t.input
    case None => Unusable
    case Some(x) => Prediction(x * x)
  }

  /** How long the batch of so many live tasks takes. */
  function Duration(latency: Time, live: nat): Time {
    latency + live * (latency / 5)
  }

  /** A result with the reading it was decided on. */
  type Decision = (Result, Time)

  function Answers(ds: seq<Decision>): seq<Result> {
    if ds == [] then [] else Answers(ds[..|ds| - 1]) + [ds[|ds| - 1].0]
  }

  /** When a call was received, when its work began, and how many tasks were live then. */
  datatype Plan = Plan(received: Time, began: Time, live: nat) {
    function Finish(latency: Time): Time {
      began + Duration(latency, live)
    }
  }

  /** A prediction is the square of the input of a requested task with that id. */
  predicate Predicts(requests: seq<Request>, r: Result) {
    exists t | t in requests :: t.id == r.id && t.input.Some? && r.outcome == Prediction(t.input.value * t.input.value)
  }

  /** A task is unusable only for its own input. */
  predicate Rejects(requests: seq<Request>, r: Result) {
    exists t | t in requests :: t.id == r.id && t.input.None?
  }

  /** Decided by the last pass. */
  predicate Computes(r: Result) {
    r.outcome.Prediction? || r.outcome == Unusable
  }

  /** Decisions of one call: each made on a reading of this call, one of the last pass on one that is not
      past the deadline, an expiry on one that is. */
  predicate Timely(requests: seq<Request>, plan: Plan, ds: seq<Decision>, readings: seq<Time>, since: nat) {
    forall d | d in ds ::
      && Since(readings, since, d.1) && plan.received <= d.1
      && (Computes(d.0) ==> !Past(DeadlineOf(requests, d.0.id, plan.received), d.1))
      && (d.0.outcome.Prediction? ==> Predicts(requests, d.0)) && (d.0.outcome == Unusable ==> Rejects(requests, d.0))
      && (d.0.outcome == Expired ==> Past(DeadlineOf(requests, d.0.id, plan.received), d.1))
      && (d.0.outcome.Prediction? || d.0.outcome in {Expired, Injected, Unusable})
  }

  /** The last of the requests with its id. */
  predicate LastOf(requests: seq<Request>, i: nat)
    requires i < |requests|
  {
    forall k | i < k < |requests| :: requests[k].id != requests[i].id
  }

  /** The reading a decision was made on, against the budget that counts for its id: one of the last pass had
      time left, and an expiry had none. */
  predicate InTime(requests: seq<Request>, received: Time, d: Decision) {
    forall i | 0 <= i < |requests| && requests[i].id == d.0.id && LastOf(requests, i) ::
      var left := requests[i].remaining;
      && (d.0.outcome.Prediction? || d.0.outcome == Unusable ==> left.None? || d.1 < received + left.value)
      && (d.0.outcome == Expired ==> left.Some? && received + left.value <= d.1)
  }

  lemma {:induction false} LastDecides(requests: seq<Request>, i: nat, received: Time)
    requires i < |requests| && LastOf(requests, i)
    ensures DeadlineOf(requests, requests[i].id, received)
            == match requests[i].remaining case None => None case Some(left) => Some(received + left)
    decreases |requests|
  {
    if i < |requests| - 1 {
      LastDecides(requests[..|requests| - 1], i, received);
    }
  }

  lemma TimelyMeans(requests: seq<Request>, plan: Plan, ds: seq<Decision>, latency: Time, readings: seq<Time>,
                    since: nat)
    requires Timely(requests, plan, ds, readings, since) && Planned(plan, requests, ds, latency, readings, since)
    ensures forall d | d in ds :: InTime(requests, plan.received, d)
    ensures forall d | d in ds && (d.0.outcome.Prediction? || d.0.outcome == Unusable) ::
              plan.began + latency + plan.live * (latency / 5) <= d.1
  {
    hide Since, DeadlineOf, Predicts, Rejects;
    forall d, i | d in ds && 0 <= i < |requests| && requests[i].id == d.0.id && LastOf(requests, i)
      ensures DeadlineOf(requests, d.0.id, plan.received)
              == match requests[i].remaining case None => None case Some(left) => Some(plan.received + left)
    {
      LastDecides(requests, i, plan.received);
    }
  }

  /** Work begins after the first pass with the tasks it kept, and nothing is computed before its end. */
  predicate Planned(plan: Plan, requests: seq<Request>, ds: seq<Decision>, latency: Time, readings: seq<Time>,
        since: nat)
  {
    && plan.live <= |requests| && |requests| - plan.live <= |ds|
    && (forall i | 0 <= i < |requests| - plan.live :: ds[i].0.outcome == Expired)
    && Since(readings, since, plan.began) && plan.received <= plan.began
    && (forall d | d in ds && Computes(d.0) :: plan.Finish(latency) <= d.1)
  }

  // ---------------------------------------------------------------------------------------------
  // Accounting
  // ---------------------------------------------------------------------------------------------

  lemma {:induction false} IdsBoth(a: seq<Request>, b: seq<Request>)
    ensures IdsOf(a + b) == IdsOf(a) + IdsOf(b)
  {
    if b == [] {
      assert a + b == a;
    } else {
      IdsBoth(a, b[..|b| - 1]);
      assert (a + b)[..|a + b| - 1] == a + b[..|b| - 1];
    }
  }

  lemma {:induction false} ResultIdsBoth(a: seq<Result>, b: seq<Result>)
    ensures ResultIds(a + b) == ResultIds(a) + ResultIds(b)
  {
    if b == [] {
      assert a + b == a;
    } else {
      ResultIdsBoth(a, b[..|b| - 1]);
      assert (a + b)[..|a + b| - 1] == a + b[..|b| - 1];
    }
  }

  lemma {:induction false} AnswersBoth(a: seq<Decision>, b: seq<Decision>)
    ensures Answers(a + b) == Answers(a) + Answers(b)
  {
    if b == [] {
      assert a + b == a;
    } else {
      AnswersBoth(a, b[..|b| - 1]);
      assert (a + b)[..|a + b| - 1] == a + b[..|b| - 1];
    }
  }

  /** Answering some tasks and keeping the others accounts for all of them. */
  predicate Accounted(tasks: seq<Request>, ds: seq<Decision>, rest: seq<Request>) {
    multiset(ResultIds(Answers(ds))) + multiset(IdsOf(rest)) == multiset(IdsOf(tasks))
  }

  lemma AccountedSelf(tasks: seq<Request>)
    ensures Accounted(tasks, [], tasks)
  {
  }

  lemma Accounted2(tasks: seq<Request>, ds: seq<Decision>, rest: seq<Request>, more: seq<Decision>, last: seq<Request>)
    requires Accounted(tasks, ds, rest) && Accounted(rest, more, last)
    ensures Accounted(tasks, ds + more, last)
  {
    AnswersBoth(ds, more);
    ResultIdsBoth(Answers(ds), Answers(more));
    var a, b := multiset(ResultIds(Answers(ds))), multiset(ResultIds(Answers(more)));
    assert multiset(ResultIds(Answers(ds)) + ResultIds(Answers(more))) == a + b;
    assert (a + b) + multiset(IdsOf(last)) == a + (b + multiset(IdsOf(last)));
  }

  /** One pass accounts for its tasks. */
  lemma {:induction false} PassAccounts(tasks: seq<Request>, deadlines: map<Id, Option<Time>>, seen: seq<Time>)
    requires |seen| == |tasks| && forall t | t in tasks :: t.id in deadlines
    ensures Accounted(tasks, Dropped(tasks, deadlines, seen), Kept(tasks, deadlines, seen))
  {
    hide Accounted, Past;
    AccountedSelf([]);
    if tasks != [] {
      var n := |tasks| - 1;
      var t, ds, kept := tasks[n], Dropped(tasks[..n], deadlines, seen[..n]), Kept(tasks[..n], deadlines, seen[..n]);
      PassAccounts(tasks[..n], deadlines, seen[..n]);
      assert ds + [] == ds && kept + [] == kept;
      if Past(deadlines[t.id], seen[n]) {
        OneAnswered(tasks[..n], ds, kept, t, (Result(t.id, Expired), seen[n]));
      } else {
        OneKept(tasks[..n], ds, kept, t);
      }
      assert tasks == tasks[..n] + [t];
    }
  }

  lemma OneAnswered(tasks: seq<Request>, ds: seq<Decision>, rest: seq<Request>, t: Request, d: Decision)
    requires Accounted(tasks, ds, rest) && d.0.id == t.id
    ensures Accounted(tasks + [t], ds + [d], rest)
  {
    AnswersBoth(ds, [d]);
    ResultIdsBoth(Answers(ds), Answers([d]));
    IdsBoth(tasks, [t]);
    assert IdsOf([t]) == [t.id] && ResultIds(Answers([d])) == [t.id];
    var a, b, x := multiset(ResultIds(Answers(ds))), multiset(IdsOf(rest)), multiset{t.id};
    assert multiset(ResultIds(Answers(ds)) + [t.id]) == a + x;
    assert multiset(IdsOf(tasks) + [t.id]) == multiset(IdsOf(tasks)) + x;
    assert (a + x) + b == (a + b) + x;
  }

  lemma OneKept(tasks: seq<Request>, ds: seq<Decision>, rest: seq<Request>, t: Request)
    requires Accounted(tasks, ds, rest)
    ensures Accounted(tasks + [t], ds, rest + [t])
  {
    IdsBoth(tasks, [t]);
    IdsBoth(rest, [t]);
    assert IdsOf([t]) == [t.id];
    var a, b, x := multiset(ResultIds(Answers(ds))), multiset(IdsOf(rest)), multiset{t.id};
    assert multiset(IdsOf(rest) + [t.id]) == b + x;
    assert multiset(IdsOf(tasks) + [t.id]) == multiset(IdsOf(tasks)) + x;
    assert a + (b + x) == (a + b) + x;
  }

  /** A reading made after the first n. */
  predicate Since(readings: seq<Time>, n: nat, t: Time) {
    exists i | n <= i < |readings| :: readings[i] == t
  }

  lemma SinceLast(readings: seq<Time>, n: nat, t: Time)
    requires n <= |readings|
    ensures Since(readings + [t], n, t)
  {
    assert (readings + [t])[|readings|] == t;
  }

  lemma SinceGrows(readings: seq<Time>, later: seq<Time>, n: nat, t: Time)
    requires readings <= later && Since(readings, n, t)
    ensures Since(later, n, t)
  {
    var i :| n <= i < |readings| && readings[i] == t;
    assert later[i] == t;
  }

  lemma PassStep(tasks: seq<Request>, i: nat, deadlines: map<Id, Option<Time>>, seen: seq<Time>, now: Time)
    requires i < |tasks| && |seen| == i && forall t | t in tasks :: t.id in deadlines
    ensures
      var t := tasks[i];
      && Dropped(tasks[..i + 1], deadlines, seen + [now])
         == Dropped(tasks[..i], deadlines, seen)
             + (if Past(deadlines[t.id], now) then [(Result(t.id, Expired), now)] else [])
      && Kept(tasks[..i + 1], deadlines, seen + [now])
         == Kept(tasks[..i], deadlines, seen) + (if Past(deadlines[t.id], now) then [] else [t])
      && Finals(tasks[..i + 1], deadlines, seen + [now])
         == Finals(tasks[..i], deadlines, seen) + [(Result(t.id, Computed(t, deadlines[t.id], now)), now)]
  {
    hide Past, Computed;
    assert tasks[..i + 1][..i] == tasks[..i] && (seen + [now])[..i] == seen;
  }

  lemma AnswersOne(ds: seq<Decision>, d: Decision)
    ensures Answers(ds + [d]) == Answers(ds) + [d.0] && ds + [] == ds
  {
    assert (ds + [d])[..|ds|] == ds;
  }

  /** What a pass answers is an expiry seen past its deadline; what it keeps was seen before its deadline. */
  lemma {:induction false} PassMembers(tasks: seq<Request>, deadlines: map<Id, Option<Time>>, seen: seq<Time>)
    requires |seen| == |tasks| && forall t | t in tasks :: t.id in deadlines
    ensures forall d | d in Dropped(tasks, deadlines, seen) ::
              d.1 in seen && d.0.outcome == Expired && d.0.id in deadlines && Past(deadlines[d.0.id], d.1)
    ensures forall t | t in Kept(tasks, deadlines, seen) :: t in tasks
    ensures |Dropped(tasks, deadlines, seen)| + |Kept(tasks, deadlines, seen)| == |tasks|
  {
    hide Past;
    if tasks != [] {
      var n := |tasks| - 1;
      PassMembers(tasks[..n], deadlines, seen[..n]);
      assert forall t | t in seen[..n] :: t in seen;
    }
  }

  /** The tasks kept by a pass with one reading were not past their deadline at it. */
  lemma {:induction false} KeptAt(tasks: seq<Request>, deadlines: map<Id, Option<Time>>, seen: seq<Time>, now: Time)
    requires |seen| == |tasks| && (forall t | t in tasks :: t.id in deadlines) && forall t | t in seen :: t == now
    ensures forall t | t in Kept(tasks, deadlines, seen) :: t in tasks && !Past(deadlines[t.id], now)
  {
    if tasks != [] {
      var earlier := seen[..|tasks| - 1];
      forall t | t in earlier ensures t == now {
        assert t in seen;
      }
      KeptAt(tasks[..|tasks| - 1], deadlines, earlier, now);
      assert seen[|tasks| - 1] in seen;
    }
  }

  /** The last pass over the tasks that are still active. */
  function Finals(tasks: seq<Request>, deadlines: map<Id, Option<Time>>, seen: seq<Time>): seq<Decision>
    requires |seen| == |tasks| && forall t | t in tasks :: t.id in deadlines
  {
    if tasks == [] then [] else
    var n := |tasks| - 1;
    Finals(tasks[..n], deadlines, seen[..n])
        + [(Result(tasks[n].id, Computed(tasks[n], deadlines[tasks[n].id], seen[n])), seen[n])]
  }

  /** A final decision follows from the task it answers and the reading it was made on. */
  predicate FinalOf(d: Decision, t: Request, deadlines: map<Id, Option<Time>>) {
    t.id in deadlines && d.0 == Result(t.id, Computed(t, deadlines[t.id], d.1))
  }

  lemma {:induction false} FinalMembers(tasks: seq<Request>, deadlines: map<Id, Option<Time>>, seen: seq<Time>)
    requires |seen| == |tasks| && forall t | t in tasks :: t.id in deadlines
    ensures forall d | d in Finals(tasks, deadlines, seen) ::
              d.1 in seen && exists t | t in tasks :: FinalOf(d, t, deadlines)
    ensures Accounted(tasks, Finals(tasks, deadlines, seen), [])
  {
    hide Accounted, Computed;
    AccountedSelf([]);
    if tasks != [] {
      var n := |tasks| - 1;
      var t, ds := tasks[n], Finals(tasks[..n], deadlines, seen[..n]);
      FinalMembers(tasks[..n], deadlines, seen[..n]);
      var d := (Result(t.id, Computed(t, deadlines[t.id], seen[n])), seen[n]);
      OneAnswered(tasks[..n], ds, [], t, d);
      assert tasks == tasks[..n] + [t];
      forall e | e in ds + [d] ensures e.1 in seen && exists u | u in tasks :: FinalOf(e, u, deadlines) {
        if e in ds {
          var u :| u in tasks[..n] && FinalOf(e, u, deadlines);
          assert u in tasks;
        } else {
          assert FinalOf(d, t, deadlines);
        }
      }
    }
  }

  // ---------------------------------------------------------------------------------------------
  // The servicer
  // ---------------------------------------------------------------------------------------------

  class WorkerServicer {
    var injects: bool          // _failure_rate > 0
    var latency: Time

    constructor ()
      ensures !injects && latency == 60
    {
      injects, latency := false, 60;
    }

    method UpdateConfig(injects: bool, latency: Time)
      modifies this
      ensures this.injects == injects && this.latency == latency
    {
      this.injects, this.latency := injects, latency;
    }

    method Deadlines(requests: seq<Request>, received: Time) returns (deadlines: map<Id, Option<Time>>)
      ensures DeadlinesOf(requests, received, deadlines) && forall t | t in requests :: t.id in deadlines
    {
      deadlines := map[];
      for i := 0 to |requests|
        invariant deadlines.Keys == set r | r in requests[..i] :: r.id
        invariant forall id | id in deadlines :: deadlines[id] == DeadlineOf(requests[..i], id, received)
      {
        var r := requests[i];
        assert requests[..i + 1][..i] == requests[..i];
        assert requests[..i + 1] == requests[..i] + [r];
        deadlines := deadlines[r.id := match r.remaining case None => None case Some(d) => Some(received + d)];
      }
      assert requests[..|requests|] == requests;
    }

    /** The first pass: the clock is read for every task that has a deadline. */
    method FirstPass(tasks: seq<Request>, deadlines: map<Id, Option<Time>>, received: Time, clock: Clock,
          ghost since: nat)
      returns (results: seq<Result>, rest: seq<Request>, ghost seen: seq<Time>)
      requires clock.Valid() && since <= |clock.readings| && Since(clock.readings, since, received)
                && received == clock.now
      requires forall t | t in tasks :: t.id in deadlines
      modifies clock
      ensures clock.Valid() && old(clock.readings) <= clock.readings && old(clock.now) <= clock.now && |seen| == |tasks|
      ensures forall t | t in seen :: received <= t && Since(clock.readings, since, t)
      ensures results == Answers(Dropped(tasks, deadlines, seen)) && rest == Kept(tasks, deadlines, seen)
    {
      hide Past, Since, Clock.Valid;
      results, rest, seen := [], [], [];
      for i := 0 to |tasks|
        invariant clock.Valid() && old(clock.readings) <= clock.readings && received <= clock.now && |seen| == i
        invariant forall t | t in seen :: received <= t && Since(clock.readings, since, t)
        invariant results == Answers(Dropped(tasks[..i], deadlines, seen)) && rest == Kept(tasks[..i], deadlines, seen)
      {
        var t := tasks[i];
        var now := received;
        if deadlines[t.id].Some? {
          now := ReadFor(clock, seen, received, since);
        } else {
          SinceGrows(old(clock.readings), clock.readings, since, received);
        }
        PassStep(tasks, i, deadlines, seen, now);
        AnswersOne(Dropped(tasks[..i], deadlines, seen), (Result(t.id, Expired), now));
        if Past(deadlines[t.id], now) {
          results := results + [Result(t.id, Expired)];
        } else {
          rest := rest + [t];
        }
        seen := seen + [now];
      }
      assert tasks[..|tasks|] == tasks;
    }

    /** One more reading of this call; the earlier ones stay readings of this call. */
    method ReadFor(clock: Clock, ghost seen: seq<Time>, ghost low: Time, ghost since: nat) returns (now: Time)
      requires clock.Valid() && since <= |clock.readings| && low <= clock.now
      requires forall t | t in seen :: low <= t && Since(clock.readings, since, t)
      modifies clock
      ensures clock.Valid() && clock.readings == old(clock.readings) + [now] && now == clock.now
                && old(clock.now) <= now
      ensures forall t | t in seen + [now] :: low <= t && Since(clock.readings, since, t)
    {
      now := clock.Read();
      SinceLast(old(clock.readings), since, now);
      forall t | t in seen ensures Since(clock.readings, since, t) {
        SinceGrows(old(clock.readings), clock.readings, since, t);
      }
    }

    /** One pass of the polling loop, on one reading. */
    method Sweep(tasks: seq<Request>, deadlines: map<Id, Option<Time>>, now: Time)
      returns (results: seq<Result>, rest: seq<Request>, ghost seen: seq<Time>)
      requires forall t | t in tasks :: t.id in deadlines
      ensures |seen| == |tasks| && forall t | t in seen :: t == now
      ensures results == Answers(Dropped(tasks, deadlines, seen)) && rest == Kept(tasks, deadlines, seen)
    {
      hide Past;
      results, rest, seen := [], [], [];
      for i := 0 to |tasks|
        invariant |seen| == i && forall t | t in seen :: t == now
        invariant results == Answers(Dropped(tasks[..i], deadlines, seen)) && rest == Kept(tasks[..i], deadlines, seen)
      {
        var t := tasks[i];
        PassStep(tasks, i, deadlines, seen, now);
        AnswersOne(Dropped(tasks[..i], deadlines, seen), (Result(t.id, Expired), now));
        if Past(deadlines[t.id], now) {
          results := results + [Result(t.id, Expired)];
        } else {
          rest := rest + [t];
        }
        seen := seen + [now];
      }
      assert tasks[..|tasks|] == tasks;
    }

    /** The last pass: the clock is read again for every task that has a deadline. */
    method Complete(tasks: seq<Request>, deadlines: map<Id, Option<Time>>, ended: Time, clock: Clock, ghost since: nat)
      returns (results: seq<Result>, ghost seen: seq<Time>)
      requires clock.Valid() && since <= |clock.readings| && Since(clock.readings, since, ended) && ended <= clock.now
      requires forall t | t in tasks :: t.id in deadlines
      modifies clock
      ensures clock.Valid() && old(clock.readings) <= clock.readings && |seen| == |tasks|
      ensures forall t | t in seen :: ended <= t && Since(clock.readings, since, t)
      ensures results == Answers(Finals(tasks, deadlines, seen))
    {
      hide Past, Since, Computed;
      results, seen := [], [];
      for i := 0 to |tasks|
        invariant clock.Valid() && old(clock.readings) <= clock.readings && ended <= clock.now && |seen| == i
        invariant forall t | t in seen :: ended <= t && Since(clock.readings, since, t)
        invariant results == Answers(Finals(tasks[..i], deadlines, seen))
      {
        var t := tasks[i];
        var now := ended;
        if deadlines[t.id].Some? {
          now := ReadFor(clock, seen, ended, since);
        } else {
          SinceGrows(old(clock.readings), clock.readings, since, ended);
        }
        var outcome := Computed(t, deadlines[t.id], now);
        PassStep(tasks, i, deadlines, seen, now);
        AnswersOne(Finals(tasks[..i], deadlines, seen), (Result(t.id, outcome), now));
        results := results + [Result(t.id, outcome)];
        seen := seen + [now];
      }
      assert tasks[..|tasks|] == tasks;
    }

    /** The polling loop: answered and active tasks always account for those it began with. It ends when the
        context is found inactive, when nothing is active, or when the clock has reached the batch's end;
        and every task still active then was before its deadline at the last pass. */
    method Poll(tasks: seq<Request>, deadlines: map<Id, Option<Time>>, finish: Time, clock: Clock, context: Context,
                ghost since: nat)
      returns (results: seq<Result>, ghost ds: seq<Decision>, active: seq<Request>, cancelled: bool, ended: Time,
            ghost last: Time)
      requires clock.Valid() && since <= |clock.readings| && forall t | t in tasks :: t.id in deadlines
      modifies clock, context
      ensures clock.Valid() && old(clock.readings) <= clock.readings && old(clock.now) <= clock.now
      ensures results == Answers(ds) && Accounted(tasks, ds, active) && forall t | t in active :: t in tasks
      ensures Swept(ds, deadlines, clock.readings, since, old(clock.now))
      ensures old(context.answers) <= context.answers && |context.answers| > |old(context.answers)|
      ensures cancelled <==> false in context.answers[|old(context.answers)|..]
      ensures !cancelled && active != [] ==>
                && finish <= ended <= clock.now && old(clock.now) <= ended && Since(clock.readings, since, ended)
                && Since(clock.readings, since, last) && forall t | t in active :: !Past(deadlines[t.id], last)
    {
      hide Past, Since, Clock.Valid, Answers, Accounted, Swept;
      results, ds, active, ended, last := [], [], tasks, finish, finish;
      cancelled := false;
      PollBegins(tasks, deadlines, clock.readings, since, clock.now);
      while true
        invariant clock.Valid() && old(clock.readings) <= clock.readings && old(clock.now) <= clock.now
        invariant results == Answers(ds) && Accounted(tasks, ds, active) && forall t | t in active :: t in tasks
        invariant Swept(ds, deadlines, clock.readings, since, old(clock.now))
        invariant old(context.answers) <= context.answers
        invariant false !in context.answers[|old(context.answers)|..]
        decreases finish - clock.now
      {
        var up := context.IsActive();
        cancelled := !up;
        if cancelled {
          ghost var asked := context.answers[|old(context.answers)|..];
          assert asked[|asked| - 1] == false;
          return;
        }
        results, ds, active, last := Round(tasks, active, deadlines, clock, since, results, ds, old(clock.now));
        if active == [] {
          return;
        }
        ended := ReadLater(clock, deadlines, since, ds, old(clock.now), last);
        var wait := finish - ended;
        if wait <= 0 {
          return;
        }
        clock.Sleep(if wait < 10 then wait else 10);
      }
    }

    /** One round: a reading, and a pass over the active tasks on it. */
    method Round(ghost tasks: seq<Request>, active: seq<Request>, deadlines: map<Id, Option<Time>>, clock: Clock,
          ghost since: nat,
                 results: seq<Result>, ghost ds: seq<Decision>, ghost low: Time)
      returns (all: seq<Result>, ghost allDs: seq<Decision>, rest: seq<Request>, ghost last: Time)
      requires clock.Valid() && since <= |clock.readings| && low <= clock.now
                && forall t | t in active :: t.id in deadlines
      requires results == Answers(ds) && Accounted(tasks, ds, active)
                && Swept(ds, deadlines, clock.readings, since, low)
      modifies clock
      ensures clock.Valid() && old(clock.readings) <= clock.readings && old(clock.now) <= clock.now
      ensures all == Answers(allDs) && Accounted(tasks, allDs, rest)
                && Swept(allDs, deadlines, clock.readings, since, low)
      ensures forall t | t in rest :: t in active && !Past(deadlines[t.id], last)
      ensures Since(clock.readings, since, last)
    {
      hide Past, Since, Clock.Valid, Answers, Accounted, Swept;
      var now := clock.Read();
      last := now;
      SinceLast(old(clock.readings), since, now);
      var more;
      ghost var seen;
      more, rest, seen := Sweep(active, deadlines, now);
      ghost var swept := Dropped(active, deadlines, seen);
      PassAccounts(active, deadlines, seen);
      KeptAt(active, deadlines, seen, now);
      Accounted2(tasks, ds, active, swept, rest);
      SweptMore(active, ds, deadlines, seen, old(clock.readings), clock.readings, since, low, now);
      AnswersBoth(ds, swept);
      all, allDs := results + more, ds + swept;
    }

    /** The reading that decides whether the batch has ended. */
    method ReadLater(clock: Clock, ghost deadlines: map<Id, Option<Time>>, ghost since: nat, ghost ds: seq<Decision>,
                     ghost low: Time, ghost last: Time) returns (now: Time)
      requires clock.Valid() && since <= |clock.readings| && Swept(ds, deadlines, clock.readings, since, low)
      requires Since(clock.readings, since, last)
      modifies clock
      ensures clock.Valid() && old(clock.readings) <= clock.readings && old(clock.now) <= now == clock.now
      ensures Since(clock.readings, since, now) && Since(clock.readings, since, last)
      ensures Swept(ds, deadlines, clock.readings, since, low)
    {
      hide Past, Since, Clock.Valid;
      now := clock.Read();
      SinceLast(old(clock.readings), since, now);
      SinceGrows(old(clock.readings), clock.readings, since, last);
      SweptLater(ds, deadlines, old(clock.readings), clock.readings, since, low);
    }

    /** The whole RPC. Each requested task gets exactly one result; at most one if the context is found
        inactive, which is the only way the call is cut short. Every decision is made on a reading of this
        call: an expiry on one past the task's deadline, a prediction on one before the deadline and not
        before the end of the batch. */
    method Simulate(requests: seq<Request>, clock: Clock, context: Context)
      returns (results: seq<Result>, cancelled: bool, ghost plan: Plan, ghost ds: seq<Decision>)
      requires clock.Valid()
      modifies clock, context
      ensures clock.Valid() && old(clock.readings) <= clock.readings && results == Answers(ds)
      ensures Timely(requests, plan, ds, clock.readings, |old(clock.readings)|) && old(clock.now) <= plan.received
      ensures Planned(plan, requests, ds, latency, clock.readings, |old(clock.readings)|)
      ensures forall d | d in ds :: InTime(requests, plan.received, d)
      ensures forall d | d in ds && (d.0.outcome.Prediction? || d.0.outcome == Unusable) ::
                plan.began + latency + plan.live * (latency / 5) <= d.1
      ensures injects || forall d | d in ds :: d.0.outcome != Injected
      ensures !cancelled ==> multiset(ResultIds(results)) == multiset(IdsOf(requests))
      ensures multiset(ResultIds(results)) <= multiset(IdsOf(requests))
      ensures old(context.answers) <= context.answers
      ensures cancelled <==> false in context.answers[|old(context.answers)|..]
    {
      hide *;
      results, cancelled, plan, ds := Infer(requests, clock, context);
      TimelyMeans(requests, plan, ds, latency, clock.readings, old(|clock.readings|));
    }

    method Infer(requests: seq<Request>, clock: Clock, context: Context)
      returns (results: seq<Result>, cancelled: bool, ghost plan: Plan, ghost ds: seq<Decision>)
      requires clock.Valid()
      modifies clock, context
      ensures clock.Valid() && old(clock.readings) <= clock.readings && results == Answers(ds)
      ensures Timely(requests, plan, ds, clock.readings, |old(clock.readings)|) && old(clock.now) <= plan.received
      ensures Planned(plan, requests, ds, latency, clock.readings, |old(clock.readings)|)
      ensures injects || forall d | d in ds :: d.0.outcome != Injected
      ensures !cancelled ==> multiset(ResultIds(results)) == multiset(IdsOf(requests))
      ensures multiset(ResultIds(results)) <= multiset(IdsOf(requests))
      ensures old(context.answers) <= context.answers
      ensures cancelled <==> false in context.answers[|old(context.answers)|..]
    {
      hide *;
      ghost var since := |clock.readings|;
      cancelled := false;
      var received := clock.Read();
      SinceLast(old(clock.readings), since, received);
      var deadlines := Deadlines(requests, received);
      var active;
      ghost var seen;
      results, active, seen := FirstPass(requests, deadlines, received, clock, since);
      ds := Dropped(requests, deadlines, seen);
      plan := Plan(received, received, |active|);
      FirstFacts(requests, deadlines, seen, plan, old(clock.readings) + [received], clock.readings, since, latency);
      if active == [] {
        NoneLeft(requests, results, ds);
        return;
      }
      var struck: bool := *;
      if injects && struck {
        ghost var more;
        results, more := Inject(requests, active, results, ds, plan, deadlines, clock.readings, since, latency);
        ds := ds + more;
        return;
      }
      ghost var more;
      results, cancelled, plan, more := Work(requests, active, deadlines, plan, results, ds, clock, context, since);
      ds := ds + more;
    }

    /** Fail every active task of a batch for which a failure is injected. */
    method Inject(requests: seq<Request>, active: seq<Request>, results: seq<Result>, ghost ds: seq<Decision>,
          ghost plan: Plan,
                  ghost deadlines: map<Id, Option<Time>>, ghost readings: seq<Time>, ghost since: nat,
                      ghost latency: Time)
      returns (all: seq<Result>, ghost more: seq<Decision>)
      requires results == Answers(ds) && Accounted(requests, ds, active) && Since(readings, since, plan.received)
      requires Timely(requests, plan, ds, readings, since) && Planned(plan, requests, ds, latency, readings, since)
      ensures all == Answers(ds + more) && (forall d | d in more :: d.0.outcome == Injected)
      ensures Timely(requests, plan, ds + more, readings, since)
                && Planned(plan, requests, ds + more, latency, readings, since)
      ensures multiset(ResultIds(all)) == multiset(IdsOf(requests))
    {
      hide Accounted, Timely, Planned, Since, Answers;
      all, more := results, [];
      AnswersOne(ds, (Result(0, Injected), 0));
      AccountedSelf([]);
      for i := 0 to |active|
        invariant all == Answers(ds + more) && Accounted(active[..i], more, [])
        invariant forall d | d in more :: d.0.outcome == Injected && d.1 == plan.received
      {
        ghost var d := (Result(active[i].id, Injected), plan.received);
        assert active[..i + 1] == active[..i] + [active[i]];
        assert ds + (more + [d]) == (ds + more) + [d];
        OneAnswered(active[..i], more, [], active[i], d);
        AnswersOne(ds + more, d);
        all, more := all + [Result(active[i].id, Injected)], more + [d];
      }
      assert active[..|active|] == active;
      Accounted2(requests, ds, active, more, []);
      NoneLeft(requests, all, ds + more);
      InjectedTimely(requests, plan, ds, more, latency, readings, since);
    }

    /** The batch itself: its end is set, the polling loop runs, and what is active at the end is completed. */
    method Work(requests: seq<Request>, active: seq<Request>, deadlines: map<Id, Option<Time>>, ghost first: Plan,
                results: seq<Result>, ghost ds: seq<Decision>, clock: Clock, context: Context, ghost since: nat)
      returns (all: seq<Result>, cancelled: bool, ghost plan: Plan, ghost more: seq<Decision>)
      requires clock.Valid() && since <= |clock.readings| && first.received <= clock.now
                && Since(clock.readings, since, first.received)
      requires (forall t | t in active :: t in requests && t.id in deadlines)
                && DeadlinesOf(requests, first.received, deadlines)
      requires results == Answers(ds) && Accounted(requests, ds, active) && |ds| + |active| == |requests|
      requires Swept(ds, deadlines, clock.readings, since, first.received)
      modifies clock, context
      ensures clock.Valid() && old(clock.readings) <= clock.readings && all == Answers(ds + more)
                && plan.received == first.received
      ensures Timely(requests, plan, ds + more, clock.readings, since)
      ensures Planned(plan, requests, ds + more, latency, clock.readings, since) && plan.live == |active|
      ensures forall d | d in more :: d.0.outcome != Injected
      ensures !cancelled ==> multiset(ResultIds(all)) == multiset(IdsOf(requests))
      ensures multiset(ResultIds(all)) <= multiset(IdsOf(requests))
      ensures old(context.answers) <= context.answers
      ensures cancelled <==> false in context.answers[|old(context.answers)|..]
    {
      hide *;
      var began := clock.Read();
      SinceLast(old(clock.readings), since, began);
      plan := Plan(first.received, began, |active|);
      var finish := began + Duration(latency, |active|);
      assert finish == plan.Finish(latency) by { FinishIs(plan, latency); }
      ghost var readings := clock.readings;
      var swept, rest, ended;
      ghost var last;
      swept, more, rest, cancelled, ended, last := Poll(active, deadlines, finish, clock, context, since);
      Accounted2(requests, ds, active, more, rest);
      AnswersBoth(ds, more);
      all := results + swept;
      Worked(requests, deadlines, plan, ds, more, old(clock.readings), readings, clock.readings, since, latency);
      if cancelled || rest == [] {
        AtMost(requests, all, ds + more, rest);
        return;
      }
      var finals;
      ghost var seen;
      ghost var polled := clock.readings;
      finals, seen := Complete(rest, deadlines, ended, clock, since);
      ghost var done := Finals(rest, deadlines, seen);
      FinalMembers(rest, deadlines, seen);
      Accounted2(requests, ds + more, rest, done, []);
      AnswersBoth(ds + more, done);
      assert (ds + more) + done == ds + (more + done);
      Completed(requests, rest, deadlines, plan, ds + more, seen, polled, clock.readings, since, latency);
      FinalsAreNotInjected(rest, deadlines, seen);
      all, more := all + finals, more + done;
      NoneLeft(requests, all, ds + more);
    }

    /** A real backend is asked task by task, with the task's id and with the deadline its budget gives it; a
        payload that cannot be read is refused without asking it. Each task gets one result, in order: the
        backend's answer to its own question, or the refusal. */
    method ProcessBackend(requests: seq<Request>, backend: Backend, received: Time) returns (results: seq<Result>)
      modifies backend
      ensures old(backend.calls) <= backend.calls
      ensures var calls := backend.calls[|old(backend.calls)|..];
              && |calls| == |Readable(requests)| && |results| == |requests|
              && (forall k | 0 <= k < |calls| ::
                    && calls[k].id == Readable(requests)[k].id
                    && calls[k].deadline == (match Readable(requests)[k].remaining
                                             case None => None
                                             case Some(left) => Some(received + left)))
              && forall i | 0 <= i < |requests| ::
                   && results[i].id == requests[i].id
                   && if requests[i].input.None? then results[i].outcome == Failure("invalid_spec")
                      else
                        && |Readable(requests[..i])| < |calls|
                        && results[i].outcome == calls[|Readable(requests[..i])|].outcome
    {
      results := [];
      ghost var calls: seq<Call> := [];
      for i := 0 to |requests|
        invariant backend.calls == old(backend.calls) + calls
        invariant AskedAll(requests[..i], received, calls) && AnsweredAll(requests[..i], calls, results)
      {
        var t := requests[i];
        var outcome := Failure("invalid_spec");
        ghost var before := calls;
        if t.input.Some? {
          var deadline := match t.remaining case None => None case Some(d) => Some(received + d);
          outcome := backend.Process(t.id, deadline);
          calls := calls + [Called(t.id, deadline, outcome)];
        }
        AskedOn(requests[..i], received, before, results, t, outcome);
        assert requests[..i + 1] == requests[..i] + [t];
        results := results + [Result(t.id, outcome)];
      }
      assert requests[..|requests|] == requests && backend.calls[|old(backend.calls)|..] == calls;
    }

    /** ProcessBatch: a closed gate refuses every task; otherwise the handler is counted while it runs. */
    method ProcessBatch(requests: seq<Request>, gate: DeploymentGate, ghost p: Proc, readable: bool, clock: Clock,
          context: Context)
      returns (results: seq<Result>, admitted: bool)
      requires Inv(gate.Abstract()) && p !in gate.inside && clock.Valid()
      modifies gate, clock, context
      ensures Inv(gate.Abstract()) && gate.inside == old(gate.inside) && gate.active == old(gate.active)
      ensures admitted <==> old(gate.marker) == None
      ensures !admitted ==> ResultIds(results) == IdsOf(requests) && forall r | r in results :: r.outcome == Updating
      ensures old(context.answers) <= context.answers
      ensures admitted && false !in context.answers[|old(context.answers)|..] ==>
                multiset(ResultIds(results)) == multiset(IdsOf(requests))
      ensures multiset(ResultIds(results)) <= multiset(IdsOf(requests))
    {
      admitted := gate.Enter(p, readable);
      if !admitted {
        results := Refuse(requests);
        return;
      }
      ghost var plan, ds;
      var cancelled;
      results, cancelled, plan, ds := Simulate(requests, clock, context);
      gate.Leave(p);
    }

    method Refuse(requests: seq<Request>) returns (results: seq<Result>)
      ensures ResultIds(results) == IdsOf(requests) && forall r | r in results :: r.outcome == Updating
    {
      results := [];
      for i := 0 to |requests|
        invariant ResultIds(results) == IdsOf(requests[..i]) && forall r | r in results :: r.outcome == Updating
      {
        assert requests[..i + 1][..i] == requests[..i];
        assert (results + [Result(requests[i].id, Updating)])[..|results|] == results;
        results := results + [Result(requests[i].id, Updating)];
      }
      assert requests[..|requests|] == requests;
    }
  }

  // ---------------------------------------------------------------------------------------------
  // The real backend
  // ---------------------------------------------------------------------------------------------

  datatype Call = Called(id: Id, deadline: Option<Time>, outcome: Outcome)

  class Backend {
    ghost var calls: seq<Call>      // what was asked and answered, in order

    constructor ()
      ensures calls == []
    {
      calls := [];
    }

    /** A result, a worker error with its code, or any other exception. */
    method Process(id: Id, deadline: Option<Time>) returns (outcome: Outcome)
      modifies this
      ensures outcome == Done || outcome.Failure?
      ensures calls == old(calls) + [Called(id, deadline, outcome)]
    {
      var ok: bool, code: string := *, *;
      outcome := if ok then Done else Failure(code);
      calls := calls + [Called(id, deadline, outcome)];
    }
  }

  /** The tasks whose payload can be read. */
  function Readable(requests: seq<Request>): seq<Request> {
    if requests == [] then [] else
    Readable(requests[..|requests| - 1])
      + if requests[|requests| - 1].input.Some? then [requests[|requests| - 1]] else []
  }

  lemma ReadableOn(requests: seq<Request>, t: Request)
    ensures Readable(requests + [t]) == Readable(requests) + if t.input.Some? then [t] else []
  {
    assert (requests + [t])[..|requests|] == requests;
  }

  predicate AskedAll(requests: seq<Request>, received: Time, calls: seq<Call>) {
    && |calls| == |Readable(requests)|
    && forall k | 0 <= k < |calls| ::
         && calls[k].id == Readable(requests)[k].id
         && calls[k].deadline == (match Readable(requests)[k].remaining
                                  case None => None
                                  case Some(left) => Some(received + left))
  }

  predicate AnsweredAll(requests: seq<Request>, calls: seq<Call>, results: seq<Result>) {
    && |results| == |requests|
    && forall i | 0 <= i < |requests| ::
         && results[i].id == requests[i].id
         && if requests[i].input.None? then results[i].outcome == Failure("invalid_spec")
            else
              && |Readable(requests[..i])| < |calls|
              && results[i].outcome == calls[|Readable(requests[..i])|].outcome
  }

  lemma AskedOn(requests: seq<Request>, received: Time, calls: seq<Call>, results: seq<Result>, t: Request,
                outcome: Outcome)
    requires AskedAll(requests, received, calls) && AnsweredAll(requests, calls, results)
    requires t.input.None? ==> outcome == Failure("invalid_spec")
    ensures
      var deadline := match t.remaining case None => None case Some(left) => Some(received + left);
      var all := if t.input.Some? then calls + [Called(t.id, deadline, outcome)] else calls;
      && AskedAll(requests + [t], received, all)
      && AnsweredAll(requests + [t], all, results + [Result(t.id, outcome)])
  {
    ReadableOn(requests, t);
    assert (requests + [t])[..|requests|] == requests;
    forall i | 0 <= i < |requests| ensures (requests + [t])[..i] == requests[..i] {
    }
  }

  // ---------------------------------------------------------------------------------------------
  // Putting a call together
  // ---------------------------------------------------------------------------------------------

  predicate DeadlinesOf(requests: seq<Request>, received: Time, deadlines: map<Id, Option<Time>>) {
    deadlines.Keys == (set r | r in requests :: r.id)
        && forall id | id in deadlines :: deadlines[id] == DeadlineOf(requests, id, received)
  }

  lemma FirstFacts(requests: seq<Request>, deadlines: map<Id, Option<Time>>, seen: seq<Time>, plan: Plan,
        first: seq<Time>,
                   readings: seq<Time>, since: nat, latency: Time)
    requires |seen| == |requests| && DeadlinesOf(requests, plan.received, deadlines) && first <= readings
    requires forall t | t in seen :: plan.received <= t && Since(readings, since, t)
    requires Since(first, since, plan.received) && plan.began == plan.received
    requires forall t | t in requests :: t.id in deadlines
    requires plan.live == |Kept(requests, deadlines, seen)|
    ensures
      var ds, active := Dropped(requests, deadlines, seen), Kept(requests, deadlines, seen);
      && Accounted(requests, ds, active) && |ds| + |active| == |requests|
      && (forall t | t in active :: t in requests && t.id in deadlines)
      && Swept(ds, deadlines, readings, since, plan.received) && Since(readings, since, plan.received)
      && Timely(requests, plan, ds, readings, since) && Planned(plan, requests, ds, latency, readings, since)
      && forall d | d in ds :: d.0.outcome != Injected
  {
    PassAccounts(requests, deadlines, seen);
    PassMembers(requests, deadlines, seen);
    SinceGrows(first, readings, since, plan.received);
    hide Past, Since, Accounted, DeadlineOf, Dropped, Kept;
    var ds := Dropped(requests, deadlines, seen);
    assert Swept(ds, deadlines, readings, since, plan.received);
    SweptTimely(requests, deadlines, plan, ds, readings, since);
    FirstPlanned(requests, plan, ds, latency, readings, since);
  }

  /** A plan whose first pass answered these tasks and has not computed anything. */
  lemma FirstPlanned(requests: seq<Request>, plan: Plan, ds: seq<Decision>, latency: Time, readings: seq<Time>,
                     since: nat)
    requires forall d | d in ds :: d.0.outcome == Expired
    requires |ds| + plan.live == |requests| && Since(readings, since, plan.received) && plan.began == plan.received
    ensures Planned(plan, requests, ds, latency, readings, since)
  {
    hide Since;
    forall i | 0 <= i < |requests| - plan.live ensures ds[i].0.outcome == Expired {
      assert ds[i] in ds;
    }
  }

  lemma SweptTimely(requests: seq<Request>, deadlines: map<Id, Option<Time>>, plan: Plan, ds: seq<Decision>,
        readings: seq<Time>, since: nat)
    requires Swept(ds, deadlines, readings, since, plan.received) && DeadlinesOf(requests, plan.received, deadlines)
    ensures Timely(requests, plan, ds, readings, since) && forall d | d in ds :: d.0.outcome == Expired
  {
  }

  lemma NoneLeft(requests: seq<Request>, results: seq<Result>, ds: seq<Decision>)
    requires Accounted(requests, ds, []) && results == Answers(ds)
    ensures multiset(ResultIds(results)) == multiset(IdsOf(requests))
  {
    assert IdsOf([]) == [];
  }

  lemma AtMost(requests: seq<Request>, results: seq<Result>, ds: seq<Decision>, rest: seq<Request>)
    requires Accounted(requests, ds, rest) && results == Answers(ds)
    ensures multiset(ResultIds(results)) <= multiset(IdsOf(requests))
    ensures rest == [] ==> multiset(ResultIds(results)) == multiset(IdsOf(requests))
  {
    assert IdsOf([]) == [];
  }

  lemma TimelyBoth(requests: seq<Request>, plan: Plan, a: seq<Decision>, b: seq<Decision>, readings: seq<Time>,
        since: nat)
    requires Timely(requests, plan, a, readings, since) && Timely(requests, plan, b, readings, since)
    ensures Timely(requests, plan, a + b, readings, since)
  {
    hide Past, Since, DeadlineOf, Predicts, Rejects;
  }

  lemma InjectedTimely(requests: seq<Request>, plan: Plan, ds: seq<Decision>, more: seq<Decision>, latency: Time,
        readings: seq<Time>, since: nat)
    requires Timely(requests, plan, ds, readings, since) && Planned(plan, requests, ds, latency, readings, since)
    requires Since(readings, since, plan.received)
              && forall d | d in more :: d.0.outcome == Injected && d.1 == plan.received
    ensures Timely(requests, plan, ds + more, readings, since)
              && Planned(plan, requests, ds + more, latency, readings, since)
  {
    hide Past, Since, DeadlineOf, Predicts, Rejects;
    TimelyBoth(requests, plan, ds, more, readings, since);
  }

  /** The first pass and the polling loop, seen at the end of the loop. */
  lemma Worked(requests: seq<Request>, deadlines: map<Id, Option<Time>>, plan: Plan, ds: seq<Decision>,
        more: seq<Decision>,
               first: seq<Time>, began: seq<Time>, readings: seq<Time>, since: nat, latency: Time)
    requires DeadlinesOf(requests, plan.received, deadlines) && first <= began <= readings
    requires Swept(ds, deadlines, first, since, plan.received) && Swept(more, deadlines, readings, since, plan.began)
    requires plan.received <= plan.began && Since(began, since, plan.began)
    requires plan.live <= |requests| && |ds| == |requests| - plan.live
    ensures Timely(requests, plan, ds + more, readings, since)
              && Planned(plan, requests, ds + more, latency, readings, since)
    ensures forall d | d in more :: d.0.outcome != Injected
  {
    SweptLater(ds, deadlines, first, readings, since, plan.received);
    SinceGrows(began, readings, since, plan.began);
    assert Swept(more, deadlines, readings, since, plan.received);
    SweptTimely(requests, deadlines, plan, ds, readings, since);
    SweptTimely(requests, deadlines, plan, more, readings, since);
    hide Past, Since, DeadlineOf, Predicts, Rejects, Swept, Timely;
    TimelyBoth(requests, plan, ds, more, readings, since);
    forall i | 0 <= i < |requests| - plan.live ensures (ds + more)[i].0.outcome == Expired {
      assert (ds + more)[i] == ds[i] && ds[i] in ds;
    }
    forall d | d in ds + more ensures !Computes(d.0) {
      assert d in ds || d in more;
    }
  }

  /** The last pass adds decisions made at or after the end of the batch. */
  lemma Completed(requests: seq<Request>, rest: seq<Request>, deadlines: map<Id, Option<Time>>, plan: Plan,
        ds: seq<Decision>,
                  seen: seq<Time>, polled: seq<Time>, readings: seq<Time>, since: nat, latency: Time)
    requires DeadlinesOf(requests, plan.received, deadlines) && polled <= readings && |seen| == |rest|
    requires forall t | t in rest :: t in requests && t.id in deadlines
    requires Timely(requests, plan, ds, polled, since) && Planned(plan, requests, ds, latency, polled, since)
    requires forall t | t in seen :: plan.Finish(latency) <= t && plan.received <= t && Since(readings, since, t)
    ensures Timely(requests, plan, ds + Finals(rest, deadlines, seen), readings, since)
    ensures Planned(plan, requests, ds + Finals(rest, deadlines, seen), latency, readings, since)
  {
    var done := Finals(rest, deadlines, seen);
    FinalMembers(rest, deadlines, seen);
    TimelyLater(requests, plan, ds, polled, readings, since);
    SinceGrows(polled, readings, since, plan.began);
    forall d | d in done
      ensures Since(readings, since, d.1) && plan.received <= d.1
      ensures Computes(d.0) ==> !Past(DeadlineOf(requests, d.0.id, plan.received), d.1)
      ensures d.0.outcome.Prediction? ==> Predicts(requests, d.0)
      ensures d.0.outcome == Unusable ==> Rejects(requests, d.0)
      ensures d.0.outcome == Expired ==> Past(DeadlineOf(requests, d.0.id, plan.received), d.1)
      ensures d.0.outcome.Prediction? || d.0.outcome in {Expired, Injected, Unusable}
    {
      var t :| t in rest && FinalOf(d, t, deadlines);
      hide Past, Since;
    }
    hide Past, Since, DeadlineOf, Predicts, Rejects, Finals;
    assert Timely(requests, plan, done, readings, since);
    TimelyBoth(requests, plan, ds, done, readings, since);
  }

  lemma TimelyLater(requests: seq<Request>, plan: Plan, ds: seq<Decision>, polled: seq<Time>, readings: seq<Time>,
        since: nat)
    requires Timely(requests, plan, ds, polled, since) && polled <= readings
    ensures Timely(requests, plan, ds, readings, since)
  {
    hide Past, Since, DeadlineOf, Predicts, Rejects;
    forall d | d in ds ensures Since(readings, since, d.1) {
      SinceGrows(polled, readings, since, d.1);
    }
  }

  lemma FinishIs(plan: Plan, latency: Time)
    ensures plan.Finish(latency) == plan.began + Duration(latency, plan.live)
  {
  }

  lemma FinalsAreNotInjected(rest: seq<Request>, deadlines: map<Id, Option<Time>>, seen: seq<Time>)
    requires |seen| == |rest| && forall t | t in rest :: t.id in deadlines
    ensures forall d | d in Finals(rest, deadlines, seen) :: d.0.outcome != Injected
  {
    FinalMembers(rest, deadlines, seen);
  }

  /** Expiries of this call: each seen past its deadline on one of its readings. */
  predicate Swept(ds: seq<Decision>, deadlines: map<Id, Option<Time>>, readings: seq<Time>, since: nat, low: Time) {
    forall d | d in ds ::
      && d.0.outcome == Expired && d.0.id in deadlines && Past(deadlines[d.0.id], d.1)
      && low <= d.1 && Since(readings, since, d.1)
  }

  lemma PollBegins(tasks: seq<Request>, deadlines: map<Id, Option<Time>>, readings: seq<Time>, since: nat, low: Time)
    ensures Accounted(tasks, [], tasks) && Swept([], deadlines, readings, since, low) && Answers([]) == []
  {
  }

  lemma SweptLater(ds: seq<Decision>, deadlines: map<Id, Option<Time>>, readings: seq<Time>, later: seq<Time>,
        since: nat, low: Time)
    requires Swept(ds, deadlines, readings, since, low) && readings <= later
    ensures Swept(ds, deadlines, later, since, low)
  {
    hide Since, Past;
    forall d | d in ds ensures Since(later, since, d.1) {
      SinceGrows(readings, later, since, d.1);
    }
  }

  lemma SweptMore(tasks: seq<Request>, ds: seq<Decision>, deadlines: map<Id, Option<Time>>, seen: seq<Time>,
        readings: seq<Time>,
                  later: seq<Time>, since: nat, low: Time, now: Time)
    requires Swept(ds, deadlines, readings, since, low) && readings <= later
    requires |seen| == |tasks| && (forall t | t in tasks :: t.id in deadlines) && forall t | t in seen :: t == now
    requires low <= now && Since(later, since, now)
    ensures Swept(ds + Dropped(tasks, deadlines, seen), deadlines, later, since, low)
  {
    SweptLater(ds, deadlines, readings, later, since, low);
    PassMembers(tasks, deadlines, seen);
    hide Since, Past, Dropped;
  }
}
