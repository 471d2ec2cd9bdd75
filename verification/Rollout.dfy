/** The rollout of the gateway and the text worker (deploy/ci/deploy_platform.py). Every call of the
    runtime may raise, before, between or after its effects; a call that raised returns false. */
module Rollouts {
  import opened Wrappers
  import opened DeploymentGates
  import opened RolloutRuns

  class Runtime {
    var containers: map<Service, Container>
    var current: Release
    var pins: map<Service, Image>
    const shared: map<Service, Image>       // the pins as they were read at the start
    var journal: Option<Release>            // transaction.json
    var gateway: Gate
    var worker: Gate
    var backendClosed: bool
    var token: Option<Token>
    var fenced: set<Service>                // marker_names
    ghost var openings: seq<View>             // what was there each time a boundary was opened
    ghost var plan: Plan                      // the run this deployment makes, with the steps so far
    ghost var steps: seq<Event>
    ghost var run: State

    ghost predicate Valid()
      reads this`gateway, this`worker, this`containers
    {
      Inv(gateway) && Inv(worker) && containers.Keys == SERVICES
    }

    function Look(): View
      reads this`containers, this`current, this`pins
    {
      View(containers, current, pins)
    }

    /** The state after the steps so far is the one this object is in. */
    ghost predicate Tracks()
      reads this`run, this`plan, this`steps, this`containers, this`current, this`pins, this`journal
      reads this`backendClosed, this`fenced, this`openings
    {
      run == At(plan, steps) && run.view == Look() && run.journal == journal
      && run.backendClosed == backendClosed && run.fenced == fenced && run.openings == openings
    }

    /** The effects from here on, stop to record, are those of a switch or of a rollback. */
    ghost function Wanted(undo: bool): Release
      reads this`plan
    {
      if undo then plan.before.current else Target(plan)
    }

    ghost function WantedPins(undo: bool): map<Service, Image>
      reads this`plan
    {
      if undo then plan.before.pins else Target(plan).images
    }

    /** The run takes a step: what the statement just did, or an exception. */
    ghost method Log(e: Event)
      requires run == At(plan, steps)
      modifies this`run, this`steps
      ensures run == After(plan, old(run), e) && run == At(plan, steps) && steps == old(steps) + [e]
      ensures old(Tracks()) && e == Raise ==> Tracks()
    {
      hide At, Forward;
      AtStep(plan, steps, e);
      steps := steps + [e];
      run := After(plan, run, e);
    }

    /** The k-th effect of a call that began in s0 has been done. */
    ghost method Advance(s0: State, k: nat)
      requires run == At(plan, steps) && run == Straight(plan, s0, k)
      modifies this`run, this`steps
      ensures run == At(plan, steps) && run == Forward(plan, old(run)) && run == Straight(plan, s0, k + 1)
    {
      Log(Proceed);
    }

    /** A call of n effects that began in s0 ends after k of them: it returns after all, or raises. */
    ghost method Return(s0: State, k: nat, n: nat, ok: bool)
      requires Tracks() && run == Straight(plan, s0, k) && k <= n && (ok ==> k == n)
      modifies this`run, this`steps
      ensures Tracks() && Went(plan, s0, n, ok, run) && run == if ok then old(run) else Thrown(old(run))
      ensures ok ==> steps == old(steps)
    {
      if !ok {
        Log(Raise);
      }
    }

    ghost method Begin(sha: string, image: Image)
      requires Open() && openings == [] && journal == None
      modifies this`plan, this`run, this`steps
      ensures Tracks() && plan == Plan(sha, image, Look()) && run == RolloutRuns.Start(plan)
    {
      plan := Plan(sha, image, Look());
      steps, run := [], RolloutRuns.Start(plan);
    }

    ghost method Fail()
      requires Tracks()
      modifies this`run, this`steps
      ensures Tracks() && run == Thrown(old(run))
    {
      Log(Raise);
    }

    /** Everything before the outer `try` went well. */
    ghost method Prepared()
      requires Tracks() && run.place == Preparing && Adopted(plan.before)
      modifies this`run, this`steps
      ensures Tracks() && run == old(run).(place := Closing(0))
    {
      hide At;
      Log(Proceed);
    }

    /** A statement of `run` itself. */
    ghost method Execute()
      requires Tracks() && IsStatement(run.place)
      modifies this`run, this`steps
      ensures Tracks() && run.place == Continued(plan, old(run)) && run.resumeSafe == Resumed(old(run))
      ensures run.transaction == (old(run.transaction) || old(run.place) == Closing(1))
    {
      hide At, Forward;
      Statement(plan, run);
      Log(Proceed);
    }

    /** Between two statements a signal may have arrived. */
    method Signalled() returns (raised: bool)
      requires Tracks()
      modifies this`run, this`steps
      ensures Tracks() && run == if raised then Thrown(old(run)) else old(run)
    {
      raised := *;
      if raised {
        Log(Raise);
      }
    }

    /** Nobody is inside the gateway or the worker, nobody can get in, and the markers are ours. */
    ghost predicate Quiet()
      reads this`backendClosed, this`token, this`fenced, this`gateway, this`worker
    {
      backendClosed && token.Some? && fenced == SERVICES
      && Sealed(gateway) && gateway.marker == token && Sealed(worker) && worker.marker == token
    }

    /** No boundary is closed on behalf of this deployment. */
    ghost predicate Open()
      reads this`backendClosed, this`fenced
    {
      !backendClosed && fenced == {}
    }

    constructor (containers: map<Service, Container>, current: Release, pins: map<Service, Image>, gateway: Gate,
          worker: Gate)
      requires Inv(gateway) && Inv(worker) && containers.Keys == SERVICES
      ensures Valid() && Open() && journal == None && token == None && openings == []
      ensures Look() == View(containers, current, pins) && shared == pins && this.gateway == gateway
                && this.worker == worker
    {
      this.containers, this.current, this.pins, this.shared := containers, current, pins, pins;
      this.gateway, this.worker := gateway, worker;
      journal, backendClosed, token, fenced, openings := None, false, None, {}, [];
      plan := Plan("", "", View(containers, current, pins));
      steps, run := [], RolloutRuns.Start(Plan("", "", View(containers, current, pins)));
    }

    /** The two processes go on: requests arrive, enter, leave; other operators may fence too. */
    method Pause()
      requires Valid()
      modifies this`gateway, this`worker
      ensures Valid()
      ensures old(Quiet()) ==> Quiet()
      ensures token.Some? ==> old(gateway.marker) == token ==> gateway.marker == token
      ensures token.Some? ==> old(worker.marker) == token ==> worker.marker == token
      ensures old(Sealed(gateway)) ==> Sealed(gateway) && gateway.marker == old(gateway.marker)
      ensures old(Sealed(worker)) ==> Sealed(worker) && worker.marker == old(worker.marker)
    {
      var left: seq<Step>, right: seq<Step> := *, *;
      gateway := Drift(gateway, left, None);
      worker := Drift(worker, right, None);
    }

    /** A process goes on; when one of its threads is being asked for a status, that thread waits. */
    static method Drift(g: Gate, work: seq<Step>, asked: Option<Proc>) returns (h: Gate)
      requires Inv(g)
      ensures Inv(h) && (g.marker.Some? ==> h.marker == g.marker) && (Sealed(g) ==> Sealed(h))
      ensures asked.Some? && asked.value in g.at ==> asked.value in h.at && h.at[asked.value] == g.at[asked.value]
    {
      h := g;
      for i := 0 to |work|
        invariant Inv(h) && (g.marker.Some? ==> h.marker == g.marker) && (Sealed(g) ==> Sealed(h))
        invariant asked.Some? && asked.value in g.at ==> asked.value in h.at && h.at[asked.value] == g.at[asked.value]
      {
        var step := work[i];
        if Enabled(h, step) && step != Remove && (asked.Some? ==> step != Restart && !IsStepOf(step, asked.value)) {
          h := Go(h, step);
        }
      }
    }

    static method Go(g: Gate, step: Step) returns (h: Gate)
      requires Inv(g) && Enabled(g, step) && step != Remove
      ensures h == Next(g, step) && Inv(h) && (g.marker.Some? ==> h.marker == g.marker) && (Sealed(g) ==> Sealed(h))
    {
      InvStep(g, step);
      if Sealed(g) {
        SealedStep(g, step);
      }
      h := Next(g, step);
    }

    /** One status request: a thread takes the lock, reads the marker, then the counter, while the others
        go on. None when the request fails. */
    static method Status(g: Gate) returns (h: Gate, answer: Option<Snapshot>)
      requires Inv(g)
      ensures Inv(h) && (g.marker.Some? ==> h.marker == g.marker) && (Sealed(g) ==> Sealed(h))
      ensures answer.Some? && answer.value.draining && answer.value.active == 0 ==> Sealed(h)
      ensures answer.Some? && answer.value.draining && answer.value.token.Some? ==> h.marker == answer.value.token
    {
      var p: Proc :| true;
      var readable: bool := *;
      var one: seq<Step>, two: seq<Step>, three: seq<Step> := *, *, *;
      h := g;
      if p in h.at {
        return h, None;
      }
      h := Go(h, Ask(p));
      h := Drift(h, one, Some(p));
      if h.lock != None {
        return h, None;
      }
      h := Go(h, LockAsk(p));
      h := Drift(h, two, Some(p));
      h := Go(h, Step.Look(p, readable));
      h := Drift(h, three, Some(p));
      if h.Draining() && h.active == 0 {
        AnswerSeals(h, p);
      }
      answer := Some(Snapshot(h.at[p].draining, h.at[p].token, h.active));
      h := Go(h, Answer(p));
    }

    // -------------------------------------------------------------------------------------------
    // Journal, images, records
    // -------------------------------------------------------------------------------------------

    method BeginTransaction(previous: Release) returns (ok: bool)
      requires Tracks() && run.place == Closing(0) && previous == plan.before.current
      modifies this`journal, this`run, this`steps
      ensures Tracks() && Went(plan, old(run), 1, ok, run)
    {
      hide At, Straight, Went, Thrown, Target;
      ghost var s0 := run;
      StraightStep(plan, s0, 0);
      ok := *;
      var written: bool := *;
      if ok || written {
        journal := Some(previous);
        Advance(s0, 0);
      }
      Return(s0, if ok || written then 1 else 0, 1, ok);
    }

    method Finish() returns (ok: bool)
      requires Tracks() && run.place.Reopening? && run.place.step == 5 && run.transaction
      modifies this`journal, this`run, this`steps
      ensures Tracks() && Went(plan, old(run), 1, ok, run)
    {
      hide At, Straight, Went, Thrown, Target;
      ghost var s0 := run;
      StraightStep(plan, s0, 0);
      ok := *;
      var removed: bool := *;
      if ok || removed {
        journal := None;
        Advance(s0, 0);
      }
      Return(s0, if ok || removed then 1 else 0, 1, ok);
    }

    /** current.json, refused when a container runs another image than it says. */
    method Previous() returns (previous: Option<Release>)
      requires Valid()
      ensures previous.Some? ==>
                previous.value == current && ImagesOf(containers) == current.images && current.images.Keys == SERVICES
    {
      var readable: bool := *;
      if !readable || ImagesOf(containers) != current.images {
        return None;
      }
      return Some(current);
    }

    method Stop() returns (ok: bool)
      requires Valid() && Tracks() && Working(run.place, 2) && run.place.step == 0
      modifies this`containers, this`run, this`steps
      ensures Valid() && Tracks() && Went(plan, old(run), 2, ok, run)
    {
      hide At, Straight, Went, Thrown, Target, Forward, Inv, Sealed, Tracks, Wanted;
      ghost var s0 := run;
      ok := true;
      StraightStep(plan, s0, 0);
      CallEnds(plan, s0, 2, 2);
      for i := 0 to 2
        invariant Valid() && Tracks() && ok && run == Straight(plan, s0, i)
      {
        StraightEffects(plan, s0, i);
        ok := StopOne(if i == 0 then Gateway else TextWorker);
        Follow(plan, s0, i, ok, run, 2);
        if !ok {
          return;
        }
      }
    }

    method StopOne(s: Service) returns (ok: bool)
      requires Valid() && Tracks() && Working(run.place, 1) && run.place.step == if s == Gateway then 0 else 1
      modifies this`containers, this`run, this`steps
      ensures Valid() && Tracks() && Went(plan, old(run), 1, ok, run)
    {
      hide At, Straight, Went, Thrown, Target, Forward, Inv, Sealed;
      ghost var s0 := run;
      StraightStep(plan, s0, 0);
      Works(plan, run);
      ok := *;
      var done: bool := *;
      if ok || done {
        containers := containers[s := containers[s].(up := false)];
        Advance(s0, 0);
      }
      Return(s0, if ok || done then 1 else 0, 1, ok);
    }

    method Start(images: map<Service, Image>) returns (ok: bool)
      requires Valid() && Tracks() && Working(run.place, 2) && run.place.step == 2
      requires images == Wanted(run.place.Undoing?).images && images.Keys == SERVICES
      modifies this`containers, this`run, this`steps
      ensures Valid() && Tracks() && Went(plan, old(run), 2, ok, run)
    {
      hide At, Straight, Went, Thrown, Target, Forward, Inv, Sealed, Tracks;
      ghost var s0 := run;
      ok := true;
      StraightStep(plan, s0, 0);
      CallEnds(plan, s0, 2, 2);
      for i := 0 to 2
        invariant Valid() && Tracks() && ok && run == Straight(plan, s0, i)
      {
        StraightEffects(plan, s0, i);
        ok := StartOne(if i == 0 then TextWorker else Gateway, images);
        Follow(plan, s0, i, ok, run, 2);
        if !ok {
          return;
        }
      }
    }

    method StartOne(s: Service, images: map<Service, Image>) returns (ok: bool)
      requires Valid() && Tracks() && Working(run.place, 1) && run.place.step == if s == TextWorker then 2 else 3
      requires images == Wanted(run.place.Undoing?).images && images.Keys == SERVICES
      modifies this`containers, this`run, this`steps
      ensures Valid() && Tracks() && Went(plan, old(run), 1, ok, run)
    {
      hide At, Straight, Went, Thrown, Target, Forward, Inv, Sealed;
      ghost var s0 := run;
      StraightStep(plan, s0, 0);
      Works(plan, run);
      ok := *;
      var done: bool := *;
      if ok || done {
        containers := containers[s := Container(images[s], true)];
        Advance(s0, 0);
      }
      Return(s0, if ok || done then 1 else 0, 1, ok);
    }

    /** Do both processes acknowledge the drain with nobody inside, and are the expected images running? */
    method Probe(images: map<Service, Image>) returns (up: bool)
      requires Valid()
      modifies this`gateway, this`worker
      ensures Valid() && (old(Quiet()) ==> Quiet())
      ensures up ==> ImagesOf(containers) == images && AllUp(containers)
    {
      hide Inv, Sealed;
      var first, second;
      gateway, first := Status(gateway);
      var asGateway := Acknowledged(first);
      worker, second := Status(worker);
      var asWorker := Acknowledged(second);
      var transport: bool := *;
      return asGateway == Some(true) && asWorker == Some(true) && ImagesOf(containers) == images
        && (forall s | s in containers :: containers[s].up) && transport;
    }

    /** The health check has passed. */
    ghost method Checked(s0: State)
      requires Tracks() && Working(run.place, 1) && run.place.step == 4 && run == s0
      modifies this`run, this`steps
      ensures Tracks() && Went(plan, s0, 1, true, run)
    {
      hide At, Straight, Went, Thrown, Target, Forward;
      StraightStep(plan, s0, 0);
      Works(plan, run);
      Advance(s0, 0);
      Return(s0, 1, 1, true);
    }

    /** Poll until both processes acknowledge the drain with nobody inside and every container runs the
        expected image; None when the probe itself raises. */
    method Healthy(images: map<Service, Image>) returns (healthy: Option<bool>)
      requires Valid() && images.Keys == SERVICES && Tracks() && Working(run.place, 1) && run.place.step == 4
      modifies this`gateway, this`worker, this`run, this`steps
      ensures Valid() && (old(Quiet()) ==> Quiet())
      ensures Tracks() && Went(plan, old(run), 1, healthy == Some(true), run)
      ensures healthy == Some(true) ==> ImagesOf(containers) == images && AllUp(containers)
    {
      hide At, Straight, Went, Thrown, Target, Forward, Inv, Sealed, Tracks, Wanted, Quiet, ImagesOf, AllUp;
      ghost var s0 := run;
      StraightStep(plan, s0, 0);
      var polls: nat :| true;
      for i := 0 to polls
        invariant Valid() && (old(Quiet()) ==> Quiet()) && Tracks() && run == old(run)
      {
        Pause();
        var raised: bool := *;
        if raised {
          Return(s0, 0, 1, false);
          return None;
        }
        var up := Probe(images);
        if up {
          Checked(s0);
          return Some(true);
        }
      }
      Return(s0, 0, 1, false);
      return Some(false);
    }

    method Record(release: Release) returns (ok: bool)
      requires Tracks() && run.place == Switching(5) && release == Wanted(run.place.Undoing?)
      modifies this`pins, this`current, this`run, this`steps
      ensures Tracks() && Went(plan, old(run), 2, ok, run)
    {
      ok := WriteBoth(release.images, release);
    }

    method Restore(previous: Release) returns (ok: bool)
      requires Tracks() && run.place == Undoing(5) && previous == Wanted(true) && shared == WantedPins(true)
      modifies this`pins, this`current, this`run, this`steps
      ensures Tracks() && Went(plan, old(run), 2, ok, run)
    {
      ok := WriteBoth(shared, previous);
    }

    /** First the pins, then current.json. */
    method WriteBoth(pins: map<Service, Image>, release: Release) returns (ok: bool)
      requires Tracks() && Working(run.place, 2) && run.place.step == 5 && pins == WantedPins(run.place.Undoing?)
                && release == Wanted(run.place.Undoing?)
      modifies this`pins, this`current, this`run, this`steps
      ensures Tracks() && Went(plan, old(run), 2, ok, run)
    {
      hide At, Straight, Went, Thrown, Target, Forward, Tracks;
      ghost var s0 := run;
      StraightStep(plan, s0, 0);
      StraightEffects(plan, s0, 1);
      ok := WritePins(pins);
      Follow(plan, s0, 0, ok, run, 2);
      if !ok {
        return;
      }
      ok := WriteCurrent(release);
      Follow(plan, s0, 1, ok, run, 2);
      CallEnds(plan, s0, 2, 2);
    }

    method WritePins(pins: map<Service, Image>) returns (ok: bool)
      requires Tracks() && Working(run.place, 1) && run.place.step == 5 && pins == WantedPins(run.place.Undoing?)
      modifies this`pins, this`run, this`steps
      ensures Tracks() && Went(plan, old(run), 1, ok, run)
    {
      hide At, Straight, Went, Thrown, Target, Forward;
      ghost var s0 := run;
      StraightStep(plan, s0, 0);
      Works(plan, run);
      ok := *;
      var done: bool := *;
      if ok || done {
        this.pins := pins;
        Advance(s0, 0);
      }
      Return(s0, if ok || done then 1 else 0, 1, ok);
    }

    method WriteCurrent(release: Release) returns (ok: bool)
      requires Tracks() && Working(run.place, 1) && run.place.step == 6 && release == Wanted(run.place.Undoing?)
      modifies this`current, this`run, this`steps
      ensures Tracks() && Went(plan, old(run), 1, ok, run)
    {
      hide At, Straight, Went, Thrown, Target, Forward;
      ghost var s0 := run;
      StraightStep(plan, s0, 0);
      Works(plan, run);
      ok := *;
      var done: bool := *;
      if ok || done {
        current := release;
        Advance(s0, 0);
      }
      Return(s0, if ok || done then 1 else 0, 1, ok);
    }

    // -------------------------------------------------------------------------------------------
    // Drain
    // -------------------------------------------------------------------------------------------

    /** acknowledged: raises (None) unless the process shows this deployment's marker; else whether it is idle. */
    method Acknowledged(answer: Option<Snapshot>) returns (idle: Option<bool>)
      ensures idle.Some? ==>
                answer.Some? && answer.value.draining && answer.value.token.Some? && answer.value.token == token
      ensures idle.Some? ==> idle.value == (answer.value.active == 0)
    {
      if answer == None || !answer.value.draining || answer.value.token == None || answer.value.token != token {
        return None;
      }
      return Some(answer.value.active == 0);
    }

    method BeginDrain() returns (ok: bool)
      requires Valid() && Tracks() && run.place == Closing(2)
      modifies this`token, this`backendClosed, this`run, this`steps
      ensures token.Some? && gateway.marker != token && worker.marker != token && (ok ==> backendClosed)
      ensures Tracks() && Went(plan, old(run), 1, ok, run)
    {
      hide At, Straight, Went, Thrown, Target;
      ghost var s0 := run;
      StraightStep(plan, s0, 0);
      var left, right := gateway.marker.GetOr(0), worker.marker.GetOr(0);
      token := Some(left + right + 1);
      ok := *;
      var closed: bool := *;
      if ok || closed {
        backendClosed := true;
        Advance(s0, 0);
      }
      Return(s0, if ok || closed then 1 else 0, 1, ok);
    }

    /** Publish this deployment's marker exclusively; the name is remembered before the attempt. */
    method Fence(name: Service) returns (ok: bool)
      requires Valid() && token.Some? && Tracks() && run.place == if name == Gateway then Closing(3) else Closing(4)
      modifies this`fenced, this`gateway, this`worker, this`run, this`steps
      ensures Valid() && fenced == old(fenced) + {name}
      ensures Tracks() && run == if ok then Forward(plan, old(run)) else Thrown(Forward(plan, old(run)))
      ensures name == Gateway ==> worker == old(worker) && (ok ==> gateway.marker == token)
      ensures name == TextWorker ==> gateway == old(gateway) && (ok ==> worker.marker == token)
      ensures name == Gateway ==>
                gateway in {old(gateway), old(gateway).(marker := token)}
                    && (gateway != old(gateway) ==> old(gateway).marker == None)
      ensures name == TextWorker ==>
                worker in {old(worker), old(worker).(marker := token)}
                    && (worker != old(worker) ==> old(worker).marker == None)
    {
      hide Tracks, At, Forward, Thrown;
      Remember(name);
      var g := if name == Gateway then gateway else worker;
      var written: bool := *;
      if !written || g.marker.Some? {
        Fail();
        return false;
      }
      InvStep(g, Publish(token.value));
      if name == Gateway {
        gateway := Next(gateway, Publish(token.value));
      } else {
        worker := Next(worker, Publish(token.value));
      }
      ok := *;
      if !ok {
        Fail();
      }
    }

    /** The name is remembered before the marker is published. */
    method Remember(name: Service)
      requires Tracks() && run.place == if name == Gateway then Closing(3) else Closing(4)
      modifies this`fenced, this`run, this`steps
      ensures Tracks() && run == Forward(plan, old(run)) && fenced == old(fenced) + {name}
    {
      hide At;
      fenced := fenced + {name};
      Log(Proceed);
    }

    /** Close the gateway, wait until it is idle, close the worker, wait until it is idle. */
    method WaitIdle() returns (ok: bool)
      requires Valid() && token.Some? && fenced == {} && Tracks() && run.place == Closing(3)
      modifies this`fenced, this`gateway, this`worker, this`run, this`steps
      ensures Valid() && (ok && backendClosed ==> Quiet())
      ensures Tracks() && Went(plan, old(run), 2, ok, run)
    {
      hide At, Straight, Went, Thrown, Target, Inv, Sealed, Tracks, Quiet, Valid;
      ghost var s0 := run;
      StraightStep(plan, s0, 0);
      StraightStep(plan, s0, 1);
      CallEnds(plan, s0, 1, 2);
      CallEnds(plan, s0, 2, 2);
      var backendIdle: bool := *;
      if !backendIdle {
        Return(s0, 0, 2, false);
        return false;
      }
      ok := Fence(Gateway);
      if !ok {
        return;
      }
      var polls: nat :| true;
      for i := 0 to polls
        invariant Valid() && Gateway in fenced && gateway.marker == token
        invariant TextWorker in fenced ==> worker.marker == token
        invariant Tracks() && run == Straight(plan, s0, if TextWorker in fenced then 2 else 1)
        invariant run.place == if TextWorker in fenced then Closing(5) else Closing(4)
      {
        var idle := PollOnce();
        if idle == None {
          return false;
        }
        if idle == Some(true) {
          AllQuiet();
          return true;
        }
      }
      Return(s0, if TextWorker in fenced then 2 else 1, 2, false);
      return false;
    }

    lemma AllQuiet()
      requires token.Some? && fenced == SERVICES
      requires Sealed(gateway) && gateway.marker == token && Sealed(worker) && worker.marker == token
      ensures backendClosed ==> Quiet()
    {
    }

    /** One round of the loop; None when a request raises or a marker is not acknowledged as ours. */
    method PollOnce() returns (idle: Option<bool>)
      requires Valid() && token.Some? && Gateway in fenced && gateway.marker == token
      requires TextWorker in fenced ==> worker.marker == token
      requires Tracks() && run.place == if TextWorker in fenced then Closing(5) else Closing(4)
      modifies this`fenced, this`gateway, this`worker, this`run, this`steps
      ensures Tracks() && old(fenced) <= fenced
      ensures var t := if TextWorker in fenced - old(fenced) then Forward(plan, old(run)) else old(run);
              run == if idle == None then Thrown(t) else t
      ensures Valid() && Gateway in fenced && gateway.marker == token
      ensures idle.Some? && TextWorker in fenced ==> worker.marker == token
      ensures idle == Some(true) ==> fenced == SERVICES && Sealed(gateway) && Sealed(worker) && worker.marker == token
    {
      hide Tracks, At, Thrown, Target, Inv;
      Pause();
      var answer;
      gateway, answer := Status(gateway);
      var gatewayIdle := Acknowledged(answer);
      var quiet: bool := *;
      if gatewayIdle == None {
        Fail();
        return None;
      }
      if !gatewayIdle.value || !quiet {
        return Some(false);
      }
      if TextWorker !in fenced {
        var ok := Fence(TextWorker);
        if !ok {
          return None;
        }
      }
      Pause();
      idle := AskWorker();
      BothAreAll(fenced);
    }

    method AskWorker() returns (idle: Option<bool>)
      requires Valid() && token.Some? && Tracks()
      modifies this`worker, this`run, this`steps
      ensures Valid() && Tracks() && run == if idle == None then Thrown(old(run)) else old(run)
      ensures idle.Some? ==> worker.marker == token
      ensures idle == Some(true) ==> Sealed(worker)
    {
      hide Tracks, At, Thrown, Inv;
      var answer;
      worker, answer := Status(worker);
      idle := Acknowledged(answer);
      var protected: bool := *;
      if idle == None || !protected {
        Fail();
        return None;
      }
    }

    method Unlink(name: Service) returns (ok: bool)
      requires Valid() && Tracks() && name in fenced && run.place.Reopening?
      requires run.place.step == if name == TextWorker then 1 else 2
      modifies this`gateway, this`worker, this`openings, this`run, this`steps
      ensures Valid() && Tracks() && Went(plan, old(run), 1, ok, run)
      ensures openings in {old(openings), old(openings) + [Look()]}
      ensures name == Gateway ==> worker == old(worker) && (ok ==> gateway.marker == None)
      ensures name == TextWorker ==> gateway == old(gateway) && (ok ==> worker.marker == None)
    {
      hide Tracks, At, Straight, Went, Thrown, Forward;
      ghost var s0 := run;
      StraightStep(plan, s0, 0);
      ok := *;
      var done: bool := *;
      if !ok && !done {
        Return(s0, 0, 1, false);
        return;
      }
      InvStep(if name == Gateway then gateway else worker, Remove);
      if name == Gateway {
        gateway := Next(gateway, Remove);
      } else {
        worker := Next(worker, Remove);
      }
      Opening(s0);
      Return(s0, 1, 1, ok);
    }

    ghost method Opening(s0: State)
      requires Tracks() && run == s0 && run.place.Reopening?
      requires (run.place.step == 1 && TextWorker in fenced) || (run.place.step == 2 && Gateway in fenced)
      modifies this`openings, this`run, this`steps
      ensures Tracks() && openings == old(openings) + [Look()] && run == Straight(plan, s0, 1)
    {
      hide At, Straight, Thrown;
      StraightStep(plan, s0, 0);
      openings := openings + [Look()];
      Advance(s0, 0);
    }

    /** Open one service if this deployment closed it. */
    method OpenService(name: Service) returns (ok: bool)
      requires Valid() && Tracks() && run.place.Reopening? && run.place.step == if name == TextWorker then 1 else 2
      modifies this`gateway, this`worker, this`openings, this`run, this`steps
      ensures Valid() && Tracks() && Went(plan, old(run), 1, ok, run)
      ensures openings in {old(openings), old(openings) + [Look()]}
      ensures name == Gateway ==> worker == old(worker) && (ok && name in fenced ==> gateway.marker == None)
      ensures name == TextWorker ==> gateway == old(gateway) && (ok && name in fenced ==> worker.marker == None)
    {
      hide Tracks, At, Straight, Went, Thrown, Forward, Inv;
      ok := true;
      if name in fenced {
        ok := Unlink(name);
      } else {
        Skip();
        StraightStep(plan, old(run), 0);
        CallEnds(plan, old(run), 1, 1);
      }
    }

    /** First the worker, then the gateway. */
    method OpenServices(ghost s0: State) returns (ok: bool)
      requires Valid() && Tracks() && s0.place.Reopening? && s0.place.step == 0 && run == Straight(plan, s0, 1)
      modifies this`gateway, this`worker, this`openings, this`run, this`steps
      ensures Valid() && Tracks() && old(openings) <= openings
      ensures if ok then run == Straight(plan, s0, 3) else Went(plan, s0, 5, false, run)
      ensures ok ==> (Gateway in fenced ==> gateway.marker == None) && (TextWorker in fenced ==> worker.marker == None)
    {
      hide Inv, Sealed, ImagesOf, Tracks, At, Straight, Went, Thrown, Forward, Look, Valid;
      StraightReopening(plan, s0, 1);
      ok := OpenService(TextWorker);
      Follow(plan, s0, 1, ok, run, 5);
      if !ok {
        return;
      }
      StraightReopening(plan, s0, 2);
      ok := OpenService(Gateway);
      Follow(plan, s0, 2, ok, run, 5);
    }

    /** Nothing to do at this step. */
    ghost method Skip()
      requires Tracks() && run.place.Reopening?
      requires run.place.step in {0, 6} || (run.place.step == 1 && TextWorker !in fenced)
               || (run.place.step == 2 && Gateway !in fenced) || (run.place.step == 5 && !run.transaction)
      modifies this`run, this`steps
      ensures Tracks() && run == Forward(plan, old(run))
    {
      hide At;
      Log(Proceed);
    }

    method ForgetMarkers()
      requires Tracks() && run.place.Reopening? && run.place.step == 3
      modifies this`fenced, this`token, this`run, this`steps
      ensures Tracks() && run == Forward(plan, old(run)) && fenced == {} && token == None
    {
      hide At;
      fenced, token := {}, None;
      Log(Proceed);
    }

    method OpenBackend() returns (ok: bool)
      requires Tracks() && run.place.Reopening? && run.place.step == 4
      modifies this`backendClosed, this`openings, this`run, this`steps
      ensures Tracks() && Went(plan, old(run), 1, ok, run) && openings in {old(openings), old(openings) + [Look()]}
      ensures (ok ==> !backendClosed) && (!old(backendClosed) ==> !backendClosed)
    {
      hide At, Straight, Went, Thrown;
      ghost var s0 := run;
      StraightStep(plan, s0, 0);
      ok := *;
      var done: bool := *;
      if ok || done {
        backendClosed := false;
        openings := openings + [Look()];
        Advance(s0, 0);
      }
      Return(s0, if ok || done then 1 else 0, 1, ok);
    }

    /** Reopen: first check the owner of every marker this deployment tried to publish, then open the
        worker, the gateway and the backend. */
    method EndDrain() returns (ok: bool)
      requires Valid() && (fenced != {} ==> token.Some?) && Tracks() && run.place.Reopening? && run.place.step == 0
      modifies this`fenced, this`gateway, this`worker, this`token, this`backendClosed, this`openings, this`run,
          this`steps
      ensures Tracks() && Went(plan, old(run), 5, ok, run)
      ensures Valid() && old(openings) <= openings
      ensures old((Gateway in fenced && gateway.marker.Some? && gateway.marker != token)
                  || (TextWorker in fenced && worker.marker.Some? && worker.marker != token)) ==>
                !ok && openings == old(openings) && gateway == old(gateway) && worker == old(worker)
                    && backendClosed == old(backendClosed)
      ensures ok ==>
                Open() && (Gateway in old(fenced) ==> gateway.marker == None)
                    && (TextWorker in old(fenced) ==> worker.marker == None)
    {
      hide Inv, Sealed, ImagesOf, Tracks, At, Straight, Went, Thrown, Forward, Look, Valid;
      ghost var s0 := run;
      StraightStep(plan, s0, 0);
      var readable: bool := *;
      if (Gateway in fenced && gateway.marker.Some? && gateway.marker != token)
         || (TextWorker in fenced && worker.marker.Some? && worker.marker != token) || !readable {
        Return(s0, 0, 5, false);
        return false;
      }
      Skip();
      StraightReopening(plan, s0, 1);
      ok := OpenServices(s0);
      if !ok {
        return;
      }
      StraightReopening(plan, s0, 3);
      ForgetMarkers();
      StraightStep(plan, s0, 3);
      StraightReopening(plan, s0, 4);
      ok := OpenBackend();
      Follow(plan, s0, 4, ok, run, 5);
      CallEnds(plan, s0, 5, 5);
    }
  }

  class Deployment {
    const runtime: Runtime

    constructor (runtime: Runtime)
      ensures this.runtime == runtime
    {
      this.runtime := runtime;
    }

    /** What the runtime is to do next is what the plan says. */
    ghost predicate Follows(release: Release, previous: Release)
      reads runtime`plan
    {
      && release == Target(runtime.plan) && previous == runtime.plan.before.current
      && runtime.shared == runtime.plan.before.pins && release.images.Keys == previous.images.Keys == SERVICES
    }

    /** Stop, start, check and record: the statements of both inner `try` bodies but the last. */
    method Replace(release: Release, undo: bool) returns (ok: bool)
      requires runtime.Valid() && runtime.Quiet() && runtime.Tracks()
      requires runtime.run.place == if undo then Undoing(0) else Switching(0)
      requires release == runtime.Wanted(undo) && release.images.Keys == SERVICES
      requires undo ==> runtime.shared == runtime.WantedPins(true)
      modifies runtime`containers, runtime`pins, runtime`current, runtime`gateway, runtime`worker, runtime`run,
          runtime`steps
      ensures runtime.Valid() && runtime.Quiet() && runtime.Tracks() && SameFlags(old(runtime.run), runtime.run)
      ensures runtime.run.place == if ok then Moved(old(runtime.run.place), EFFECTS)
                else Handler(old(runtime.run.place))
    {
      hide At, Target, Went, Straight, Forward, Runtime.Tracks, Runtime.Quiet, Runtime.Valid, Runtime.Wanted;
      hide Runtime.WantedPins, Consistent, ImagesOf, AllUp;
      ok := Rebuild(release, undo);
      if !ok {
        return;
      }
      ghost var s4 := runtime.run;
      var healthy := runtime.Healthy(release.images);
      After(s4, 1, healthy == Some(true));
      if healthy != Some(true) {
        return false;
      }
      ghost var s5 := runtime.run;
      if undo {
        ok := runtime.Restore(release);
      } else {
        ok := runtime.Record(release);
      }
      After(s5, 2, ok);
    }

    method Rebuild(release: Release, undo: bool) returns (ok: bool)
      requires runtime.Valid() && runtime.Tracks() && runtime.run.place == if undo then Undoing(0) else Switching(0)
      requires release == runtime.Wanted(undo) && release.images.Keys == SERVICES
      modifies runtime`containers, runtime`run, runtime`steps
      ensures runtime.Valid() && runtime.Tracks() && SameFlags(old(runtime.run), runtime.run)
      ensures runtime.run.place == if ok then Moved(old(runtime.run.place), 4) else Handler(old(runtime.run.place))
    {
      hide At, Target, Went, Straight, Forward, Runtime.Tracks, Runtime.Quiet, Runtime.Valid, Runtime.Wanted;
      hide Runtime.WantedPins, Consistent, ImagesOf, AllUp;
      ok := runtime.Stop();
      After(old(runtime.run), 2, ok);
      if !ok {
        return;
      }
      ghost var s2 := runtime.run;
      ok := runtime.Start(release.images);
      After(s2, 2, ok);
    }

    lemma After(s: State, n: nat, ok: bool)
      requires Went(runtime.plan, s, n, ok, runtime.run) && Working(s.place, n)
      ensures SameFlags(s, runtime.run) && runtime.run.place == if ok then Moved(s.place, n) else Handler(s.place)
    {
      hide Straight;
      if ok {
        StraightEffects(runtime.plan, s, n);
      } else {
        Raises(runtime.plan, s, n, runtime.run);
      }
    }

    /** One inner `try` body: the flag is set at its end, and a signal may still arrive after that. */
    method Body(release: Release, undo: bool, safe: bool) returns (ok: bool, resumeSafe: bool)
      requires runtime.Valid() && runtime.Tracks() && runtime.Quiet()
      requires Follows(Target(runtime.plan), runtime.plan.before.current)
      requires release == runtime.Wanted(undo) && runtime.run.resumeSafe == safe
      requires runtime.run.place == if undo then Undoing(0) else Switching(0)
      modifies runtime`containers, runtime`pins, runtime`current, runtime`gateway, runtime`worker, runtime`run,
          runtime`steps
      ensures runtime.Valid() && runtime.Tracks() && runtime.Quiet()
      ensures runtime.run.resumeSafe == resumeSafe && runtime.run.transaction == old(runtime.run.transaction)
      ensures ok ==> runtime.run.place == if undo then Reporting else Leaving(Deployed(Target(runtime.plan).images))
      ensures !ok ==> runtime.run.place == if undo then Failed else Failing
    {
      hide At, Target, Forward, Runtime.Tracks, Runtime.Quiet, Runtime.Valid;
      resumeSafe := safe;
      ok := Replace(release, undo);
      if ok {
        resumeSafe := true;
        runtime.Execute();
        var raised := runtime.Signalled();
        if raised {
          return false, true;
        }
        runtime.Execute();
      }
    }

    /** Stop, start, check and record the new release; on any failure put the previous one back. A signal may
        arrive between any two statements. */
    method Switch(release: Release, previous: Release) returns (ending: Ending, resumeSafe: bool)
      requires runtime.Valid() && runtime.Tracks() && runtime.Quiet() && Follows(release, previous)
      requires runtime.run.place == Ready && !runtime.run.resumeSafe
      modifies runtime`containers, runtime`pins, runtime`current, runtime`gateway, runtime`worker, runtime`run,
          runtime`steps
      ensures runtime.Valid() && runtime.Tracks() && runtime.Quiet()
      ensures runtime.run.place == Leaving(ending) && runtime.run.resumeSafe == resumeSafe
      ensures runtime.run.transaction == old(runtime.run.transaction)
      ensures ending in {Deployed(release.images), RolledBack, RollbackFailed, Interrupted}
      ensures ending.Deployed? ==> resumeSafe && Runs(runtime.Look(), runtime.plan.sha, runtime.plan.image)
      ensures ending.RolledBack? ==> resumeSafe && IsOld(runtime.Look(), runtime.plan)
      ensures ending.RollbackFailed? ==>
                (resumeSafe
                 <==> LateInterrupt(runtime.plan, runtime.steps) || InterruptedRestored(runtime.plan, runtime.steps))
    {
      hide At, Target, IsNew, IsOld, LateInterrupt, InterruptedRestored, Forward, Thrown, Runtime.Quiet, Runtime.Valid;
      ending, resumeSafe := TrySwitch(release, previous);
      LeavingHolds(runtime.plan, runtime.steps, ending);
      if ending.Deployed? {
        NewMeans(runtime.Look(), runtime.plan);
      }
    }

    method TrySwitch(release: Release, previous: Release) returns (ending: Ending, resumeSafe: bool)
      requires runtime.Valid() && runtime.Tracks() && runtime.Quiet() && Follows(release, previous)
      requires runtime.run.place == Ready && !runtime.run.resumeSafe
      modifies runtime`containers, runtime`pins, runtime`current, runtime`gateway, runtime`worker, runtime`run,
          runtime`steps
      ensures runtime.Valid() && runtime.Tracks() && runtime.Quiet()
      ensures runtime.run.place == Leaving(ending) && runtime.run.resumeSafe == resumeSafe
      ensures runtime.run.transaction == old(runtime.run.transaction)
      ensures ending in {Deployed(release.images), RolledBack, RollbackFailed, Interrupted}
    {
      hide At, Target, Forward, Runtime.Tracks, Runtime.Quiet, Runtime.Valid;
      resumeSafe := false;
      var raised := runtime.Signalled();
      if raised {
        return Interrupted, false;
      }
      runtime.Execute();
      var ok;
      ok, resumeSafe := Body(release, false, false);
      if ok {
        return Deployed(release.images), resumeSafe;
      }
      ending, resumeSafe := Undo(previous, resumeSafe);
    }

    /** The handler of the inner `try`. */
    method Undo(previous: Release, safe: bool) returns (ending: Ending, resumeSafe: bool)
      requires runtime.Valid() && runtime.Tracks() && Follows(Target(runtime.plan), previous) && runtime.Quiet()
      requires runtime.run.place == Failing && runtime.run.resumeSafe == safe
      modifies runtime`containers, runtime`pins, runtime`current, runtime`gateway, runtime`worker, runtime`run,
          runtime`steps
      ensures runtime.Valid() && runtime.Tracks() && runtime.Quiet()
      ensures runtime.run.place == Leaving(ending) && runtime.run.resumeSafe == resumeSafe
      ensures runtime.run.transaction == old(runtime.run.transaction)
      ensures ending in {RolledBack, RollbackFailed, Interrupted}
    {
      hide At, Target, Forward, Runtime.Tracks, Runtime.Quiet, Runtime.Valid;
      resumeSafe := safe;
      var raised := runtime.Signalled();
      if raised {
        return Interrupted, resumeSafe;
      }
      runtime.Execute();
      var ok;
      ok, resumeSafe := Body(previous, true, resumeSafe);
      ending := Report(ok);
    }

    /** What the handlers raise in the end, if a signal does not come first. */
    method Report(restored: bool) returns (ending: Ending)
      requires runtime.Tracks() && runtime.run.place == if restored then Reporting else Failed
      modifies runtime`run, runtime`steps
      ensures runtime.Tracks() && runtime.run.place == Leaving(ending) && SameFlags(old(runtime.run), runtime.run)
      ensures ending in {if restored then RolledBack else RollbackFailed, Interrupted}
    {
      hide At, Forward, Runtime.Tracks;
      var raised := runtime.Signalled();
      if raised {
        return Interrupted;
      }
      runtime.Execute();
      ending := if restored then RolledBack else RollbackFailed;
    }

    /** Nothing has been opened, nobody is inside, and the journal names what to recover. */
    ghost predicate Shut(previous: Release)
      reads runtime
    {
      runtime.openings == [] && runtime.Quiet() && runtime.journal == Some(previous)
    }

    /** The statements of `run`, logged as they go. */
    method Perform(sha: string, image: Image) returns (ending: Ending)
      requires runtime.Valid() && runtime.Open() && runtime.journal == None && runtime.token == None
      requires runtime.openings == [] && runtime.shared == runtime.pins
      modifies runtime
      ensures runtime.Valid() && runtime.Tracks()
      ensures runtime.plan == Plan(sha, image, old(runtime.Look())) && runtime.run.place == Over(ending)
      ensures ending.RollbackFailed? && !runtime.run.resumeSafe ==> runtime.Quiet()
    {
      hide At, Forward, Runtime.Tracks, Runtime.Quiet;
      runtime.Begin(sha, image);
      TargetRuns(runtime.plan);
      var prepared: bool := *;
      if !prepared {
        runtime.Fail();
        return Refused;
      }
      var previous := runtime.Previous();
      var busy: bool := *;
      if previous == None || busy {
        runtime.Fail();
        return Refused;
      }
      runtime.Prepared();
      ending := Guarded(NewRelease(sha, image), previous.value);
    }

    /** The outer `try` and its `finally`. */
    method Guarded(release: Release, previous: Release) returns (ending: Ending)
      requires runtime.Valid() && runtime.Tracks() && Follows(release, previous) && runtime.Open()
                && runtime.run.place == Closing(0)
      requires runtime.run.resumeSafe && !runtime.run.transaction
      modifies runtime`containers, runtime`pins, runtime`current, runtime`journal, runtime`token, runtime`backendClosed
      modifies runtime`fenced, runtime`gateway, runtime`worker, runtime`openings, runtime`run, runtime`steps
      ensures runtime.Valid() && runtime.Tracks() && runtime.run.place == Over(ending)
      ensures ending.RollbackFailed? && !runtime.run.resumeSafe ==> runtime.Quiet()
    {
      hide At, Forward, Target, Runtime.Tracks, Runtime.Quiet, Runtime.Valid;
      var resumeSafe := true;
      var ok, transaction := Close(previous);
      if ok {
        resumeSafe := false;
        runtime.Execute();
        ending, resumeSafe := Switch(release, previous);
      } else {
        ending := Undone;
      }
      ending := Leave(ending, resumeSafe, transaction);
    }

    /** The finally block. */
    method Leave(reached: Ending, resumeSafe: bool, transaction: bool) returns (ending: Ending)
      requires runtime.Valid() && (runtime.fenced != {} ==> runtime.token.Some?) && runtime.Tracks()
      requires runtime.run.place == Leaving(reached) && runtime.run.resumeSafe == resumeSafe
                && runtime.run.transaction == transaction
      requires !resumeSafe ==> runtime.Quiet()
      modifies runtime`journal, runtime`token, runtime`backendClosed, runtime`fenced, runtime`gateway, runtime`worker
      modifies runtime`openings, runtime`run, runtime`steps
      ensures runtime.Valid() && runtime.Tracks() && runtime.run.place == Over(ending)
      ensures runtime.run.resumeSafe == resumeSafe && (!resumeSafe ==> runtime.Quiet())
    {
      hide At, Forward, Target, Runtime.Tracks, Runtime.Quiet, Runtime.Valid;
      var raised := runtime.Signalled();
      if raised {
        return ReopeningFailed;
      }
      runtime.Execute();
      ending := reached;
      if resumeSafe {
        var ok := Reopen(transaction);
        if !ok {
          ending := ReopeningFailed;
        }
      }
    }

    /** Write the journal, start draining, wait until nobody is inside. */
    method Close(previous: Release) returns (ok: bool, transaction: bool)
      requires runtime.Valid() && runtime.Open() && runtime.Tracks() && runtime.run.place == Closing(0)
      requires previous == runtime.plan.before.current && !runtime.run.transaction
      modifies runtime`journal, runtime`token, runtime`backendClosed, runtime`fenced, runtime`gateway, runtime`worker
      modifies runtime`run, runtime`steps
      ensures runtime.Valid() && runtime.Tracks() && (ok ==> transaction && runtime.Quiet())
      ensures runtime.run.place == if ok then Closing(5) else Leaving(Undone)
      ensures runtime.run.resumeSafe == old(runtime.run.resumeSafe) && runtime.run.transaction == transaction
      ensures runtime.fenced != {} ==> runtime.token.Some?
    {
      hide At, Target, Went, Straight, Forward, Runtime.Tracks, Runtime.Quiet, Runtime.Valid;
      transaction := runtime.BeginTransaction(previous);
      AfterClosing(old(runtime.run), 1, transaction);
      if !transaction {
        return false, false;
      }
      runtime.Execute();
      ghost var s2 := runtime.run;
      ok := runtime.BeginDrain();
      AfterClosing(s2, 1, ok);
      if !ok {
        return;
      }
      ghost var s3 := runtime.run;
      ok := runtime.WaitIdle();
      AfterClosing(s3, 2, ok);
    }

    lemma AfterClosing(s: State, n: nat, ok: bool)
      requires Went(runtime.plan, s, n, ok, runtime.run)
      requires s.place.Closing? && s.place.step + n <= 5 && (s.place.step < 2 ==> s.place.step + n <= 1)
      ensures SameFlags(s, runtime.run)
      ensures runtime.run.place == if ok then Closing(s.place.step + n) else Leaving(Undone)
    {
      hide Straight;
      if ok {
        StraightClosing(runtime.plan, s, n);
      } else {
        Raises(runtime.plan, s, n, runtime.run);
      }
    }

    lemma AfterReopening(s: State, n: nat, ok: bool)
      requires Went(runtime.plan, s, n, ok, runtime.run) && s.place.Reopening? && s.place.step + n <= 6
      ensures SameFlags(s, runtime.run)
      ensures runtime.run.place ==
              if ok then Reopening(s.place.step + n, s.place.ending) else Over(ReopeningFailed)
    {
      hide Straight;
      if ok {
        StraightReopening(runtime.plan, s, n);
      } else {
        Raises(runtime.plan, s, n, runtime.run);
      }
    }

    /** What the finally block does when it may. */
    method Reopen(transaction: bool) returns (ok: bool)
      requires runtime.Valid() && (runtime.fenced != {} ==> runtime.token.Some?) && runtime.Tracks()
      requires runtime.run.place.Reopening? && runtime.run.place.step == 0 && runtime.run.transaction == transaction
      modifies runtime`journal, runtime`token, runtime`backendClosed, runtime`fenced, runtime`gateway, runtime`worker
      modifies runtime`openings, runtime`run, runtime`steps
      ensures runtime.Valid() && runtime.Tracks() && runtime.run.resumeSafe == old(runtime.run.resumeSafe)
      ensures runtime.run.place == Over(if ok then old(runtime.run.place.ending) else ReopeningFailed)
    {
      hide At, Target, Went, Straight, Forward, Runtime.Tracks, Runtime.Valid;
      ok := runtime.EndDrain();
      AfterReopening(old(runtime.run), 5, ok);
      if !ok {
        return;
      }
      ghost var s5 := runtime.run;
      if transaction {
        ok := runtime.Finish();
        AfterReopening(s5, 1, ok);
        if !ok {
          return;
        }
      } else {
        runtime.Skip();
        Reopens(runtime.plan, s5);
      }
      runtime.Execute();
    }

    /** The whole rollout, whatever calls fail and whenever signals arrive. It makes one of the runs of the
        plan, so what is opened is all of the new release or all of what was found, unless a signal at the end
        of the inner `try` started a rollback that was broken off; for builds with different images exactly
        then. The journal is gone only if every boundary is open. A rollback that failed has left everything
        closed, nobody inside, and the journal in place, exactly unless a signal struck at the end of one of
        the two bodies. */
    method Run(sha: string, image: Image) returns (ending: Ending)
      requires runtime.Valid() && runtime.Open() && runtime.journal == None && runtime.token == None
      requires runtime.openings == [] && runtime.shared == runtime.pins
      modifies runtime
      ensures runtime.Valid() && runtime.Tracks()
      ensures runtime.plan == Plan(sha, image, old(runtime.Look())) && runtime.run.place == Over(ending)
      ensures !(LateInterrupt(runtime.plan, runtime.steps) && BreaksOff(runtime.plan, runtime.steps)) ==>
                forall v | v in runtime.openings :: Consistent(v, runtime.plan)
      ensures runtime.openings != [] && old(runtime.current).images != map[Gateway := image, TextWorker := image] ==>
                ((forall v | v in runtime.openings :: Consistent(v, runtime.plan))
                 <==> !(LateInterrupt(runtime.plan, runtime.steps) && BreaksOff(runtime.plan, runtime.steps)))
      ensures runtime.journal == None ==> runtime.Open()
      ensures ending.RollbackFailed? ==>
                (Shut(old(runtime.current))
                 <==> !LateInterrupt(runtime.plan, runtime.steps) && !InterruptedRestored(runtime.plan, runtime.steps))
      ensures ending.Deployed? ==> runtime.Open() && runtime.journal == None
      ensures ending.Deployed? ==>
                && runtime.current.sha == sha && ending.images == map[Gateway := image, TextWorker := image]
                && forall s: Service ::
                     && s in runtime.containers && runtime.containers[s] == Container(image, true)
                     && s in runtime.current.images && runtime.current.images[s] == image
                     && s in runtime.pins && runtime.pins[s] == image
      ensures ending.RolledBack? ==> IsOld(runtime.Look(), runtime.plan) && runtime.Open() && runtime.journal == None
      ensures ending.Undone? ==> runtime.Look() == old(runtime.Look()) && runtime.Open()
      ensures ending.Refused? ==>
                runtime.Look() == old(runtime.Look()) && runtime.journal == None && runtime.openings == []
    {
      ending := Perform(sha, image);
      hide *;
      OpensConsistently(runtime.plan, runtime.steps);
      if ending.RollbackFailed? {
        RemainsClosed(runtime.plan, runtime.steps);
      }
      JournalGoesLast(runtime.plan, runtime.steps);
      EndingsHold(runtime.plan, runtime.steps, ending);
    }
  }
}
