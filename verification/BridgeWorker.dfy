/** V73Worker.process, _execute and _call_daemon (system/worker_v73.py) as methods. Each effect on the
    deployment root is one step of BridgeProtocol, and between any two of them the other calls may take
    any steps of theirs, crashes included. What the methods decide and answer comes from their own local
    variables. */
module BridgeWorkers {
  import opened Wrappers
  import opened BridgeProtocol
  import opened BridgeRuns

  /** A step that call c does not take and that does not take c away. */
  predicate ByOthers(step: Step, c: CallId) {
    match step
    case Crash(lost) => c !in lost
    case _ => step.c != c
  }

  /** What call c can rely on while others run: its own record, the file of its job while it holds the
      lock, and the model lock once it has it; and recorded outcomes stay. */
  ghost predicate Undisturbed(s: State, t: State, c: CallId) {
    && c in s.calls && c in t.calls && t.calls[c] == s.calls[c]
    && (HasJobLock(s.calls[c].phase) ==> t.On(s.calls[c].job) == s.On(s.calls[c].job))
    && forall j: JobId :: s.On(j).Outcome().Some? ==> Untouched(s, t, j)
  }

  lemma OthersStep(s: State, step: Step, c: CallId)
    requires Inv(s) && Enabled(s, step) && ByOthers(step, c) && c in s.calls
    ensures Undisturbed(s, Next(s, step), c)
  {
    hide JobInv, Agrees;
    forall j: JobId | s.On(j).Outcome().Some? ensures Untouched(s, Next(s, step), j) {
      SettledStep(s, step, j);
    }
    if step.Enter? || step.LockJob? {
      OutsiderStep(s, step);
    } else if !step.Crash? {
      HoldsLock(s, step);
      HolderStep(s, step);
    }
  }

  lemma UndisturbedBoth(s: State, t: State, u: State, c: CallId)
    requires Undisturbed(s, t, c) && Undisturbed(t, u, c)
    ensures Undisturbed(s, u, c)
  {
  }

  class Deployment {
    var state: State
    ghost var steps: seq<Step>

    ghost predicate Valid()
      reads this
    {
      state == Run(steps)
    }

    constructor ()
      ensures Valid() && state == Idle
    {
      state, steps := Idle, [];
    }

    method Do(step: Step)
      requires Valid() && Enabled(state, step)
      modifies this
      ensures Valid() && state == Next(old(state), step) && steps == old(steps) + [step]
    {
      state := Next(state, step);
      steps := steps + [step];
      assert steps[..|steps| - 1] == old(steps);
    }

    /** Others run for a while. */
    method Pause(c: CallId)
      requires Valid() && c in state.calls
      modifies this
      ensures Valid() && old(steps) <= steps && Undisturbed(old(state), state, c)
    {
      var work: seq<Step> := *;
      for i := 0 to |work|
        invariant Valid() && old(steps) <= steps && Undisturbed(old(state), state, c)
      {
        hide Enabled, Next, Run;
        if Enabled(state, work[i]) && ByOthers(work[i], c) {
          InvRun(steps);
          OthersStep(state, work[i], c);
          UndisturbedBoth(old(state), state, Next(state, work[i]), c);
          Do(work[i]);
        }
      }
    }
  }

  /** How the body of _execute ends: with a result, with a worker error for its handler, or at once. */
  datatype Ending = Result(result: Artifacts) | Error(failure: Failure) | Unexpected

  class V73Worker {
    const deployment: Deployment

    constructor (deployment: Deployment)
      ensures this.deployment == deployment
    {
      this.deployment := deployment;
    }

    /** Call c is in this phase, with this state dictionary in memory. */
    ghost predicate At(c: CallId, job: JobId, spec: Spec, phase: Phase, mem: Saved)
      reads deployment
    {
      && deployment.Valid() && c in deployment.state.calls
      && var call := deployment.state.calls[c];
      && call.job == job && call.spec == spec && call.phase == phase && call.mem == mem
      && (phase != Rejecting ==> call.failure.None?)
    }

    /** Call c has given this answer and holds no lock. */
    ghost predicate Replied(c: CallId, reply: Answer)
      reads deployment
    {
      && deployment.Valid() && c in deployment.state.calls
      && deployment.state.calls[c].phase == Over && deployment.state.calls[c].reply == Some(reply)
    }

    /** What the job's file shows once a call has answered: a result is there before it is returned, and a
        failure that no retry can mend too, unless it is one that is never recorded. */
    ghost predicate Recorded(job: JobId, reply: Answer)
      reads deployment
    {
      match reply
      case Value(result) => deployment.state.On(job).result == Some(result)
      case Refused(failure) =>
        !failure.retryable && failure.code != "deadline_exceeded"
        && failure != SPEC_CONFLICT && failure != BAD_PATH ==>
            deployment.state.On(job).error == Some(failure)
    }

    /** A write was refused, or ended in another exception. */
    predicate WriteFailed(reply: Answer) {
      reply in {Refused(Failure("invalid_artifacts", "local path is outside deployment or contains a symlink", false)),
                Refused(Failure("worker_error", "unexpected worker failure", true))}
    }

    /** What became of the failure that ended the body of call c, if one did. One that can be retried, or an
        expired deadline, is answered and leaves the stored result and error as they were; any other is
        answered once it is on disk, unless that last write fails. */
    ghost predicate Filed(c: CallId, job: JobId, reply: Answer, before: Saved)
      reads deployment
    {
      && c in deployment.state.calls
      && var stored := deployment.state.On(job);
      match deployment.state.calls[c].failure
      case None => true
      case Some(f) =>
        if f.retryable || f.code == "deadline_exceeded" then
          reply == Refused(f) && stored.result == before.result && stored.error == before.error
        else
          || (reply == Refused(f) && stored.error == Some(f))
          || (WriteFailed(reply) && stored.error in {before.error, Some(f)})
    }

    ghost predicate Failed(c: CallId, job: JobId, spec: Spec, mem: Saved, failure: Failure)
      reads deployment
    {
      At(c, job, spec, Rejecting, mem) && deployment.state.calls[c].failure == Some(failure)
    }

    ghost predicate NoFailure(c: CallId)
      reads deployment
    {
      c in deployment.state.calls && deployment.state.calls[c].failure.None?
    }

    /** While call c works on the job there is neither a result nor an error on disk. */
    lemma NothingStored(c: CallId, job: JobId, spec: Spec, phase: Phase, mem: Saved)
      requires At(c, job, spec, phase, mem) && HasModelLock(phase)
      ensures deployment.state.On(job).result.None? && deployment.state.On(job).error.None?
    {
      InvRun(deployment.steps);
      assert Agrees(deployment.state.On(job), deployment.state.log, deployment.state.calls[c]);
    }

    /** Others run while call c works on the job. */
    method PauseAt(c: CallId, job: JobId, spec: Spec, phase: Phase, mem: Saved)
      requires At(c, job, spec, phase, mem)
      modifies deployment
      ensures At(c, job, spec, phase, mem) && deployment.state.calls[c] == old(deployment.state.calls[c])
      ensures HasJobLock(phase) ==> deployment.state.On(job) == old(deployment.state).On(job)
    {
      hide Run;
      deployment.Pause(c);
    }

    method PauseFailed(c: CallId, job: JobId, spec: Spec, mem: Saved, failure: Failure)
      requires Failed(c, job, spec, mem, failure)
      modifies deployment
      ensures Failed(c, job, spec, mem, failure)
    {
      hide Run;
      deployment.Pause(c);
    }

    /** _call_daemon: connect, record that the model may be running, and only then write the request. */
    method CallDaemon(c: CallId, job: JobId, spec: Spec, mem: Saved)
        returns (response: Option<Response>, failure: Failure, after: Saved)
      requires At(c, job, spec, Connecting, mem)
      modifies deployment
      ensures response.Some? ==>
                At(c, job, spec, Answered, after) && after == mem.(response := response, running := false)
      ensures response.None? ==>
                Failed(c, job, spec, after, failure) && failure in {NO_SOCKET, NO_ANSWER} && failure.retryable
    {
      response, failure, after := None, NO_SOCKET, mem;
      var connected: bool := *;
      var w: Write := *;
      deployment.Do(WriteRunning(c, connected, w));
      if !connected {
        return;
      }
      after := mem.(running := true);
      if w != Written {
        return;
      }
      deployment.Pause(c);
      failure := NO_ANSWER;
      var ok: bool := *;
      deployment.Do(Send(c, ok));
      if !ok {
        return;
      }
      deployment.Pause(c);
      response := *;
      deployment.Do(Receive(c, response));
      if response.Some? {
        after := mem.(response := response, running := false);
      }
    }

    /** Uploading, with exactly these artifacts done. */
    ghost predicate Uploaded(c: CallId, job: JobId, spec: Spec, mem: Saved, files: map<Name, Meta>, finished: set<Name>)
      reads deployment
    {
      && At(c, job, spec, Uploading, mem)
      && var call := deployment.state.calls[c];
      call.files == files && call.uploaded == finished && !call.failed
    }

    method UploadOne(c: CallId, job: JobId, spec: Spec, mem: Saved, ghost files: map<Name, Meta>,
          ghost finished: set<Name>, name: Name)
      returns (ok: bool)
      requires Uploaded(c, job, spec, mem, files, finished) && name in files && name !in finished
      modifies deployment
      ensures ok ==> Uploaded(c, job, spec, mem, files, finished + {name})
      ensures !ok ==> Failed(c, job, spec, mem, UPLOAD_FAILED)
    {
      deployment.Pause(c);
      ok := *;
      deployment.Do(Upload(c, name, ok));
      if !ok {
        deployment.Do(GiveUp(c));
      }
    }

    /** _upload_result: check the response and its artifacts, then upload every one of them. */
    method UploadResult(c: CallId, job: JobId, spec: Spec, mem: Saved)
        returns (result: Option<Artifacts>, failure: Failure)
      requires At(c, job, spec, Judging, mem) && mem.response.Some?
      modifies deployment
      ensures result.Some? ==> At(c, job, spec, Keeping, mem.(result := result))
      ensures result.None? ==> Failed(c, job, spec, mem, failure)
    {
      var verdict: Verdict := *;
      if !Judges(mem.response.value, verdict) {
        verdict := Rejected(Failure("model_error", "model did not complete inference", false));
      }
      deployment.Do(Judge(c, verdict));
      if verdict.Rejected? {
        return None, verdict.failure;
      }
      var files := verdict.files;
      var todo := files.Keys;
      while todo != {}
        invariant todo <= files.Keys && Uploaded(c, job, spec, mem, files, files.Keys - todo)
      {
        var name :| name in todo;
        assert files.Keys - todo + {name} == files.Keys - (todo - {name});
        var ok := UploadOne(c, job, spec, mem, files, files.Keys - todo, name);
        if !ok {
          return None, UPLOAD_FAILED;
        }
        todo := todo - {name};
      }
      assert files.Keys - todo == files.Keys;
      deployment.Do(Uploads(c));
      result, failure := Some(Artifacts(files)), UPLOAD_FAILED;
    }

    /** The download of the input; the deadline is checked after it. */
    method DownloadInput(c: CallId, job: JobId, spec: Spec, mem: Saved) returns (failure: Option<Failure>)
      requires At(c, job, spec, Fetching, mem)
      modifies deployment
      ensures failure.None? ==> At(c, job, spec, Connecting, mem)
      ensures failure.Some? ==> Failed(c, job, spec, mem, failure.value)
    {
      var got: Got := *;
      if got.Unusable? && !Permanent(got.failure) {
        got := Unreachable;
      }
      deployment.Do(Download(c, got));
      match got
      case Fetched => failure := None;
      case Unusable(f) => failure := Some(f);
      case Unreachable => failure := Some(DOWNLOAD_FAILED);
      case Inactive => failure := Some(EXPIRED);
    }

    /** Download the input, ask the model, and save its response. */
    method AskModel(c: CallId, job: JobId, spec: Spec, mem: Saved) returns (ending: Option<Ending>, after: Saved)
      requires At(c, job, spec, Fetching, mem)
      modifies deployment
      ensures match ending
        case None => after.response.Some? && At(c, job, spec, Judging, after)
        case Some(Error(failure)) => Failed(c, job, spec, after, failure)
        case Some(Unexpected) => Replied(c, Refused(BROKEN)) && NoFailure(c)
        case Some(Result(_)) => false
    {
      hide Run, Enabled, Next, Deployment.Valid, State.On, At, Replied, Failed, NoFailure;
      var stopped := DownloadInput(c, job, spec, mem);
      if stopped.Some? {
        return Some(Error(stopped.value)), mem;
      }
      PauseAt(c, job, spec, Connecting, mem);
      var response, failed, uncertain := CallDaemon(c, job, spec, mem);
      after := uncertain;
      if response.None? {
        return Some(Error(failed)), after;
      }
      PauseAt(c, job, spec, Answered, after);
      ending := KeepResponse(c, job, spec, after);
    }

    method KeepResponse(c: CallId, job: JobId, spec: Spec, mem: Saved) returns (ending: Option<Ending>)
      requires At(c, job, spec, Answered, mem)
      modifies deployment
      ensures match ending
        case None => At(c, job, spec, Judging, mem)
        case Some(Error(failure)) => Failed(c, job, spec, mem, failure)
        case Some(Unexpected) => Replied(c, Refused(BROKEN)) && NoFailure(c)
        case Some(Result(_)) => false
    {
      hide Run;
      var w: Write := *;
      deployment.Do(WriteResponse(c, w));
      ending := if w == Written then None else if w == Forbidden then Some(Error(BAD_PATH)) else Some(Unexpected);
    }

    /** The body of the try statement in _execute. */
    method Attempt(c: CallId, job: JobId, spec: Spec, mem: Saved) returns (ending: Ending, after: Saved)
      requires At(c, job, spec, if mem.response.Some? then Judging else Fetching, mem)
      modifies deployment
      ensures match ending
        case Result(r) => Replied(c, Value(r)) && Recorded(job, Value(r)) && NoFailure(c)
        case Error(failure) => Failed(c, job, spec, after, failure)
        case Unexpected => Replied(c, Refused(BROKEN)) && NoFailure(c)
    {
      hide Run, Enabled, Next, Deployment.Valid, State.On, At, Replied, Recorded, Failed, NoFailure;
      after := mem;
      if after.response.None? {
        var stopped;
        stopped, after := AskModel(c, job, spec, mem);
        if stopped.Some? {
          return stopped.value, after;
        }
      }
      PauseAt(c, job, spec, Judging, after);
      var result, failure := UploadResult(c, job, spec, after);
      if result.None? {
        return Error(failure), after;
      }
      after := after.(result := result);
      PauseAt(c, job, spec, Keeping, after);
      ending := KeepResult(c, job, spec, after, result.value);
    }

    method KeepResult(c: CallId, job: JobId, spec: Spec, mem: Saved, result: Artifacts) returns (ending: Ending)
      requires At(c, job, spec, Keeping, mem) && mem.result == Some(result)
      modifies deployment
      ensures match ending
        case Result(r) => r == result && Replied(c, Value(r)) && Recorded(job, Value(r)) && NoFailure(c)
        case Error(failure) => Failed(c, job, spec, mem, failure)
        case Unexpected => Replied(c, Refused(BROKEN)) && NoFailure(c)
    {
      hide Run;
      var w: Write := *;
      deployment.Do(WriteResult(c, w));
      ending := if w == Written then Ending.Result(result) else if w == Forbidden then Error(BAD_PATH) else Unexpected;
    }

    /** Name the specification on disk. */
    method Start(c: CallId, job: JobId, spec: Spec, mem: Saved) returns (started: bool, reply: Answer)
      requires At(c, job, spec, Starting, mem)
      modifies deployment
      ensures started ==>
                At(c, job, spec, if mem.response.Some? then Judging else Fetching, mem.(spec := Some(spec)))
      ensures !started ==> Replied(c, reply) && NoFailure(c) && WriteFailed(reply)
    {
      var w: Write := *;
      deployment.Do(WriteStart(c, w));
      started, reply := w == Written, Refused(if w == Forbidden then BAD_PATH else BROKEN);
    }

    /** The handler of _execute: record a failure that no retry can mend, and raise it. */
    method Reject(c: CallId, job: JobId, spec: Spec, mem: Saved, failure: Failure, ghost before: Saved)
      returns (reply: Answer)
      requires Failed(c, job, spec, mem, failure) && before.result.None? && before.error.None?
      modifies deployment
      ensures Replied(c, reply) && Recorded(job, reply) && Filed(c, job, reply, before)
      ensures deployment.state.calls[c].failure == Some(failure) && !NoFailure(c)
    {
      hide Run;
      NothingStored(c, job, spec, Rejecting, mem);
      if Permanent(failure) {
        var w: Write := *;
        deployment.Do(WriteError(c, w));
        reply := Refused(if w == Written then failure else if w == Forbidden then BAD_PATH else BROKEN);
      } else {
        deployment.Do(Fail(c));
        reply := Refused(failure);
      }
    }

    lemma NothingFiled(c: CallId, job: JobId, reply: Answer, before: Saved)
      requires NoFailure(c)
      ensures Filed(c, job, reply, before)
    {
    }

    lemma FailedWrite(c: CallId, job: JobId, reply: Answer)
      requires WriteFailed(reply)
      ensures Recorded(job, reply)
    {
    }

    /** _execute: name the specification, run the body, and deal with the failure it ends with, if any. */
    method Execute(c: CallId, job: JobId, spec: Spec, mem: Saved) returns (reply: Answer)
      requires At(c, job, spec, Starting, mem)
      modifies deployment
      ensures Replied(c, reply) && Recorded(job, reply) && Filed(c, job, reply, old(deployment.state).On(job))
      ensures NoFailure(c) ==> reply.Value? || WriteFailed(reply)
    {
      hide Run, Enabled, Next, Deployment.Valid, State.On, At, Replied, Recorded, Filed, Failed;
      ghost var before := deployment.state.On(job);
      NothingStored(c, job, spec, Starting, mem);
      var started;
      started, reply := Start(c, job, spec, mem);
      if !started {
        NothingFiled(c, job, reply, before);
        FailedWrite(c, job, reply);
        return;
      }
      var named := mem.(spec := Some(spec));
      PauseAt(c, job, spec, if mem.response.Some? then Judging else Fetching, named);
      var ending, after := Attempt(c, job, spec, named);
      match ending {
        case Result(r) =>
          reply := Value(r);
          NothingFiled(c, job, reply, before);
        case Unexpected =>
          reply := Refused(BROKEN);
          NothingFiled(c, job, reply, before);
          FailedWrite(c, job, reply);
        case Error(failure) =>
          PauseFailed(c, job, spec, after, failure);
          reply := Reject(c, job, spec, after, failure, before);
      }
    }

    /** The answers of a call that never failed in the body of _execute. */
    predicate Turned(job: JobId, reply: Answer)
      reads deployment
    {
      || reply.Value? || WriteFailed(reply)
      || reply.failure in {Failure("already_running", "job is already running", true),
                           Failure("already_running", "existing model execution is unresolved", true),
                           Failure("worker_busy", "model worker is busy", true),
                           Failure("spec_conflict", "job spec differs from its immutable fingerprint", false)}
      || deployment.state.On(job).error == Some(reply.failure)
    }

    /** process: one call, from its entry to its answer. If the job already had an outcome when the call
        came in, the call answers with it, or finds the lock taken, or another specification; and nothing
        is done for the job. A call that did not get as far as failing answers with the stored outcome, a refusal
        that may be tried again, or what its last write came to. */
    method Process(c: CallId, job: JobId, spec: Spec) returns (reply: Answer)
      requires deployment.Valid() && c !in deployment.state.calls
      modifies deployment
      ensures Replied(c, reply) && Recorded(job, reply) && Filed(c, job, reply, old(deployment.state).On(job))
      ensures NoFailure(c) ==> Turned(job, reply)
      ensures var before := old(deployment.state).On(job);
              before.result.Some? || before.error.Some? ==>
                && Untouched(old(deployment.state), deployment.state, job)
                && (|| reply == (if before.result.Some? then Value(before.result.value)
                                 else Refused(before.error.value))
                    || reply == Refused(Failure("already_running", "job is already running", true))
                    || reply == Refused(SPEC_CONFLICT))
    {
      hide Run, Enabled, Next, Deployment.Valid, State.On, At, Replied, Recorded, Filed, Turned, NoFailure;
      ghost var before := deployment.state;
      var free := Begin(c, job, spec);
      ghost var locked := deployment.state;
      if free {
        reply := Locked(c, job, spec);
        if NoFailure(c) {
          NothingFiled(c, job, reply, before.On(job));
        } else {
          NothingBefore(before, locked, job);
          FiledSince(c, job, reply, locked.On(job), before.On(job));
        }
      } else {
        reply := Refused(ALREADY_RUNNING);
        NothingFiled(c, job, reply, before.On(job));
      }
    }

    lemma NothingBefore(before: State, locked: State, job: JobId)
      requires before.On(job).Outcome().Some? ==> Untouched(before, locked, job)
      requires locked.On(job).Outcome().None?
      ensures before.On(job).Outcome().None?
    {
    }

    lemma FiledSince(c: CallId, job: JobId, reply: Answer, one: Saved, two: Saved)
      requires Filed(c, job, reply, one) && one.Outcome().None? && two.Outcome().None?
      ensures Filed(c, job, reply, two)
    {
    }

    /** Enter, and take the job's lock if it is free. */
    method Begin(c: CallId, job: JobId, spec: Spec) returns (free: bool)
      requires deployment.Valid() && c !in deployment.state.calls
      modifies deployment
      ensures old(deployment.state).On(job).Outcome().Some? ==>
                Untouched(old(deployment.state), deployment.state, job)
      ensures free ==> At(c, job, spec, Phase.Locked, Blank)
      ensures !free ==>
                && Replied(c, Refused(ALREADY_RUNNING)) && Recorded(job, Refused(ALREADY_RUNNING)) && NoFailure(c)
                && Turned(job, Refused(ALREADY_RUNNING))
    {
      hide Run;
      deployment.Do(Enter(c, job, spec));
      ghost var entered := deployment.state;
      deployment.Pause(c);
      ghost var paused := deployment.state;
      free := job !in deployment.state.jobLock;
      deployment.Do(LockJob(c));
      assert Untouched(old(deployment.state), entered, job);
      assert entered.On(job).Outcome().Some? ==> Untouched(entered, paused, job);
      assert Untouched(paused, deployment.state, job);
    }

    /** The part of process that holds the job's lock. */
    method Locked(c: CallId, job: JobId, spec: Spec) returns (reply: Answer)
      requires At(c, job, spec, Phase.Locked, Blank)
      modifies deployment
      ensures Replied(c, reply) && Recorded(job, reply) && Filed(c, job, reply, old(deployment.state).On(job))
      ensures NoFailure(c) ==> Turned(job, reply)
      ensures !NoFailure(c) ==> old(deployment.state).On(job).Outcome().None?
      ensures var before := old(deployment.state).On(job);
              before.Outcome().Some? ==>
                Untouched(old(deployment.state), deployment.state, job)
                    && reply in {before.Outcome().value, Refused(SPEC_CONFLICT)}
    {
      hide Run, Enabled, Next, Deployment.Valid, State.On, At, Replied, Recorded, Filed, Turned, NoFailure;
      ghost var before := deployment.state.On(job);
      var saved, answered;
      saved, answered, reply := ReadState(c, job, spec);
      if answered {
        NothingFiled(c, job, reply, before);
      } else {
        reply := Continue(c, job, spec, saved);
      }
    }

    /** Load state.json; answer at once if it is another specification's or has the outcome. */
    method ReadState(c: CallId, job: JobId, spec: Spec) returns (saved: Saved, answered: bool, reply: Answer)
      requires At(c, job, spec, Phase.Locked, Blank)
      modifies deployment
      ensures saved == old(deployment.state).On(job) && deployment.state.On(job) == saved
      ensures saved.Outcome().Some? ==> Untouched(old(deployment.state), deployment.state, job)
      ensures !answered ==> At(c, job, spec, Loaded, saved) && saved.Outcome().None?
      ensures answered ==>
                && Replied(c, reply) && Recorded(job, reply) && NoFailure(c) && Turned(job, reply)
                && (reply == if saved.spec != Some(spec) then Refused(SPEC_CONFLICT) else
                      saved.Outcome().GetOr(reply))
      ensures saved.Outcome().Some? ==> answered && reply in {saved.Outcome().value, Refused(SPEC_CONFLICT)}
    {
      hide Run;
      ghost var entered := deployment.state;
      deployment.Pause(c);
      assert entered.On(job).Outcome().Some? ==> Untouched(entered, deployment.state, job);
      saved := deployment.state.On(job);
      deployment.Do(Load(c));
      answered, reply := true, Refused(SPEC_CONFLICT);
      if saved != Blank && saved.spec != Some(spec) {
        return;
      }
      if saved.result.Some? {
        return saved, true, Value(saved.result.value);
      }
      if saved.error.Some? {
        return saved, true, Refused(saved.error.value);
      }
      answered := false;
    }

    /** A response for a model that may have run already: none is needed, one is recovered, or the call stops. */
    method Recover(c: CallId, job: JobId, spec: Spec, saved: Saved, outExists: bool)
      returns (mem: Saved, resolved: bool)
      requires At(c, job, spec, Loaded, saved)
      modifies deployment
      ensures deployment.state.On(job) == old(deployment.state).On(job)
      ensures saved.response.Some? || (!saved.running && !outExists) ==> resolved && mem == saved
      ensures saved.response.None? && outExists && !saved.running ==> !resolved
      ensures resolved ==> At(c, job, spec, Resolved, mem)
      ensures !resolved ==>
                && Replied(c, Refused(UNRESOLVED)) && Recorded(job, Refused(UNRESOLVED)) && NoFailure(c)
                && Turned(job, Refused(UNRESOLVED))
    {
      hide Run;
      mem, resolved := saved, true;
      if mem.response.None? && (mem.running || outExists) {
        var report: Option<Response> := *;
        var recovered := if mem.running && report.Some? && report.value.ok then report else None;
        deployment.Do(Resolve(c, outExists, recovered));
        mem, resolved := mem.(response := recovered, running := false), recovered.Some?;
      } else {
        deployment.Do(Resolve(c, outExists, None));
      }
    }

    method TakeModel(c: CallId, job: JobId, spec: Spec, mem: Saved) returns (idle: bool)
      requires At(c, job, spec, Resolved, mem)
      modifies deployment
      ensures deployment.state.On(job) == old(deployment.state).On(job)
      ensures idle ==> At(c, job, spec, Starting, mem)
      ensures !idle ==>
                && Replied(c, Refused(MODEL_BUSY)) && Recorded(job, Refused(MODEL_BUSY)) && NoFailure(c)
                && Turned(job, Refused(MODEL_BUSY))
    {
      hide Run;
      idle := deployment.state.modelLock.None?;
      deployment.Do(LockModel(c));
    }

    lemma TurnedByWrite(job: JobId, reply: Answer)
      requires reply.Value? || WriteFailed(reply)
      ensures Turned(job, reply)
    {
    }

    /** Recover a response if one is missing, take the model lock, and execute. */
    method Continue(c: CallId, job: JobId, spec: Spec, saved: Saved) returns (reply: Answer)
      requires At(c, job, spec, Loaded, saved)
      modifies deployment
      ensures Replied(c, reply) && Recorded(job, reply) && Filed(c, job, reply, old(deployment.state).On(job))
      ensures NoFailure(c) ==> Turned(job, reply)
    {
      hide Run, Enabled, Next, Deployment.Valid, State.On, At, Replied, Recorded, Filed, Turned, NoFailure, WriteFailed;
      ghost var before := deployment.state.On(job);
      PauseAt(c, job, spec, Loaded, saved);
      var outExists: bool := *;
      var mem, resolved := Recover(c, job, spec, saved, outExists);
      if !resolved {
        reply := Refused(UNRESOLVED);
        NothingFiled(c, job, reply, before);
        return;
      }
      PauseAt(c, job, spec, Resolved, mem);
      var idle := TakeModel(c, job, spec, mem);
      if !idle {
        reply := Refused(MODEL_BUSY);
        NothingFiled(c, job, reply, before);
        return;
      }
      PauseAt(c, job, spec, Starting, mem);
      reply := Execute(c, job, spec, mem);
      if NoFailure(c) {
        TurnedByWrite(job, reply);
      }
    }
  }
}
