/** Theorems about every run of the bridge: any number of calls, restarts and crashes, in any order. */
module BridgeRuns {
  import opened Wrappers
  import opened BridgeProtocol

  /** A step that is not possible in a state does nothing, so every list of steps is a run. */
  function Perform(s: State, step: Step): State {
    if Enabled(s, step) then Next(s, step) else s
  }

  function Run(steps: seq<Step>): State {
    if steps == [] then Idle else Perform(Run(steps[..|steps| - 1]), steps[|steps| - 1])
  }

  lemma {:induction false} InvRun(steps: seq<Step>)
    ensures Inv(Run(steps))
  {
    if steps != [] {
      InvRun(steps[..|steps| - 1]);
      var s, step := Run(steps[..|steps| - 1]), steps[|steps| - 1];
      if Enabled(s, step) {
        InvStep(s, step);
      }
    }
  }

  /** The model is asked at most once for one job, whatever calls, crashes and restarts happen; and once it
      has been asked, the job's file says so. */
  lemma OneRequest(steps: seq<Step>, j: JobId)
    ensures Requests(Run(steps).log, j) <= 1
    ensures Requests(Run(steps).log, j) == 1 ==> Run(steps).On(j).running || Run(steps).On(j).response.Some?
  {
    InvRun(steps);
    assert JobInv(Run(steps).On(j), Run(steps).log, j);
  }

  /** A result is on disk only when every artifact it lists has been uploaded, the required ones among them. */
  lemma ResultAfterUploads(steps: seq<Step>, j: JobId, name: Name)
    requires Run(steps).On(j).result.Some?
    ensures var artifacts := Run(steps).On(j).result.value.artifacts;
            && {"final.vital", "final.unified.json", "final.wav", "result.json"} <= artifacts.Keys
            && (name in artifacts ==> Put(j, name, true) in Run(steps).log)
  {
    InvRun(steps);
    assert JobInv(Run(steps).On(j), Run(steps).log, j);
  }

  /** Neither an expired deadline nor a failure that a retry may mend is ever recorded as the job's outcome. */
  lemma RecordedErrorsArePermanent(steps: seq<Step>, j: JobId)
    requires Run(steps).On(j).error.Some?
    ensures !Run(steps).On(j).error.value.retryable && Run(steps).On(j).error.value.code != "deadline_exceeded"
  {
    InvRun(steps);
    assert JobInv(Run(steps).On(j), Run(steps).log, j);
  }

  /** Between taking the job's lock and the answer. */
  predicate Busy(p: Phase) {
    p in {Locked, Loaded, Resolved} || Executing(p)
  }

  /** Inside _execute. */
  predicate Executing(p: Phase) {
    || p == Starting || p == Fetching || p == Connecting || p == Sending || p == Waiting || p == Answered
    || p == Judging || p == Uploading || p == Keeping || p == Rejecting
  }

  /** Only one call works on a job at a time, and only one uses the model. */
  lemma OneHolder(steps: seq<Step>, c: CallId, d: CallId)
    requires var s := Run(steps); c in s.calls && d in s.calls
    ensures var s := Run(steps);
            && (Busy(s.calls[c].phase) && Busy(s.calls[d].phase) && s.calls[c].job == s.calls[d].job ==> c == d)
            && (Executing(s.calls[c].phase) && Executing(s.calls[d].phase) ==> c == d)
  {
    InvRun(steps);
  }

  // ---------------------------------------------------------------------------------------------
  // Outcomes are final
  // ---------------------------------------------------------------------------------------------

  /** Nothing about a job is written, fetched, asked or uploaded between two states. */
  predicate Untouched(s: State, t: State, j: JobId) {
    && t.On(j) == s.On(j)
    && s.log <= t.log && forall i | |s.log| <= i < |t.log| :: t.log[i].job != j
  }

  lemma SettledStep(s: State, step: Step, j: JobId)
    requires Inv(s) && Enabled(s, step) && s.On(j).Outcome().Some?
    ensures Untouched(s, Next(s, step), j)
  {
    hide JobInv, Agrees, LocksInv;
    if step.Enter? || step.LockJob? {
      OutsiderStep(s, step);
    } else if !step.Crash? {
      HoldsLock(s, step);
      HolderStep(s, step);
      if s.calls[step.c].job == j {
        LockedOnly(s, step.c);
      }
    }
  }

  /** A call that holds the lock of a job with an outcome has not read the file yet. */
  lemma LockedOnly(s: State, c: CallId)
    requires Local(s, c) && s.On(s.calls[c].job).Outcome().Some?
    ensures s.calls[c].phase == Locked
  {
  }

  lemma SpecStep(s: State, step: Step, j: JobId)
    requires Inv(s) && Enabled(s, step) && s.On(j).spec.Some?
    ensures Next(s, step).On(j).spec == s.On(j).spec
  {
    if step.Enter? || step.LockJob? {
      OutsiderStep(s, step);
    } else if !step.Crash? {
      HoldsLock(s, step);
      HolderStep(s, step);
    }
  }

  /** Once a result or a permanent error is on disk, nothing about the job happens any more: the file stays
      as it is, and there is no further download, request or upload for it. */
  lemma {:induction false} OutcomeIsFinal(steps: seq<Step>, m: nat, n: nat, j: JobId)
    requires m <= n <= |steps| && (Run(steps[..m]).On(j).result.Some? || Run(steps[..m]).On(j).error.Some?)
    ensures Untouched(Run(steps[..m]), Run(steps[..n]), j)
    decreases n
  {
    if m < n {
      OutcomeIsFinal(steps, m, n - 1, j);
      assert steps[..n][..n - 1] == steps[..n - 1];
      InvRun(steps[..n - 1]);
      var s, step := Run(steps[..n - 1]), steps[n - 1];
      if Enabled(s, step) {
        SettledStep(s, step, j);
      }
    }
  }

  /** The specification of a job is fixed by its first call. */
  lemma {:induction false} SpecIsFixed(steps: seq<Step>, m: nat, n: nat, j: JobId)
    requires m <= n <= |steps| && Run(steps[..m]).On(j).spec.Some?
    ensures Run(steps[..n]).On(j).spec == Run(steps[..m]).On(j).spec
    decreases n
  {
    if m < n {
      SpecIsFixed(steps, m, n - 1, j);
      assert steps[..n][..n - 1] == steps[..n - 1];
      InvRun(steps[..n - 1]);
      var s, step := Run(steps[..n - 1]), steps[n - 1];
      if Enabled(s, step) {
        SpecStep(s, step, j);
      }
    }
  }

  /** Every later call that gets the job's lock and reads the file answers with that outcome if it has the
      same specification, and with a conflict otherwise; it does so at once. */
  lemma LaterCallsAgree(steps: seq<Step>, m: nat, n: nat, c: CallId)
    requires m <= n < |steps| && steps[n] == Load(c) && Enabled(Run(steps[..n]), Load(c))
    requires var saved := Run(steps[..m]).On(Run(steps[..n]).calls[c].job); saved.result.Some? || saved.error.Some?
    ensures
      var call, saved := Run(steps[..n]).calls[c], Run(steps[..m]).On(Run(steps[..n]).calls[c].job);
      && c in Run(steps[..n + 1]).calls
      && var after := Run(steps[..n + 1]).calls[c];
      && after.phase == Over
      && after.reply == Some(
           if saved.spec != Some(call.spec) then
             Refused(Failure("spec_conflict", "job spec differs from its immutable fingerprint", false))
           else if saved.result.Some? then Value(saved.result.value) else Refused(saved.error.value))
  {
    var j := Run(steps[..n]).calls[c].job;
    OutcomeIsFinal(steps, m, n, j);
    assert steps[..n + 1][..n] == steps[..n];
    assert Run(steps[..n]).On(j) != Blank;
  }

  // ---------------------------------------------------------------------------------------------
  // Where recorded errors come from
  // ---------------------------------------------------------------------------------------------

  /** The observations that can end a job for good: a response or artifact that was rejected, an input that
      can not be used, or a path that is not the deployment's own. */
  predicate Condemns(step: Step, e: Failure) {
    match step
    case Judge(_, Rejected(f)) => f == e
    case Download(_, Unusable(f)) => f == e
    case WriteResponse(_, w) => w == Forbidden && e == PathFailure()
    case WriteResult(_, w) => w == Forbidden && e == PathFailure()
    case _ => false
  }

  function PathFailure(): Failure {
    Failure("invalid_artifacts", "local path is outside deployment or contains a symlink", false)
  }

  /** Step i of the run condemned the job. */
  predicate CondemnedAt(steps: seq<Step>, i: nat, j: JobId, e: Failure)
    requires i < |steps|
  {
    && Enabled(Run(steps[..i]), steps[i]) && Condemns(steps[i], e)
    && steps[i].c in Run(steps[..i]).calls && Run(steps[..i]).calls[steps[i].c].job == j
  }

  /** Call c is about to fail with an error that would be recorded. */
  predicate Doomed(s: State, c: CallId, e: Failure) {
    && c in s.calls && s.calls[c].phase == Rejecting && s.calls[c].failure == Some(e)
    && !e.retryable && e.code != "deadline_exceeded"
  }

  /** Only the call that takes a step changes. */
  lemma Bystander(s: State, step: Step, c: CallId)
    requires Inv(s) && Enabled(s, step) && !(!step.Crash? && step.c == c)
    ensures c in Next(s, step).calls ==> c in s.calls && Next(s, step).calls[c] == s.calls[c]
    ensures c in s.calls && (step.Crash? ==> c !in step.lost) ==> c in Next(s, step).calls
  {
    hide JobInv, Agrees, LocksInv;
    if step.Enter? || step.LockJob? {
      OutsiderStep(s, step);
    } else if !step.Crash? {
      hide Next, Enabled;
      HoldsLock(s, step);
      HolderStep(s, step);
    }
  }

  lemma DoomStep(s: State, step: Step, e: Failure)
    requires !step.Crash? && Enabled(s, step) && Doomed(Next(s, step), step.c, e)
    ensures Condemns(step, e) && step.c in s.calls && Next(s, step).calls[step.c].job == s.calls[step.c].job
  {
    hide Enabled, Next, Condemns, Doomed;
    if IsWrite(step) {
      DoomByWrite(s, step, e);
    } else {
      DoomByOther(s, step, e);
    }
  }

  lemma DoomByWrite(s: State, step: Step, e: Failure)
    requires IsWrite(step) && Enabled(s, step) && Doomed(Next(s, step), step.c, e)
    ensures Condemns(step, e) && step.c in s.calls && Next(s, step).calls[step.c].job == s.calls[step.c].job
  {
    hide Saves, Finish, Saved.Outcome, State.On, HasJobLock, HasModelLock, Judges, Permanent;
  }

  lemma DoomByOther(s: State, step: Step, e: Failure)
    requires !step.Crash? && !IsWrite(step)
    requires Enabled(s, step) && Doomed(Next(s, step), step.c, e)
    ensures Condemns(step, e) && step.c in s.calls && Next(s, step).calls[step.c].job == s.calls[step.c].job
  {
    hide Saves, Finish, Saved.Outcome, State.On, HasJobLock, HasModelLock, Judges, Permanent;
  }

  lemma ErrorStep(s: State, step: Step, j: JobId)
    requires Inv(s) && Enabled(s, step) && Next(s, step).On(j).error.Some? && s.On(j).error.None?
    ensures step.WriteError? && s.calls[step.c].job == j && Doomed(s, step.c, Next(s, step).On(j).error.value)
  {
    hide JobInv, LocksInv;
    if step.Enter? || step.LockJob? {
      OutsiderStep(s, step);
    } else if !step.Crash? {
      HoldsLock(s, step);
      if IsWrite(step) {
        NoErrorInMemory(s.On(s.calls[step.c].job), s.log, s.calls[step.c], step);
        WriterStep(s, step, j);
      } else {
        ReaderStep(s, step, j);
      }
    }
  }

  predicate IsWrite(step: Step) {
    step.WriteStart? || step.WriteRunning? || step.WriteResponse? || step.WriteResult? || step.WriteError?
  }

  lemma ReaderStep(s: State, step: Step, j: JobId)
    requires Enabled(s, step) && !IsWrite(step)
    ensures Next(s, step).On(j) == s.On(j)
  {
    hide Saves, Saved.Outcome, HasJobLock, HasModelLock, Judges, Permanent;
  }

  lemma NoErrorInMemory(saved: Saved, log: seq<Action>, call: Call, step: Step)
    requires IsWrite(step) && call.phase == From(step) && Agrees(saved, log, call)
    ensures step.WriteError? || call.mem.error.None?
  {
    hide Requests, AllStored;
  }

  /** Only an error being recorded adds one to the file. */
  lemma WriterStep(s: State, step: Step, j: JobId)
    requires IsWrite(step) && Enabled(s, step) && (step.WriteError? || s.calls[step.c].mem.error.None?)
    requires Next(s, step).On(j).error.Some? && s.On(j).error.None?
    ensures step.WriteError? && s.calls[step.c].job == j && Doomed(s, step.c, Next(s, step).On(j).error.value)
  {
    hide HasJobLock, HasModelLock, Judges;
  }

  ghost predicate Condemned(steps: seq<Step>, j: JobId, e: Failure) {
    exists i | 0 <= i < |steps| :: CondemnedAt(steps, i, j, e)
  }

  lemma CondemnedLater(steps: seq<Step>, n: nat, j: JobId, e: Failure)
    requires n <= |steps| && Condemned(steps[..n], j, e)
    ensures Condemned(steps, j, e)
  {
    var i :| 0 <= i < n && CondemnedAt(steps[..n], i, j, e);
    assert steps[..n][..i] == steps[..i];
    assert CondemnedAt(steps, i, j, e);
  }

  lemma {:induction false} DoomIsCaused(steps: seq<Step>, c: CallId, e: Failure)
    requires Doomed(Run(steps), c, e)
    ensures Condemned(steps, Run(steps).calls[c].job, e)
    decreases |steps|
  {
    var n := |steps| - 1;
    var s, step := Run(steps[..n]), steps[n];
    hide Condemns, Enabled, Next;
    InvRun(steps[..n]);
    if Enabled(s, step) && !step.Crash? && step.c == c {
      DoomStep(s, step, e);
      assert CondemnedAt(steps, n, s.calls[c].job, e);
    } else {
      if Enabled(s, step) {
        Bystander(s, step, c);
      }
      DoomIsCaused(steps[..n], c, e);
      CondemnedLater(steps, n, s.calls[c].job, e);
    }
  }

  /** Every recorded error was observed for the job: a rejected response or artifact, an unusable input, or a
      path outside the deployment. A download, connection, upload or model that failed is never one. */
  lemma {:induction false} RecordedErrorsHaveACause(steps: seq<Step>, j: JobId)
    requires Run(steps).On(j).error.Some?
    ensures exists i | 0 <= i < |steps| :: CondemnedAt(steps, i, j, Run(steps).On(j).error.value)
    decreases |steps|
  {
    var n := |steps| - 1;
    var s, step := Run(steps[..n]), steps[n];
    hide Condemns, CondemnedAt, Enabled, Next;
    var e := Run(steps).On(j).error.value;
    if s.On(j).error.Some? {
      OutcomeIsFinal(steps, n, n + 1, j);
      assert steps[..n + 1] == steps;
      RecordedErrorsHaveACause(steps[..n], j);
      CondemnedLater(steps, n, j, e);
    } else {
      InvRun(steps[..n]);
      ErrorStep(s, step, j);
      DoomIsCaused(steps[..n], step.c, e);
      CondemnedLater(steps, n, j, e);
    }
  }

  // ---------------------------------------------------------------------------------------------
  // An expired deadline
  // ---------------------------------------------------------------------------------------------

  predicate Expiring(s: State, c: CallId) {
    c in s.calls
    && var f := Failure("deadline_exceeded", "request deadline exceeded", false);
    || (s.calls[c].phase == Rejecting && s.calls[c].failure == Some(f))
    || (s.calls[c].phase == Over
        && (s.calls[c].reply == Some(Refused(f))
            || s.calls[c].reply == Some(Refused(Failure("worker_error", "unexpected worker failure", true)))))
  }

  lemma ExpiringStep(s: State, step: Step)
    requires !step.Crash? && Enabled(s, step) && Expiring(s, step.c)
    ensures Expiring(Next(s, step), step.c)
  {
    hide Saves, Finish, Saved.Outcome, State.On, HasJobLock, HasModelLock, Judges;
  }

  lemma ExpiryBegins(s: State, c: CallId)
    requires Enabled(s, Download(c, Inactive))
    ensures Expiring(Next(s, Download(c, Inactive)), c)
  {
  }

  lemma NothingMore(s: State, c: CallId)
    requires Expiring(s, c)
    ensures forall w :: !Enabled(s, WriteError(c, w))
    ensures forall ok :: !Enabled(s, Send(c, ok))
  {
  }

  lemma ExpiringStill(s: State, step: Step, c: CallId)
    requires Inv(s) && Enabled(s, step) && Expiring(s, c) && !(!step.Crash? && step.c == c)
    requires step.Crash? ==> c !in step.lost
    ensures Expiring(Next(s, step), c)
  {
    hide Inv, Enabled, Next;
    Bystander(s, step, c);
  }

  /** A call whose deadline had passed after the download has nothing more to do than to say so: it records
      no error, and sends no request. */
  lemma {:induction false} ExpiryIsNotRecorded(steps: seq<Step>, n: nat, m: nat, c: CallId)
    requires n < m <= |steps| && steps[n] == Download(c, Inactive) && Enabled(Run(steps[..n]), steps[n])
    requires forall i | n < i < m && steps[i].Crash? :: c !in steps[i].lost
    ensures Expiring(Run(steps[..m]), c)
    ensures forall w :: !Enabled(Run(steps[..m]), WriteError(c, w))
    ensures forall ok :: !Enabled(Run(steps[..m]), Send(c, ok))
    decreases m
  {
    hide Enabled, Next, Expiring;
    assert steps[..m][..m - 1] == steps[..m - 1];
    var s, step := Run(steps[..m - 1]), steps[m - 1];
    if n < m - 1 {
      ExpiryIsNotRecorded(steps, n, m - 1, c);
      if Enabled(s, step) && !step.Crash? && step.c == c {
        ExpiringStep(s, step);
      } else if Enabled(s, step) {
        InvRun(steps[..m - 1]);
        ExpiringStill(s, step, c);
      }
    } else {
      ExpiryBegins(s, c);
    }
    NothingMore(Run(steps[..m]), c);
  }

  // ---------------------------------------------------------------------------------------------
  // An existing output directory
  // ---------------------------------------------------------------------------------------------

  /** Step i of call c found no output directory, no running mark and no response of the job. */
  predicate Vacant(steps: seq<Step>, i: nat, c: CallId)
    requires i < |steps|
  {
    var s := Run(steps[..i]);
    && steps[i].Resolve? && steps[i].c == c && !steps[i].outExists && Enabled(s, steps[i])
    && !s.calls[c].mem.running && s.calls[c].mem.response.None?
  }

  /** Call c is on its way to the model. */
  predicate Heading(s: State, c: CallId) {
    && c in s.calls
    && (|| (s.calls[c].phase in {Resolved, Starting} && s.calls[c].mem.response.None?)
        || s.calls[c].phase in {Fetching, Connecting, Sending})
  }

  lemma HeadingStep(s: State, step: Step)
    requires !step.Crash? && Enabled(s, step) && Heading(Next(s, step), step.c) && !Heading(s, step.c)
    ensures step.Resolve? && !step.outExists && step.c in s.calls
    ensures !s.calls[step.c].mem.running && s.calls[step.c].mem.response.None?
  {
    hide Enabled, Next, Heading;
    if IsWrite(step) {
      HeadingWrite(s, step);
    } else {
      HeadingOther(s, step);
    }
  }

  lemma HeadingWrite(s: State, step: Step)
    requires IsWrite(step) && Enabled(s, step) && Heading(Next(s, step), step.c)
    ensures Heading(s, step.c)
  {
    hide Saves, Finish, Saved.Outcome, State.On, HasJobLock, HasModelLock, Judges, Permanent;
  }

  lemma HeadingOther(s: State, step: Step)
    requires !step.Crash? && !IsWrite(step)
    requires Enabled(s, step) && Heading(Next(s, step), step.c) && !Heading(s, step.c)
    ensures step.Resolve? && !step.outExists && step.c in s.calls
    ensures !s.calls[step.c].mem.running && s.calls[step.c].mem.response.None?
  {
    hide Saves, Finish, Saved.Outcome, State.On, HasJobLock, HasModelLock, Judges, Permanent;
  }

  lemma HeadedBefore(s: State, step: Step, c: CallId)
    requires Inv(s) && Enabled(s, step) && Heading(Next(s, step), c) && !(!step.Crash? && step.c == c)
    ensures Heading(s, c)
  {
    hide Inv, Enabled, Next;
    Bystander(s, step, c);
  }

  /** The model is asked only by a call that found no output directory of the job, no mark of a running model
      and no response. */
  lemma {:induction false} AskedOnlyWhereNothingIs(steps: seq<Step>, c: CallId)
    requires Heading(Run(steps), c)
    ensures exists i | 0 <= i < |steps| :: Vacant(steps, i, c)
    decreases |steps|
  {
    var n := |steps| - 1;
    var s, step := Run(steps[..n]), steps[n];
    hide Enabled, Next, Heading;
    assert steps != [] by { NoneAtStart(c); }
    InvRun(steps[..n]);
    if Enabled(s, step) && !step.Crash? && step.c == c && !Heading(s, c) {
      HeadingStep(s, step);
      assert Vacant(steps, n, c);
    } else {
      if Enabled(s, step) && !(!step.Crash? && step.c == c) {
        HeadedBefore(s, step, c);
      }
      AskedOnlyWhereNothingIs(steps[..n], c);
      VacantLater(steps, n, c);
    }
  }

  lemma VacantLater(steps: seq<Step>, n: nat, c: CallId)
    requires n <= |steps| && exists i | 0 <= i < n :: Vacant(steps[..n], i, c)
    ensures exists i | 0 <= i < |steps| :: Vacant(steps, i, c)
  {
    hide Enabled, Run;
    var i :| 0 <= i < n && Vacant(steps[..n], i, c);
    assert steps[..n][..i] == steps[..i];
    assert Vacant(steps, i, c);
  }

  lemma NoneAtStart(c: CallId)
    ensures !Heading(Run([]), c)
  {
  }

  /** A call that holds the job's lock and has no response: if the model may be running or has left an output
      directory, and nothing is recovered, it stops at once; otherwise it goes on with what the file says. */
  lemma UnresolvedStops(s: State, c: CallId, outExists: bool, recovered: Option<Response>)
    requires Enabled(s, Resolve(c, outExists, recovered))
    ensures
      var call, t := s.calls[c], Next(s, Resolve(c, outExists, recovered));
      && t.disk == s.disk && t.log == s.log
      && (t.calls[c].phase == Over <==> call.mem.response.None? && (call.mem.running || outExists) && recovered.None?)
      && (t.calls[c].phase == Over ==>
            t.calls[c].reply
            == Some(Refused(Failure("already_running", "existing model execution is unresolved", true))))
      && (t.calls[c].phase != Over ==>
            && t.calls[c].phase == Resolved
            && (call.mem.response.Some? || !(call.mem.running || outExists) ==> t.calls[c].mem == call.mem))
  {
  }
}
