/** Calls of V73Worker.process (system/worker_v73.py) against one deployment root, as a transition system.

    `disk` is what survives a crash: the state.json of every job. Everything a call keeps in memory is in
    its Call record and vanishes with it. The two file locks are released when their holder finishes or
    crashes. What other programs do (the model daemon, the object store, the output directory) is chosen
    freely at the step that observes it. */
module BridgeProtocol {
  import opened Wrappers

  type JobId = nat
  type CallId = nat
  type Spec = string            // the fingerprint of a specification
  type Name = string            // an artifact
  type Meta = string            // bucket, key, digest and size of an artifact

  datatype Failure = Failure(code: string, message: string, retryable: bool)

  /** The model daemon's answer, or the one rebuilt from its completed report. */
  datatype Response = Response(ok: bool, status: string)

  datatype Artifacts = Artifacts(artifacts: map<Name, Meta>)

  /** The contents of state.json; Blank stands for a missing file. */
  datatype Saved = Saved(
    spec: Option<Spec>,
    running: bool,
    response: Option<Response>,
    result: Option<Artifacts>,
    error: Option<Failure>
  ) {
    /** What process answers from this file alone. */
    function Outcome(): Option<Answer> {
      if result.Some? then Some(Value(result.value))
      else if error.Some? then Some(Refused(error.value))
      else None
    }

    /** The model may have been asked to run, and this file says so. */
    predicate Committed() {
      running || response.Some?
    }
  }

  const Blank := Saved(None, false, None, None, None)

  datatype Answer = Value(result: Artifacts) | Refused(failure: Failure)

  const REQUIRED: set<Name> := {"final.vital", "final.unified.json", "final.wav", "result.json"}

  const ALREADY_RUNNING := Failure("already_running", "job is already running", true)
  const UNRESOLVED := Failure("already_running", "existing model execution is unresolved", true)
  const NO_ANSWER := Failure("already_running", "daemon result is unresolved", true)
  const MODEL_BUSY := Failure("worker_busy", "model worker is busy", true)
  const SPEC_CONFLICT := Failure("spec_conflict", "job spec differs from its immutable fingerprint", false)
  const NO_SOCKET := Failure("worker_unavailable", "model socket is unavailable", true)
  const DOWNLOAD_FAILED := Failure("storage_error", "input download failed", true)
  const UPLOAD_FAILED := Failure("storage_error", "artifact upload failed", true)
  const EXPIRED := Failure("deadline_exceeded", "request deadline exceeded", false)
  const BAD_PATH := Failure("invalid_artifacts", "local path is outside deployment or contains a symlink", false)
  const BROKEN := Failure("worker_error", "unexpected worker failure", true)

  /** Only a failure that no retry can mend is written to state.json. */
  predicate Permanent(f: Failure) {
    !f.retryable && f.code != "deadline_exceeded"
  }

  /** Where a call is. Every phase between Locked and Rejecting holds the job's lock; those from
      Starting on also hold the model lock. */
  datatype Phase =
    | Entered | Locked | Loaded | Resolved
    | Starting | Fetching | Connecting | Sending | Waiting | Answered | Judging | Uploading | Keeping | Rejecting
    | Over

  datatype Call = Call(
    job: JobId,
    spec: Spec,
    phase: Phase,
    mem: Saved,                     // the state dictionary
    files: map<Name, Meta>,         // the artifacts to upload
    uploaded: set<Name>,
    failed: bool,                   // an upload raised
    failure: Option<Failure>,
    reply: Option<Answer>
  )

  datatype Action =
    | Fetch(job: JobId)                        // an input download
    | Request(job: JobId)                      // a request written to the model daemon's socket
    | Put(job: JobId, name: Name, ok: bool)    // an artifact upload

  datatype State = State(
    disk: map<JobId, Saved>,
    calls: map<CallId, Call>,
    jobLock: map<JobId, CallId>,
    modelLock: Option<CallId>,
    log: seq<Action>                // what was done outside the cache directory, in order
  ) {
    function On(j: JobId): Saved {
      if j in disk then disk[j] else Blank
    }
  }

  const Idle := State(map[], map[], map[], None, [])

  /** How writing state.json can go: replaced; refused with a worker error; or another exception, before
      or after the replacement. */
  datatype Write = Written | Forbidden | Raised(replaced: bool)

  datatype Got = Fetched | Unusable(failure: Failure) | Unreachable | Inactive

  datatype Verdict = Accepted(files: map<Name, Meta>) | Rejected(failure: Failure)

  datatype Step =
    | Enter(c: CallId, job: JobId, spec: Spec)
    | LockJob(c: CallId)
    | Load(c: CallId)
    | Resolve(c: CallId, outExists: bool, recovered: Option<Response>)
    | LockModel(c: CallId)
    | WriteStart(c: CallId, w: Write)
    | Download(c: CallId, got: Got)
    | WriteRunning(c: CallId, connected: bool, w: Write)
    | Send(c: CallId, ok: bool)
    | Receive(c: CallId, response: Option<Response>)
    | WriteResponse(c: CallId, w: Write)
    | Judge(c: CallId, verdict: Verdict)
    | Upload(c: CallId, name: Name, ok: bool)
    | GiveUp(c: CallId)
    | Uploads(c: CallId)
    | WriteResult(c: CallId, w: Write)
    | WriteError(c: CallId, w: Write)
    | Fail(c: CallId)
    | Abort(c: CallId)                       // an unexpected exception ends the call
    | Crash(lost: set<CallId>)

  predicate HasJobLock(p: Phase) {
    p != Entered && p != Over
  }

  predicate HasModelLock(p: Phase) {
    p in {Starting, Fetching, Connecting, Sending, Waiting, Answered, Judging, Uploading, Keeping, Rejecting}
  }

  /** The phase a step starts from. */
  function From(step: Step): Phase {
    match step
    case Enter(_, _, _) => Over
    case LockJob(_) => Entered
    case Load(_) => Locked
    case Resolve(_, _, _) => Loaded
    case LockModel(_) => Resolved
    case WriteStart(_, _) => Starting
    case Download(_, _) => Fetching
    case WriteRunning(_, _, _) => Connecting
    case Send(_, _) => Sending
    case Receive(_, _) => Waiting
    case WriteResponse(_, _) => Answered
    case Judge(_, _) => Judging
    case Upload(_, _, _) => Uploading
    case GiveUp(_) => Uploading
    case Uploads(_) => Uploading
    case WriteResult(_, _) => Keeping
    case WriteError(_, _) => Rejecting
    case Fail(_) => Rejecting
    case Abort(_) => Over
    case Crash(_) => Over
  }

  /** Which answers the artifact checks can give: a response that is not a completed run is rejected for
      good, and an accepted one has every required artifact. */
  predicate Judges(response: Response, verdict: Verdict) {
    && (verdict.Accepted? ==> response.ok && response.status == "completed" && REQUIRED <= verdict.files.Keys)
    && (verdict.Rejected? ==> Permanent(verdict.failure))
  }

  predicate Enabled(s: State, step: Step) {
    match step
    case Enter(c, _, _) => c !in s.calls
    case Crash(lost) => lost <= s.calls.Keys
    case Abort(c) => c in s.calls && HasJobLock(s.calls[c].phase)
    case _ =>
      && step.c in s.calls && s.calls[step.c].phase == From(step)
      && var call := s.calls[step.c];
      match step
      case Resolve(_, outExists, recovered) => recovered.Some? ==> call.mem.running && recovered.value.ok
      case Judge(_, verdict) => call.mem.response.Some? && Judges(call.mem.response.value, verdict)
      case Download(_, got) => got.Unusable? ==> Permanent(got.failure)
      case Upload(_, name, _) => name in call.files && name !in call.uploaded
      case Uploads(_) => !call.failed && call.uploaded == call.files.Keys
      case WriteError(_, _) => call.failure.Some? && Permanent(call.failure.value)
      case Fail(_) => call.failure.Some? && !Permanent(call.failure.value)
      case _ => true
  }

  // ---------------------------------------------------------------------------------------------
  // One step
  // ---------------------------------------------------------------------------------------------

  function With(s: State, c: CallId, next: Call): State
    requires c in s.calls
  {
    s.(calls := s.calls[c := next])
  }

  /** The call is finished: it answers and gives up the locks it holds. */
  function Finish(s: State, c: CallId, reply: Answer): (t: State)
    requires c in s.calls
    ensures t.calls == s.calls[c := s.calls[c].(phase := Over, reply := Some(reply))]
  {
    var call := s.calls[c];
    s.(calls := s.calls[c := call.(phase := Over, reply := Some(reply))],
       jobLock := if HasJobLock(call.phase) then s.jobLock - {call.job} else s.jobLock,
       modelLock := if HasModelLock(call.phase) then None else s.modelLock)
  }

  /** Save the call's state dictionary; what follows depends on how that went. */
  function Saves(s: State, c: CallId, w: Write): (t: State)
    requires c in s.calls
    ensures t == s.(disk := t.disk)
  {
    if w == Written || w == Write.Raised(true) then s.(disk := s.disk[s.calls[c].job := s.calls[c].mem]) else s
  }

  function Rejects(call: Call, failure: Failure): Call {
    call.(phase := Rejecting, failure := Some(failure))
  }

  function AfterLoad(s: State, c: CallId): State
    requires c in s.calls
  {
    var call := s.calls[c];
    var saved := s.On(call.job);
    if saved != Blank && saved.spec != Some(call.spec) then Finish(s, c, Refused(SPEC_CONFLICT))
    else if saved.Outcome().Some? then Finish(s, c, saved.Outcome().value)
    else With(s, c, call.(phase := Loaded, mem := saved))
  }

  function AfterResolve(s: State, c: CallId, outExists: bool, recovered: Option<Response>): State
    requires c in s.calls
  {
    var call := s.calls[c];
    if call.mem.response.None? && (call.mem.running || outExists) then
      match recovered
      case None => Finish(s, c, Refused(UNRESOLVED))
      case Some(response) => With(s, c,
            call.(phase := Resolved, mem := call.mem.(response := Some(response), running := false)))
    else With(s, c, call.(phase := Resolved))
  }

  function AfterWriteStart(s: State, c: CallId, w: Write): State
    requires c in s.calls
  {
    var call := s.calls[c];
    var named := call.(mem := call.mem.(spec := Some(call.spec)));
    var t := Saves(With(s, c, named), c, w);
    match w
    case Written => With(t, c, named.(phase := if named.mem.response.Some? then Judging else Fetching))
    case Forbidden => Finish(t, c, Refused(BAD_PATH))
    case Raised(_) => Finish(t, c, Refused(BROKEN))
  }

  function AfterDownload(s: State, c: CallId, got: Got): State
    requires c in s.calls
  {
    var call := s.calls[c];
    var t := s.(log := s.log + [Fetch(call.job)]);
    match got
    case Fetched => With(t, c, call.(phase := Connecting))
    case Unusable(failure) => With(t, c, Rejects(call, failure))
    case Unreachable => With(t, c, Rejects(call, DOWNLOAD_FAILED))
    case Inactive => With(t, c, Rejects(call, EXPIRED))
  }

  /** Connect, then persist the uncertainty before any byte can reach the daemon. */
  function AfterWriteRunning(s: State, c: CallId, connected: bool, w: Write): State
    requires c in s.calls
  {
    var call := s.calls[c];
    if !connected then With(s, c, Rejects(call, NO_SOCKET)) else
    var uncertain := call.(mem := call.mem.(running := true));
    var t := Saves(With(s, c, uncertain), c, w);
    With(t, c, if w == Written then uncertain.(phase := Sending) else Rejects(uncertain, NO_SOCKET))
  }

  function AfterSend(s: State, c: CallId, ok: bool): State
    requires c in s.calls
  {
    var call := s.calls[c];
    var t := s.(log := s.log + [Request(call.job)]);
    With(t, c, if ok then call.(phase := Waiting) else Rejects(call, NO_ANSWER))
  }

  function AfterReceive(s: State, c: CallId, response: Option<Response>): State
    requires c in s.calls
  {
    var call := s.calls[c];
    match response
    case None => With(s, c, Rejects(call, NO_ANSWER))
    case Some(r) => With(s, c, call.(phase := Answered, mem := call.mem.(response := Some(r), running := false)))
  }

  /** A write inside the try of _execute: a worker error goes to its handler, any other ends the call. */
  function AfterWrite(s: State, c: CallId, w: Write, next: Phase): State
    requires c in s.calls
  {
    var call := s.calls[c];
    var t := Saves(s, c, w);
    match w
    case Written => With(t, c, call.(phase := next))
    case Forbidden => With(t, c, Rejects(call, BAD_PATH))
    case Raised(_) => Finish(t, c, Refused(BROKEN))
  }

  function AfterJudge(s: State, c: CallId, verdict: Verdict): State
    requires c in s.calls
  {
    var call := s.calls[c];
    match verdict
    case Accepted(files) => With(s, c, call.(phase := Uploading, files := files, uploaded := {}, failed := false))
    case Rejected(failure) => With(s, c, Rejects(call, failure))
  }

  function AfterUpload(s: State, c: CallId, name: Name, ok: bool): State
    requires c in s.calls
  {
    var call := s.calls[c];
    var t := s.(log := s.log + [Put(call.job, name, ok)]);
    With(t, c, if ok then call.(uploaded := call.uploaded + {name}) else call.(failed := true))
  }

  function AfterUploads(s: State, c: CallId): State
    requires c in s.calls
  {
    var call := s.calls[c];
    With(s, c, call.(phase := Keeping, mem := call.mem.(result := Some(Artifacts(call.files)))))
  }

  function AfterWriteResult(s: State, c: CallId, w: Write): State
    requires c in s.calls
  {
    var call := s.calls[c];
    if w == Written then Finish(Saves(s, c, w), c, Value(call.mem.result.GetOr(Artifacts(map[]))))
        else AfterWrite(s, c, w, Over)
  }

  function AfterWriteError(s: State, c: CallId, w: Write): State
    requires c in s.calls && s.calls[c].failure.Some?
  {
    var call := s.calls[c];
    var failing := call.(mem := call.mem.(error := Some(call.failure.value)));
    var t := Saves(With(s, c, failing), c, w);
    match w
    case Written => Finish(t, c, Refused(call.failure.value))
    case Forbidden => Finish(t, c, Refused(BAD_PATH))
    case Raised(_) => Finish(t, c, Refused(BROKEN))
  }

  /** A crash takes any set of calls with their memory; the operating system frees their locks. */
  function AfterCrash(s: State, lost: set<CallId>): State {
    s.(calls := s.calls - lost,
       jobLock := map j | j in s.jobLock && s.jobLock[j] !in lost :: s.jobLock[j],
       modelLock := if s.modelLock.Some? && s.modelLock.value in lost then None else s.modelLock)
  }

  function Next(s: State, step: Step): State
    requires Enabled(s, step)
  {
    match step
    case Enter(c, job, spec) =>
      s.(calls := s.calls[c := Call(job, spec, Entered, Blank, map[], {}, false, None, None)])
    case LockJob(c) =>
      var call := s.calls[c];
      if call.job in s.jobLock then Finish(s, c, Refused(ALREADY_RUNNING))
      else With(s, c, call.(phase := Locked)).(jobLock := s.jobLock[call.job := c])
    case Load(c) => AfterLoad(s, c)
    case Resolve(c, outExists, recovered) => AfterResolve(s, c, outExists, recovered)
    case LockModel(c) =>
      if s.modelLock.Some? then Finish(s, c, Refused(MODEL_BUSY))
      else With(s, c, s.calls[c].(phase := Starting)).(modelLock := Some(c))
    case WriteStart(c, w) => AfterWriteStart(s, c, w)
    case Download(c, got) => AfterDownload(s, c, got)
    case WriteRunning(c, connected, w) => AfterWriteRunning(s, c, connected, w)
    case Send(c, ok) => AfterSend(s, c, ok)
    case Receive(c, response) => AfterReceive(s, c, response)
    case WriteResponse(c, w) => AfterWrite(s, c, w, Judging)
    case Judge(c, verdict) => AfterJudge(s, c, verdict)
    case Upload(c, name, ok) => AfterUpload(s, c, name, ok)
    case GiveUp(c) => With(s, c, Rejects(s.calls[c], UPLOAD_FAILED))
    case Uploads(c) => AfterUploads(s, c)
    case WriteResult(c, w) => AfterWriteResult(s, c, w)
    case WriteError(c, w) => AfterWriteError(s, c, w)
    case Fail(c) => Finish(s, c, Refused(s.calls[c].failure.value))
    case Abort(c) => Finish(s, c, Refused(BROKEN))
    case Crash(lost) => AfterCrash(s, lost)
  }

  // ---------------------------------------------------------------------------------------------
  // The invariant
  // ---------------------------------------------------------------------------------------------

  /** How many requests the log shows for a job. */
  function Requests(log: seq<Action>, j: JobId): nat {
    if log == [] then 0 else Requests(log[..|log| - 1], j) + if log[|log| - 1] == Request(j) then 1 else 0
  }

  predicate AllStored(log: seq<Action>, j: JobId, names: set<Name>) {
    forall name | name in names :: Put(j, name, true) in log
  }

  /** A job's file against what was done for the job. */
  predicate JobInv(saved: Saved, log: seq<Action>, j: JobId) {
    && Requests(log, j) <= 1
    && (Requests(log, j) == 1 ==> saved.Committed())
    && (saved.result.Some? ==>
           REQUIRED <= saved.result.value.artifacts.Keys && AllStored(log, j, saved.result.value.artifacts.Keys))
    && (saved.error.Some? ==> Permanent(saved.error.value))
    && (saved != Blank ==> saved.spec.Some?)
  }

  /** No outcome, and either no specification yet or this call's. */
  predicate Open(saved: Saved, call: Call) {
    saved.Outcome().None? && (saved == Blank || saved.spec == Some(call.spec))
  }

  /** No outcome, and the file names this call's specification. */
  predicate Claimed(saved: Saved, call: Call) {
    saved.Outcome().None? && saved.spec == Some(call.spec)
  }

  /** A call's memory against the file, at every phase that holds the job's lock. */
  predicate Agrees(saved: Saved, log: seq<Action>, call: Call) {
    var mem := call.mem;
    match call.phase
    case Locked => true
    case Loaded => Open(saved, call) && mem == saved
    case Resolved => Resolves(saved, log, call)
    case Starting => Resolves(saved, log, call)
    case Fetching => Unasked(saved, log, call)
    case Connecting => Unasked(saved, log, call)
    case Sending => Claimed(saved, call) && mem == saved && saved.running && saved.response.None?
        && Requests(log, call.job) == 0
    case Waiting => Claimed(saved, call) && mem == saved && saved.running && saved.response.None?
    case Answered => Claimed(saved, call) && mem.response.Some?
        && mem == saved.(response := mem.response, running := false)
    case Judging => Claimed(saved, call) && mem == saved && mem.response.Some?
    case Uploading =>
      && Claimed(saved, call) && mem == saved && mem.response.Some?
      && REQUIRED <= call.files.Keys && AllStored(log, call.job, call.uploaded)
    case Keeping =>
      && Claimed(saved, call) && mem == saved.(result := Some(Artifacts(call.files))) && mem.response.Some?
      && REQUIRED <= call.files.Keys && AllStored(log, call.job, call.files.Keys)
    case Rejecting =>
      && Claimed(saved, call) && call.failure.Some?
      && (Permanent(call.failure.value) ==>
            && mem.spec == Some(call.spec) && mem.error.None?
            && (Requests(log, call.job) == 1 ==> mem.Committed())
            && (mem.result.Some? ==>
                   REQUIRED <= mem.result.value.artifacts.Keys
                       && AllStored(log, call.job, mem.result.value.artifacts.Keys)))
    case Entered => true
    case Over => true
  }

  predicate Resolves(saved: Saved, log: seq<Action>, call: Call) {
    && Open(saved, call)
    && (call.mem == saved
           || (call.mem.response.Some? && call.mem == saved.(response := call.mem.response, running := false)))
    && (call.mem.response.None? ==> !call.mem.running)
  }

  predicate Unasked(saved: Saved, log: seq<Action>, call: Call) {
    && Claimed(saved, call) && call.mem == saved
    && saved.response.None? && !saved.running && Requests(log, call.job) == 0
  }

  predicate LocksInv(s: State) {
    && (forall c | c in s.calls && HasJobLock(s.calls[c].phase) ::
          s.calls[c].job in s.jobLock && s.jobLock[s.calls[c].job] == c)
    && (forall j | j in s.jobLock ::
           s.jobLock[j] in s.calls && s.calls[s.jobLock[j]].job == j && HasJobLock(s.calls[s.jobLock[j]].phase))
    && (forall c | c in s.calls && HasModelLock(s.calls[c].phase) :: s.modelLock == Some(c))
  }

  ghost predicate Inv(s: State) {
    && LocksInv(s)
    && (forall j: JobId :: JobInv(s.On(j), s.log, j))
    && (forall c | c in s.calls && HasJobLock(s.calls[c].phase) :: Agrees(s.On(s.calls[c].job), s.log, s.calls[c]))
  }

  // ---------------------------------------------------------------------------------------------
  // Every step keeps the invariant
  // ---------------------------------------------------------------------------------------------

  /** One action of one job leaves the counts of the others alone and only adds to what is stored. */
  lemma LogGrows(log: seq<Action>, a: Action, j: JobId)
    ensures Requests(log + [a], j) == Requests(log, j) + if a == Request(j) then 1 else 0
    ensures forall names | AllStored(log, j, names) :: AllStored(log + [a], j, names)
  {
    assert (log + [a])[..|log|] == log;
  }

  /** The state after call c, which holds the lock of its job, has done something for that job. */
  predicate Touches(s: State, t: State, c: CallId) {
    && c in s.calls && c in t.calls && HasJobLock(s.calls[c].phase)
    && t.calls == s.calls[c := t.calls[c]] && t.calls[c].job == s.calls[c].job
    && var j := s.calls[c].job;
    && t.disk == (if j in t.disk then s.disk[j := t.disk[j]] else s.disk)
    && (t.log == s.log || (|t.log| == |s.log| + 1 && t.log == s.log + [t.log[|s.log|]] && t.log[|s.log|].job == j))
  }

  /** What call c does is invisible to every other job. */
  lemma OtherJob(s: State, t: State, c: CallId, k: JobId)
    requires Touches(s, t, c) && k != s.calls[c].job
    ensures t.On(k) == s.On(k)
    ensures JobInv(s.On(k), s.log, k) ==> JobInv(t.On(k), t.log, k)
  {
    hide Requests, AllStored;
    if t.log != s.log {
      LogGrows(s.log, t.log[|s.log|], k);
    }
  }

  lemma OtherCall(s: State, t: State, c: CallId, call: Call)
    requires Touches(s, t, c) && call.job != s.calls[c].job && Agrees(s.On(call.job), s.log, call)
    ensures Agrees(t.On(call.job), t.log, call)
  {
    hide Requests, AllStored;
    OtherJob(s, t, c, call.job);
    if t.log != s.log {
      LogGrows(s.log, t.log[|s.log|], call.job);
    }
  }

  lemma OthersKeep(s: State, t: State, c: CallId)
    requires Inv(s) && Touches(s, t, c) && LocksInv(t)
    requires JobInv(t.On(s.calls[c].job), t.log, s.calls[c].job)
    requires HasJobLock(t.calls[c].phase) ==> Agrees(t.On(s.calls[c].job), t.log, t.calls[c])
    ensures Inv(t)
  {
    hide JobInv, Agrees;
    forall k: JobId ensures JobInv(t.On(k), t.log, k) {
      if k != s.calls[c].job {
        OtherJob(s, t, c, k);
      }
    }
    forall d | d in t.calls && HasJobLock(t.calls[d].phase) ensures Agrees(t.On(t.calls[d].job), t.log, t.calls[d]) {
      if d != c {
        OtherCall(s, t, c, s.calls[d]);
      }
    }
  }

  /** A holder that goes on keeps its locks; one that finishes gives them up. */
  predicate LocksMove(s: State, t: State, c: CallId)
    requires Touches(s, t, c)
  {
    var p, q := s.calls[c].phase, t.calls[c].phase;
    if q == Over then
      t.jobLock == s.jobLock - {s.calls[c].job} && t.modelLock == if HasModelLock(p) then None else s.modelLock
    else
      && HasJobLock(q) && t.jobLock == s.jobLock
      && (if HasModelLock(q) && !HasModelLock(p) then s.modelLock == None && t.modelLock == Some(c)
          else t.modelLock == s.modelLock && (HasModelLock(q) <==> HasModelLock(p)))
  }

  lemma LocksKept(s: State, t: State, c: CallId)
    requires LocksInv(s) && Touches(s, t, c) && LocksMove(s, t, c)
    ensures LocksInv(t)
  {
  }

  /** What a step of a holder must establish about its own job. */
  predicate StepsWell(s: State, t: State, c: CallId) {
    && Touches(s, t, c) && LocksMove(s, t, c)
    && var j := s.calls[c].job;
    && JobInv(t.On(j), t.log, j)
    && (s.On(j).spec.Some? ==> t.On(j).spec == s.On(j).spec)
    && (HasJobLock(t.calls[c].phase) ==> Agrees(t.On(j), t.log, t.calls[c]))
  }

  /** The part of the invariant that concerns one holder and its job. */
  predicate Local(s: State, c: CallId) {
    && c in s.calls && HasJobLock(s.calls[c].phase)
    && (HasModelLock(s.calls[c].phase) ==> s.modelLock == Some(c))
    && JobInv(s.On(s.calls[c].job), s.log, s.calls[c].job)
    && Agrees(s.On(s.calls[c].job), s.log, s.calls[c])
  }

  lemma LoadStep(s: State, c: CallId)
    requires Local(s, c) && Enabled(s, Load(c))
    ensures StepsWell(s, Next(s, Load(c)), c)
  {
    hide Requests, AllStored;
    var t := Next(s, Load(c));
    assert t.disk == s.disk;
  }

  lemma ResolveStep(s: State, c: CallId, outExists: bool, recovered: Option<Response>)
    requires Local(s, c) && Enabled(s, Resolve(c, outExists, recovered))
    ensures StepsWell(s, Next(s, Resolve(c, outExists, recovered)), c)
  {
    hide Requests, AllStored;
  }

  lemma LockModelStep(s: State, c: CallId)
    requires Local(s, c) && Enabled(s, LockModel(c))
    ensures StepsWell(s, Next(s, LockModel(c)), c)
  {
    hide Requests, AllStored;
  }

  lemma WriteStartStep(s: State, c: CallId, w: Write)
    requires Local(s, c) && Enabled(s, WriteStart(c, w))
    ensures StepsWell(s, Next(s, WriteStart(c, w)), c)
  {
    NamedIsWell(s.On(s.calls[c].job), s.log, s.calls[c]);
    StartShape(s, c, w);
    hide Requests, AllStored, JobInv, Agrees, Resolves, Open, Next, Enabled, Touches, LocksMove;
  }

  lemma StartShape(s: State, c: CallId, w: Write)
    requires Local(s, c) && Enabled(s, WriteStart(c, w))
    ensures
      var t, call := Next(s, WriteStart(c, w)), s.calls[c];
      var mem := call.mem.(spec := Some(call.spec));
      && Touches(s, t, c) && LocksMove(s, t, c) && t.log == s.log
      && t.On(call.job) == (if w == Written || w == Write.Raised(true) then mem else s.On(call.job))
      && (w == Written ==> t.calls[c] == call.(mem := mem, phase := if mem.response.Some? then Judging else Fetching))
      && (w != Written ==> t.calls[c].phase == Over)
  {
    hide Requests, AllStored, JobInv, Agrees;
  }

  /** Naming the specification keeps what is known of the job, written or not. */
  lemma NamedIsWell(saved: Saved, log: seq<Action>, call: Call)
    requires call.phase == Starting && JobInv(saved, log, call.job) && Agrees(saved, log, call)
    ensures
      var mem := call.mem.(spec := Some(call.spec));
      && JobInv(mem, log, call.job) && (saved.spec.Some? ==> saved.spec == Some(call.spec))
      && (mem.response.Some? ==> Agrees(mem, log, call.(mem := mem, phase := Judging)))
      && (mem.response.None? ==> Agrees(mem, log, call.(mem := mem, phase := Fetching)))
  {
    hide Requests, AllStored;
  }

  lemma DownloadStep(s: State, c: CallId, got: Got)
    requires Local(s, c) && Enabled(s, Download(c, got))
    ensures StepsWell(s, Next(s, Download(c, got)), c)
  {
    LogGrows(s.log, Fetch(s.calls[c].job), s.calls[c].job);
  }

  lemma WriteRunningStep(s: State, c: CallId, connected: bool, w: Write)
    requires Local(s, c) && Enabled(s, WriteRunning(c, connected, w))
    ensures StepsWell(s, Next(s, WriteRunning(c, connected, w)), c)
  {
    hide Requests, AllStored;
  }

  lemma SendStep(s: State, c: CallId, ok: bool)
    requires Local(s, c) && Enabled(s, Send(c, ok))
    ensures StepsWell(s, Next(s, Send(c, ok)), c)
  {
    LogGrows(s.log, Request(s.calls[c].job), s.calls[c].job);
  }

  lemma ReceiveStep(s: State, c: CallId, response: Option<Response>)
    requires Local(s, c) && Enabled(s, Receive(c, response))
    ensures StepsWell(s, Next(s, Receive(c, response)), c)
  {
  }

  lemma WriteResponseStep(s: State, c: CallId, w: Write)
    requires Local(s, c) && Enabled(s, WriteResponse(c, w))
    ensures StepsWell(s, Next(s, WriteResponse(c, w)), c)
  {
    hide Requests, AllStored;
  }

  lemma JudgeStep(s: State, c: CallId, verdict: Verdict)
    requires Local(s, c) && Enabled(s, Judge(c, verdict))
    ensures StepsWell(s, Next(s, Judge(c, verdict)), c)
  {
    hide Requests;
  }

  lemma UploadStep(s: State, c: CallId, name: Name, ok: bool)
    requires Local(s, c) && Enabled(s, Upload(c, name, ok))
    ensures StepsWell(s, Next(s, Upload(c, name, ok)), c)
  {
    LogGrows(s.log, Put(s.calls[c].job, name, ok), s.calls[c].job);
  }

  lemma UploadsStep(s: State, c: CallId, step: Step)
    requires Local(s, c) && Enabled(s, step) && step in {GiveUp(c), Uploads(c)}
    ensures StepsWell(s, Next(s, step), c)
  {
    hide Requests, AllStored;
  }

  lemma EndStep(s: State, c: CallId, step: Step)
    requires Local(s, c) && Enabled(s, step) && step in {Fail(c), Abort(c)}
    ensures StepsWell(s, Next(s, step), c)
  {
    hide Requests, AllStored, JobInv;
  }

  lemma WriteResultStep(s: State, c: CallId, w: Write)
    requires Local(s, c) && Enabled(s, WriteResult(c, w))
    ensures StepsWell(s, Next(s, WriteResult(c, w)), c)
  {
    hide Requests, AllStored;
  }

  lemma WriteErrorStep(s: State, c: CallId, w: Write)
    requires Local(s, c) && Enabled(s, WriteError(c, w))
    ensures StepsWell(s, Next(s, WriteError(c, w)), c)
  {
    hide Requests, AllStored;
  }

  lemma HolderStep(s: State, step: Step)
    requires !step.Enter? && !step.LockJob? && !step.Crash? && Enabled(s, step) && Local(s, step.c)
    ensures StepsWell(s, Next(s, step), step.c)
  {
    hide *;
    match step
    case Load(c) => LoadStep(s, c);
    case Resolve(c, outExists, recovered) => ResolveStep(s, c, outExists, recovered);
    case LockModel(c) => LockModelStep(s, c);
    case WriteStart(c, w) => WriteStartStep(s, c, w);
    case Download(c, got) => DownloadStep(s, c, got);
    case WriteRunning(c, connected, w) => WriteRunningStep(s, c, connected, w);
    case Send(c, ok) => SendStep(s, c, ok);
    case Receive(c, response) => ReceiveStep(s, c, response);
    case WriteResponse(c, w) => WriteResponseStep(s, c, w);
    case Judge(c, verdict) => JudgeStep(s, c, verdict);
    case Upload(c, name, ok) => UploadStep(s, c, name, ok);
    case GiveUp(c) => UploadsStep(s, c, step);
    case Uploads(c) => UploadsStep(s, c, step);
    case WriteResult(c, w) => WriteResultStep(s, c, w);
    case WriteError(c, w) => WriteErrorStep(s, c, w);
    case Fail(c) => EndStep(s, c, step);
    case Abort(c) => EndStep(s, c, step);
  }

  lemma HoldsLock(s: State, step: Step)
    requires Inv(s) && Enabled(s, step) && !step.Enter? && !step.LockJob? && !step.Crash?
    ensures Local(s, step.c)
  {
    hide JobInv, Agrees, Next;
  }

  lemma InvStep(s: State, step: Step)
    requires Inv(s) && Enabled(s, step)
    ensures Inv(Next(s, step))
  {
    hide *;
    if step.Crash? {
      CrashStep(s, step.lost);
    } else if step.Enter? || step.LockJob? {
      OutsiderStep(s, step);
      OutsiderKeeps(s, Next(s, step), step.c);
    } else {
      HoldsLock(s, step);
      HolderStep(s, step);
      StepsWellKeeps(s, Next(s, step), step.c);
    }
  }

  lemma StepsWellKeeps(s: State, t: State, c: CallId)
    requires Inv(s) && StepsWell(s, t, c)
    ensures Inv(t)
  {
    LocksKept(s, t, c);
    OthersKeep(s, t, c);
  }

  /** A call without the lock enters, is refused, or takes the lock. */
  predicate Outsider(s: State, t: State, c: CallId) {
    && (c in s.calls ==> !HasJobLock(s.calls[c].phase))
    && c in t.calls && t.calls == s.calls[c := t.calls[c]]
    && t.disk == s.disk && t.log == s.log && t.modelLock == s.modelLock
    && var call := t.calls[c];
    if call.phase == Locked then call.job !in s.jobLock && t.jobLock == s.jobLock[call.job := c]
    else call.phase in {Entered, Over} && t.jobLock == s.jobLock
  }

  lemma OutsiderLocks(s: State, t: State, c: CallId)
    requires LocksInv(s) && Outsider(s, t, c)
    ensures LocksInv(t)
  {
  }

  lemma OutsiderKeeps(s: State, t: State, c: CallId)
    requires Inv(s) && Outsider(s, t, c)
    ensures Inv(t)
  {
    OutsiderLocks(s, t, c);
    hide JobInv, Agrees, LocksInv;
    assert forall j: JobId :: t.On(j) == s.On(j);
    LockedAgrees(t.On(t.calls[c].job), t.log, t.calls[c]);
  }

  lemma OutsiderStep(s: State, step: Step)
    requires Enabled(s, step) && (step.Enter? || step.LockJob?)
    ensures Outsider(s, Next(s, step), step.c)
  {
  }

  lemma LockedAgrees(saved: Saved, log: seq<Action>, call: Call)
    ensures call.phase == Locked ==> Agrees(saved, log, call)
  {
  }

  lemma CrashStep(s: State, lost: set<CallId>)
    requires Inv(s) && Enabled(s, Crash(lost))
    ensures Inv(Next(s, Crash(lost)))
  {
    hide JobInv, Agrees;
    var t := Next(s, Crash(lost));
    assert forall j: JobId :: t.On(j) == s.On(j);
  }
}
