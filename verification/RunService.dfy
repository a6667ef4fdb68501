/** The run service as a step system: workers, callers of the API, the dispatcher and the
    recovery at start are threads with program counters; they share the run files, a bounded
    queue, the registrations of running executors and two mutexes. Any store write may fail at
    any point, and the process may stop and start again at any step. */
module RunService {
  import opened Prelude
  import opened Utf8
  import opened Domain
  import opened Runs
  import opened RunUpdates
  import opened Disk
  import opened RunFiles
  import opened Strings

  /** What an executor returned, what the evidence store listed for the run, and what the worker makes of the two. */
  datatype Judgement = Judgement(
    given: ExecutionResult, err: ExecError, records: Result<seq<EvidenceRef>, Error>, result: ExecutionResult)

  /** `workers` numbers the worker threads; `approvalModes` holds the (agent, mode) pairs that need an approval;
      `concludes` says what the output gate and the evidence check may make of an agent's output, `isJson` which bytes
      are JSON text. */
  datatype Config = Config(
    workers: set<nat>, capacity: nat, executor: string, approvalModes: set<(string, string)>, concludes: Judge,
    isJson: Bytes -> bool)

  type Judge = (string, Judgement) -> bool

  datatype CancelArgs = CancelArgs(id: string, tenant: string, actor: string, reason: string)

  datatype Outcome = Outcome(result: ExecutionResult, err: ExecError, errText: string)

  datatype Thread =
    // a worker
    | Idle
    | Claiming(id: string)
    | Checking(id: string, run: Run)        // the record the claim returned
    | Rejecting(id: string, code: string, message: string)
    | WantBegin(id: string)
    | Beginning(id: string)                 // holds cancelMu
    | Registering(id: string, run: Run)     // holds cancelMu; the running record is durable
    | Registered(id: string, run: Run)      // holds cancelMu; listed in cancels
    | Releasing                             // holds cancelMu; the run may not begin
    | Executing(id: string)
    | Concluding(id: string, outcome: Outcome)  // what the executor returned, not yet gated
    | WantFinish(id: string, outcome: Outcome)
    | Finishing(id: string, outcome: Outcome)  // holds cancelMu
    | Deregistering(id: string)             // holds cancelMu
    // a caller that created or approved an automatic run
    | Enqueuing(id: string)
    | FailingUnqueued(id: string)
    // a caller that cancels
    | CancelWantsInput(c: CancelArgs)
    | CancelWantsMu(c: CancelArgs, holdsInput: bool)
    | Cancelling(c: CancelArgs, holdsInput: bool)       // holds cancelMu
    | CancelReturning(c: CancelArgs, holdsInput: bool)  // holds cancelMu
    // a caller that submits a manual run
    | SubmitWants(id: string)
    | Submitting(id: string)                // holds inputMu
    | Notifying(id: string)                 // holds inputMu

  /** Progress of Start. */
  datatype Boot =
    | CheckFrozenQueue
    | ListValidating | FailValidating(todo: set<string>)
    | ListRunning | FailRunning(todo: set<string>)
    | ListQueued | Offering(rest: seq<string>)
    | Up | Halted

  /** `cancels` maps a run to the worker whose executor a cancellation interrupts; `offers` is what is left of the list
      that the dispatcher's current tick goes through. */
  datatype State = State(
    fs: Fs, queue: seq<string>, cancels: map<string, nat>, cancelMu: Option<nat>, inputMu: Option<nat>,
    threads: map<nat, Thread>, boot: Boot, launches: map<string, Run>, offers: seq<Run>)

  datatype Step =
    | Take(t: nat)
    | DoClaim(t: nat, now: int, fault: Fault)
    | CheckPass(t: nat)
    | CheckFail(t: nat, code: string, message: string)
    | Reject(t: nat, now: int, fault: Fault)
    | LockBegin(t: nat)
    | DoBegin(t: nat, now: int, fault: Fault)
    | Register(t: nat)
    | Launch(t: nat)
    | Release(t: nat)
    | ExecutorReturns(t: nat, outcome: Outcome)
    | Conclude(t: nat, records: Result<seq<EvidenceRef>, Error>, result: ExecutionResult)
    | LockFinish(t: nat)
    | DoFinish(t: nat, now: int, fault: Fault)
    | Deregister(t: nat)
    | CreateCall(t: nat, run: Run, fault: Fault)
    | Enqueue(t: nat, accepted: bool)
    | FailUnqueued(t: nat, message: string, now: int, fault: Fault)
    | ApproveCall(t: nat, id: string, tenant: string, approval: Approval, now: int, fault: Fault)
    | CancelCall(t: nat, c: CancelArgs)
    | CancelLockInput(t: nat)
    | CancelLock(t: nat)
    | DoCancel(t: nat, now: int, fault: Fault)
    | CancelReturn(t: nat)
    | SubmitCall(t: nat, id: string)
    | SubmitLock(t: nat)
    | SubmitCommit(t: nat, inputs: seq<InputRef>, submission: Submission, now: int, fault: Fault)
    | SubmitAbort(t: nat)
    | Notify(t: nat, accepted: bool)
    | TickList(listed: seq<Run>)
    | TickSend
    | Elsewhere                             // a read of the store, or any work on other files
    | BootCheck(ok: bool)
    | BootList(ok: bool)
    | BootFail(id: string, now: int, fault: Fault)
    | BootNext
    | BootOffer
    | Restarts

  function StatusAt(fs: Fs, id: string): Option<Status> {
    if RunAt(fs, id).Some? then Some(RunAt(fs, id).value.status) else None
  }

  function TermsAt(fs: Fs, id: string): Option<Terms> {
    if RunAt(fs, id).Some? then Some(RunAt(fs, id).value.terms) else None
  }

  predicate Automatic(fs: Fs, id: string) {
    RunAt(fs, id).Some? && !RunAt(fs, id).value.Manual()
  }

  /** What ValidateExecution demands before the executor may be called. */
  predicate ExecutionAllowed(cfg: Config, r: Run) {
    (r.terms.agentId, r.terms.mode) in cfg.approvalModes || r.policy.activeValidation ==>
      r.approval.Some? && !Blank(r.approval.value.id) && !Blank(r.approval.value.actor) &&
          r.terms.scope.authorizationRef != ""
  }

  /** A record that cannot be encoded is not written, whatever the disk does. */
  function WriteFault(cfg: Config, o: Outcome, fault: Fault): Fault {
    if Encodes(cfg.isJson, o.result.result) then fault else FailEarly
  }

  function CancelUpdate(cfg: Config, s: State, c: CancelArgs, now: int): Mutation {
    if c.id in s.cancels then RequestCancel(c.tenant, c.actor, c.reason, now)
    else Cancel(c.tenant, cfg.executor, c.actor, c.reason, now)
  }

  function Push(s: State, id: string): State {
    s.(queue := s.queue + [id])
  }

  function WithThread(s: State, t: nat, th: Thread): State {
    s.(threads := s.threads[t := th])
  }

  function WithoutThread(s: State, t: nat): State {
    s.(threads := s.threads - {t})
  }

  predicate At(s: State, t: nat) { t in s.threads }

  function ThreadAt(s: State, t: nat): Thread {
    if t in s.threads then s.threads[t] else Idle
  }

  predicate HasThread(step: Step) {
    && !step.TickList? && !step.TickSend? && !step.Elsewhere? && !step.BootCheck? && !step.BootList? && !step.BootFail?
    && !step.BootNext? && !step.BootOffer? && !step.Restarts?
  }

  /** The thread that takes the step. */
  function Actor(step: Step): nat {
    if HasThread(step) then step.t else 0
  }

  /** The run a thread works on. */
  function RunOf(th: Thread): string {
    if th.Idle? || th.Releasing? then ""
    else if th.CancelWantsInput? || th.CancelWantsMu? || th.Cancelling? || th.CancelReturning? then th.c.id
    else th.id
  }

  // ---- The steps of a worker ----

  /** A worker takes a run from the queue, claims it and checks it. */
  ghost predicate ClaimNext(cfg: Config, s: State, step: Step, after: State) {
    match step
    case Take(t) =>
      && At(s, t) && s.threads[t].Idle? && s.queue != []
      && after == WithThread(s, t, Claiming(s.queue[0])).(queue := s.queue[1..])
    case DoClaim(t, now, fault) =>
      && At(s, t) && s.threads[t].Claiming?
      && var id := s.threads[t].id;
         var (fs, r) := UpdateRun(s.fs, id, Claim(now), fault);
         after == WithThread(s, t, if r.Ok? && !r.value.status.Terminal() then Checking(id, r.value)
                             else Idle).(fs := fs)
    case CheckPass(t) =>
      && At(s, t) && s.threads[t].Checking?
      && ExecutionAllowed(cfg, s.threads[t].run)
      && after == WithThread(s, t, WantBegin(s.threads[t].id))
    case CheckFail(t, code, message) =>
      && At(s, t) && s.threads[t].Checking?
      && after == WithThread(s, t, Rejecting(s.threads[t].id, code, message))
    case Reject(t, now, fault) =>
      && At(s, t) && s.threads[t].Rejecting?
      && var th := s.threads[t];
         after == WithThread(s, t, Idle).(
           fs := UpdateRun(s.fs, th.id, Fail(cfg.executor, th.code, th.message, now), fault).0)
    case _ => false
  }

  /** It begins the run under the lock that keeps cancellations out, and registers and launches it. */
  ghost predicate BeginNext(cfg: Config, s: State, step: Step, after: State) {
    match step
    case LockBegin(t) =>
      && At(s, t) && s.threads[t].WantBegin? && s.cancelMu == None
      && after == WithThread(s, t, Beginning(s.threads[t].id)).(cancelMu := Some(t))
    case DoBegin(t, now, fault) =>
      && At(s, t) && s.threads[t].Beginning?
      && var id := s.threads[t].id;
         var (fs, r) := UpdateRun(s.fs, id, Begin(cfg.executor, now), fault);
         after == WithThread(s, t, if r.Ok? && r.value.status == Running then Registering(id, r.value)
                             else Releasing).(fs := fs)
    case Register(t) =>
      && At(s, t) && s.threads[t].Registering?
      && var th := s.threads[t];
         after == WithThread(s, t, Registered(th.id, th.run)).(cancels := s.cancels[th.id := t])
    case Launch(t) =>
      && At(s, t) && s.threads[t].Registered?
      && var th := s.threads[t];
         after == WithThread(s, t, Executing(th.id)).(cancelMu := None, launches := s.launches[th.id := th.run])
    case Release(t) =>
      && At(s, t) && s.threads[t].Releasing?
      && after == WithThread(s, t, Idle).(cancelMu := None)
    case _ => false
  }

  /** It concludes what the executor returned and ends the run. */
  ghost predicate EndNext(cfg: Config, s: State, step: Step, after: State) {
    match step
    case ExecutorReturns(t, outcome) =>
      && At(s, t) && s.threads[t].Executing?
      && after == WithThread(s, t, Concluding(s.threads[t].id, outcome))
    case Conclude(t, records, result) =>
      && At(s, t) && s.threads[t].Concluding? && RunAt(s.fs, s.threads[t].id).Some?
      && var id, o := s.threads[t].id, s.threads[t].outcome;
         && cfg.concludes(RunAt(s.fs, id).value.terms.agentId, Judgement(o.result, o.err, records, result))
         && after == WithThread(s, t, WantFinish(id, o.(result := result)))
    case LockFinish(t) =>
      && At(s, t) && s.threads[t].WantFinish? && s.cancelMu == None
      && after == WithThread(s, t, Finishing(s.threads[t].id, s.threads[t].outcome)).(cancelMu := Some(t))
    case DoFinish(t, now, fault) =>
      && At(s, t) && s.threads[t].Finishing?
      && var id, o := s.threads[t].id, s.threads[t].outcome;
         after == WithThread(s, t, Deregistering(id)).(
           fs := UpdateRun(s.fs, id, Finish(cfg.executor, o.result, o.err, o.errText, now),
                           WriteFault(cfg, o, fault)).0)
    case Deregister(t) =>
      && At(s, t) && s.threads[t].Deregistering?
      && after == WithThread(s, t, Idle).(cancels := s.cancels - {s.threads[t].id}, cancelMu := None)
    case _ => false
  }

  predicate ClaimStep(step: Step) {
    step.Take? || step.DoClaim? || step.CheckPass? || step.CheckFail? || step.Reject?
  }

  predicate BeginStep(step: Step) {
    step.LockBegin? || step.DoBegin? || step.Register? || step.Launch? || step.Release?
  }

  ghost predicate WorkerNext(cfg: Config, s: State, step: Step, after: State) {
    if ClaimStep(step) then ClaimNext(cfg, s, step, after)
    else if BeginStep(step) then BeginNext(cfg, s, step, after)
    else EndNext(cfg, s, step, after)
  }

  // ---- The steps of API callers and the dispatcher ----

  /** A listing of the queued runs, each once. */
  ghost predicate Listed(fs: Fs, listed: seq<Run>) {
    && (forall r :: r in listed ==> RunAt(fs, r.id) == Some(r) && r.status == Queued)
    && (forall id :: StatusAt(fs, id) == Some(Queued) ==> exists i :: 0 <= i < |listed| && listed[i].id == id)
    && (forall i, j :: 0 <= i < j < |listed| ==> listed[i].id != listed[j].id)
  }

  /** A caller brings an automatic run on its way to a worker. */
  ghost predicate QueueNext(cfg: Config, s: State, step: Step, after: State) {
    match step
    case CreateCall(t, run, fault) =>
      && s.boot.Up? && !At(s, t) && History(run) && run.submission.None? && run.approval.None?
      && (if run.Manual() then run.status == Preparing else run.status == Queued || run.status == WaitingApproval)
      && var (fs, r) := CreateRun(s.fs, run, fault);
         after == (if r.Ok? && run.status == Queued then WithThread(s, t, Enqueuing(run.id)) else s).(fs := fs)
    case Enqueue(t, accepted) =>
      && At(s, t) && s.threads[t].Enqueuing?
      && var id := s.threads[t].id;
         if accepted then |s.queue| < cfg.capacity && after == Push(WithoutThread(s, t), id)
         else after == WithThread(s, t, FailingUnqueued(id))
    case FailUnqueued(t, message, now, fault) =>
      && At(s, t) && s.threads[t].FailingUnqueued?
      && after == WithoutThread(s, t).(
           fs := UpdateRun(s.fs, s.threads[t].id, Fail(cfg.executor, "queue_unavailable", message, now), fault).0)
    case ApproveCall(t, id, tenant, approval, now, fault) =>
      && s.boot.Up? && !At(s, t) && !Blank(approval.id) && !Blank(approval.actor) && !Blank(approval.reason)
      && var (fs, r) := UpdateRun(s.fs, id, Approve(tenant, approval, now), fault);
         after == (if r.Ok? then WithThread(s, t, Enqueuing(id)) else s).(fs := fs)
    case _ => false
  }

  /** A caller cancels a run. */
  ghost predicate CancelNext(cfg: Config, s: State, step: Step, after: State) {
    match step
    case CancelCall(t, c) =>
      && s.boot.Up? && !At(s, t) && RunAt(s.fs, c.id).Some? && RunAt(s.fs, c.id).value.Tenant() == c.tenant
      && after ==
          WithThread(s, t, if RunAt(s.fs, c.id).value.Manual() then CancelWantsInput(c) else CancelWantsMu(c, false))
                  .(fs := Sync(s.fs, RunsDir))
    case CancelLockInput(t) =>
      && At(s, t) && s.threads[t].CancelWantsInput? && s.inputMu == None
      && after == WithThread(s, t, CancelWantsMu(s.threads[t].c, true)).(inputMu := Some(t))
    case CancelLock(t) =>
      && At(s, t) && s.threads[t].CancelWantsMu? && s.cancelMu == None
      && after == WithThread(s, t, Cancelling(s.threads[t].c, s.threads[t].holdsInput)).(cancelMu := Some(t))
    case DoCancel(t, now, fault) =>
      && At(s, t) && s.threads[t].Cancelling?
      && var th := s.threads[t];
         after == WithThread(s, t, CancelReturning(th.c, th.holdsInput)).(
           fs := UpdateRun(s.fs, th.c.id, CancelUpdate(cfg, s, th.c, now), fault).0)
    case CancelReturn(t) =>
      && At(s, t) && s.threads[t].CancelReturning?
      && after == WithoutThread(s, t).(cancelMu := None, inputMu := if s.threads[t].holdsInput then None else s.inputMu)
    case _ => false
  }

  /** A caller submits a manual run. */
  ghost predicate SubmitNext(cfg: Config, s: State, step: Step, after: State) {
    match step
    case SubmitCall(t, id) =>
      && s.boot.Up? && !At(s, t)
      && after == WithThread(s, t, SubmitWants(id))
    case SubmitLock(t) =>
      && At(s, t) && s.threads[t].SubmitWants? && s.inputMu == None
      && after == WithThread(s, t, Submitting(s.threads[t].id)).(inputMu := Some(t))
    case SubmitCommit(t, inputs, submission, now, fault) =>
      && At(s, t) && s.threads[t].Submitting?
      && var id := s.threads[t].id;
         && RunAt(s.fs, id).Some? && RunAt(s.fs, id).value.Manual()
         && var (fs, r) := UpdateRun(s.fs, id, Submit(inputs, submission, now), fault);
            after == (if r.Ok? then WithThread(s, t, Notifying(id))
                      else WithoutThread(s, t).(inputMu := None)).(fs := fs)
    case SubmitAbort(t) =>
      && At(s, t) && s.threads[t].Submitting?
      && after == WithoutThread(s, t).(inputMu := None)
    case Notify(t, accepted) =>
      && At(s, t) && s.threads[t].Notifying?
      && (accepted ==> |s.queue| < cfg.capacity)
      && var free := WithoutThread(s, t).(inputMu := None);
         after == if accepted then Push(free, s.threads[t].id) else free
    case _ => false
  }

  /** The dispatcher's tick, and work elsewhere. */
  ghost predicate TickNext(cfg: Config, s: State, step: Step, after: State) {
    match step
    case TickList(listed) =>
      s.boot.Up? && s.offers == [] && Listed(s.fs, listed) && after == s.(fs := Sync(s.fs, RunsDir), offers := listed)
    case TickSend =>
      && s.offers != []
      && var r, rest := s.offers[0], s.(offers := s.offers[1..]);
         after == if r.Manual() && |s.queue| < cfg.capacity then Push(rest, r.id) else rest
    case Elsewhere =>
      RunsUntouched(s.fs, after.fs) && after == s.(fs := after.fs)
    case _ => false
  }

  predicate QueueStep(step: Step) {
    step.CreateCall? || step.Enqueue? || step.FailUnqueued? || step.ApproveCall?
  }

  predicate CancelStep(step: Step) {
    step.CancelCall? || step.CancelLockInput? || step.CancelLock? || step.DoCancel? || step.CancelReturn?
  }

  predicate SubmitStep(step: Step) {
    step.SubmitCall? || step.SubmitLock? || step.SubmitCommit? || step.SubmitAbort? || step.Notify?
  }

  ghost predicate CallerNext(cfg: Config, s: State, step: Step, after: State) {
    if QueueStep(step) then QueueNext(cfg, s, step, after)
    else if CancelStep(step) then CancelNext(cfg, s, step, after)
    else if SubmitStep(step) then SubmitNext(cfg, s, step, after)
    else TickNext(cfg, s, step, after)
  }

  // ---- Start and restart ----

  ghost predicate InStatus(fs: Fs, ids: set<string>, status: Status) {
    forall id :: id in ids <==> StatusAt(fs, id) == Some(status)
  }

  ghost predicate AllQueued(fs: Fs, rest: seq<string>) {
    && (forall id :: id in rest <==> StatusAt(fs, id) == Some(Queued))
    && (forall i, j :: 0 <= i < j < |rest| ==> rest[i] != rest[j])
  }

  ghost predicate StartNext(cfg: Config, s: State, step: Step, after: State) {
    match step
    case BootCheck(ok) =>
      s.boot.CheckFrozenQueue? && after == s.(boot := if ok then ListValidating else Halted)
    case BootList(ok) =>
      && (s.boot.ListValidating? || s.boot.ListRunning? || s.boot.ListQueued?)
      && if !ok then after == s.(boot := Halted)
         else
           && after == s.(fs := Sync(s.fs, RunsDir), boot := after.boot)
           && (s.boot.ListValidating? ==> after.boot.FailValidating? && InStatus(s.fs, after.boot.todo, Validating))
           && (s.boot.ListRunning? ==> after.boot.FailRunning? && InStatus(s.fs, after.boot.todo, Running))
           && (s.boot.ListQueued? ==> after.boot.Offering? && AllQueued(s.fs, after.boot.rest))
    case BootFail(id, now, fault) =>
      && (s.boot.FailValidating? || s.boot.FailRunning?) && id in s.boot.todo
      && var (fs, r) := UpdateRun(s.fs, id,
                                  Fail(cfg.executor, "service_restarted", "service restarted before run completed",
                                       now), fault);
         after == s.(fs := fs, boot := if r.Err? then Halted
                                       else if s.boot.FailValidating? then FailValidating(s.boot.todo - {id})
                                       else FailRunning(s.boot.todo - {id}))
    case BootNext =>
      || (s.boot == FailValidating({}) && after == s.(boot := ListRunning))
      || (s.boot == FailRunning({}) && after == s.(boot := ListQueued))
      || (s.boot == Offering([]) && after == s.(boot := Up))
    case BootOffer =>
      && s.boot.Offering? && s.boot.rest != [] && |s.queue| < cfg.capacity
      && after == Push(s, s.boot.rest[0]).(boot := Offering(s.boot.rest[1..]))
    case Restarts =>
      Restart(s.fs, after.fs) && after == Fresh(cfg, after.fs, s.launches)
    case _ => false
  }

  /** A process that has just started: idle workers, nothing queued or registered. */
  ghost function Fresh(cfg: Config, fs: Fs, launches: map<string, Run>): State {
    State(fs, [], map[], None, None, map t | t in cfg.workers :: Idle, CheckFrozenQueue, launches, [])
  }

  ghost predicate Next(cfg: Config, s: State, step: Step, after: State) {
    WorkerNext(cfg, s, step, after) || CallerNext(cfg, s, step, after) || StartNext(cfg, s, step, after)
  }

  // ---- What every reachable state satisfies ----

  function Owns(th: Thread): Option<string> {
    if th.Checking? || th.Rejecting? || th.WantBegin? || th.Beginning? || th.Registering? || IsRegistered(th)
    then Some(th.id) else None
  }

  /** The run a thread carries towards a worker. */
  function Token(th: Thread): Option<string> {
    if th.Claiming? || th.Enqueuing? || th.FailingUnqueued? then Some(th.id) else None
  }

  predicate IsRegistered(th: Thread) {
    th.Registered? || th.Executing? || th.Concluding? || th.WantFinish? || th.Finishing? || th.Deregistering?
  }

  function Registration(th: Thread): Option<string> {
    if IsRegistered(th) then Some(th.id) else None
  }

  predicate HoldsCancelMu(th: Thread) {
    || th.Beginning? || th.Registering? || th.Registered? || th.Releasing? || th.Finishing? || th.Deregistering?
    || th.Cancelling? || th.CancelReturning?
  }

  predicate HoldsInputMu(th: Thread) {
    || th.Submitting? || th.Notifying?
    || ((th.CancelWantsMu? || th.Cancelling? || th.CancelReturning?) && th.holdsInput)
  }

  /** A run on its way to a worker: an automatic one is still queued, or was ended meanwhile. */
  predicate TokenFits(fs: Fs, id: string) {
    && RunAt(fs, id).Some?
    && (Automatic(fs, id) ==> RunAt(fs, id).value.status == Queued || RunAt(fs, id).value.status.Terminal())
  }

  predicate PreFits(fs: Fs, launches: map<string, Run>, id: string) {
    && RunAt(fs, id).Some? && id !in launches
    && (RunAt(fs, id).value.status == Validating || RunAt(fs, id).value.status.Terminal())
  }

  ghost predicate DurablyRunning(fs: Fs, id: string) {
    && RunAt(fs, id).Some? && !Candidate(fs, RunName(id), None)
    && forall r :: HasRun(fs, id, r) ==> r.status == Running
  }

  /** What a thread may rely on at its program counter. */
  ghost predicate Facts(cfg: Config, fs: Fs, cancels: map<string, nat>, launches: map<string, Run>, th: Thread) {
    match th
    case Claiming(id) => TokenFits(fs, id)
    case Enqueuing(id) => TokenFits(fs, id) && Automatic(fs, id)
    case FailingUnqueued(id) => TokenFits(fs, id) && Automatic(fs, id)
    case Checking(id, run) =>
      && PreFits(fs, launches, id) && id !in cancels
      && (ExecutionAllowed(cfg, run) ==> ExecutionAllowed(cfg, RunAt(fs, id).value))
    case Rejecting(id, _, _) => PreFits(fs, launches, id) && id !in cancels
    case WantBegin(id) => PreFits(fs, launches, id) && id !in cancels && ExecutionAllowed(cfg, RunAt(fs, id).value)
    case Beginning(id) => PreFits(fs, launches, id) && id !in cancels && ExecutionAllowed(cfg, RunAt(fs, id).value)
    case Registering(id, run) =>
        DurablyRunning(fs, id) && id !in launches && id !in cancels && ExecutionAllowed(cfg, run)
    case Registered(id, run) => DurablyRunning(fs, id) && id !in launches && id in cancels && ExecutionAllowed(cfg, run)
    case Executing(id) => StatusAt(fs, id) == Some(Running) && id in cancels && id in launches
    case Concluding(id, _) => StatusAt(fs, id) == Some(Running) && id in cancels && id in launches
    case WantFinish(id, _) => StatusAt(fs, id) == Some(Running) && id in cancels && id in launches
    case Finishing(id, _) => StatusAt(fs, id) == Some(Running) && id in cancels && id in launches
    case Deregistering(id) => id in cancels && id in launches
    case Notifying(id) => RunAt(fs, id).Some? && RunAt(fs, id).value.Manual()
    case _ => true
  }

  /** Waiting for approval is for automatic runs only. */
  ghost predicate RunsOk(fs: Fs) {
    StoreInv(fs) && forall id, r :: HasRun(fs, id, r) && r.status == WaitingApproval ==> !r.Manual()
  }

  ghost predicate Locks(s: State) {
    && (forall t :: t in s.threads ==> (HoldsCancelMu(s.threads[t]) <==> s.cancelMu == Some(t)))
    && (forall t :: t in s.threads ==> (HoldsInputMu(s.threads[t]) <==> s.inputMu == Some(t)))
    && (s.cancelMu.Some? ==> s.cancelMu.value in s.threads)
    && (s.inputMu.Some? ==> s.inputMu.value in s.threads)
  }

  ghost predicate OneOwner(s: State) {
    forall t, u ::
        t in s.threads && u in s.threads && Owns(s.threads[t]).Some? && Owns(s.threads[t]) == Owns(s.threads[u]) ==>
            t == u
  }

  ghost predicate AllFacts(cfg: Config, s: State) {
    forall t :: t in s.threads ==> Facts(cfg, s.fs, s.cancels, s.launches, s.threads[t])
  }

  ghost predicate CancelsRegistered(s: State) {
    forall id :: id in s.cancels ==> s.cancels[id] in s.threads && Registration(s.threads[s.cancels[id]]) == Some(id)
  }

  /** A launched run has begun for good. */
  ghost predicate LaunchedStarted(cfg: Config, s: State) {
    forall id :: id in s.launches ==>
      && RunAt(s.fs, id).Some? && ExecutionAllowed(cfg, s.launches[id])
      && !Candidate(s.fs, RunName(id), None)
      && forall r :: HasRun(s.fs, id, r) ==> Rank(r.status) <= 1
  }

  predicate Pending(s: State, id: string) {
    id in s.queue || (s.boot.Offering? && id in s.boot.rest)
  }

  predicate SameToken(s: State, a: Thread, b: Thread) {
    Token(a).Some? && Token(a) == Token(b) && Automatic(s.fs, Token(a).value)
  }

  /** An automatic run has at most one token: a place in the queue or in the recovery list, or a thread carrying it. */
  ghost predicate Tokens(s: State) {
    && (forall id :: Pending(s, id) ==> TokenFits(s.fs, id))
    && (forall i, j :: 0 <= i < j < |s.queue| && s.queue[i] == s.queue[j] ==> !Automatic(s.fs, s.queue[i]))
    && (s.boot.Offering? ==> forall i, j :: 0 <= i < j < |s.boot.rest| ==> s.boot.rest[i] != s.boot.rest[j])
    && (s.boot.Offering? ==> forall id :: id in s.boot.rest && id in s.queue ==> !Automatic(s.fs, id))
    && (forall t, id :: t in s.threads && Token(s.threads[t]) == Some(id) && Pending(s, id) ==> !Automatic(s.fs, id))
    && (forall t, u :: t in s.threads && u in s.threads && SameToken(s, s.threads[t], s.threads[u]) ==> t == u)
  }

  predicate Early(b: Boot) {
    b.CheckFrozenQueue? || b.ListValidating? || b.FailValidating? || b.ListRunning? || b.FailRunning? || b.ListQueued?
  }

  /** Until recovery has listed the queued runs nothing else is going on. */
  ghost predicate Quiet(s: State) {
    Early(s.boot) ==> s.queue == [] && s.cancels == map[] && s.offers == [] && forall t :: t in s.threads ==>
        s.threads[t].Idle?
  }

  ghost predicate Core(cfg: Config, s: State) {
    && RunsOk(s.fs) && Locks(s) && OneOwner(s) && AllFacts(cfg, s) && CancelsRegistered(s)
    && LaunchedStarted(cfg, s) && Tokens(s) && Quiet(s)
  }

  predicate Good(status: Status) { status == Succeeded || status == Partial }

  predicate HasOutcome(th: Thread) { th.WantFinish? || th.Finishing? }

  /** The record a worker checks still has the input and the frozen policy of the run. */
  ghost predicate Snapshot(fs: Fs, id: string, run: Run) {
    run.id == id && run.status == Validating && RunAt(fs, id).Some? && SameInput(run, RunAt(fs, id).value)
  }

  ghost predicate Snapshots(s: State) {
    forall t :: t in s.threads && s.threads[t].Checking? ==> Snapshot(s.fs, s.threads[t].id, s.threads[t].run)
  }

  /** What the dispatcher still offers are runs of the store. */
  ghost predicate Offered(s: State) {
    forall r :: r in s.offers ==> RunAt(s.fs, r.id).Some? && RunAt(s.fs, r.id).value.terms == r.terms
  }

  ghost predicate Inv(cfg: Config, s: State) {
    Core(cfg, s) && Snapshots(s) && Offered(s)
  }
}
