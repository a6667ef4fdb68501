/** Every step of the run service keeps its invariant. */
module RunServiceSteps {
  import opened Prelude
  import opened Domain
  import opened Runs
  import opened RunUpdates
  import opened Disk
  import opened RunFiles
  import opened Strings
  import opened RunService

  /** The file of `id` is as it was, or fewer old values can come back. */
  ghost predicate Gentle(fs: Fs, after: Fs, id: string) {
    && RunAt(after, id) == RunAt(fs, id)
    && forall v :: Candidate(after, RunName(id), v) ==> Candidate(fs, RunName(id), v)
  }

  ghost predicate GentleBut(fs: Fs, after: Fs, id: string) {
    && (forall x :: x != id ==> RunAt(after, x) == RunAt(fs, x))
    && (forall x, v :: x != id && Candidate(after, RunName(x), v) ==> Candidate(fs, RunName(x), v))
  }

  lemma UpdateRunsOk(fs: Fs, id: string, m: Mutation, fault: Fault)
    requires RunsOk(fs)
    ensures RunsOk(UpdateRun(fs, id, m, fault).0)
  {
    UpdateKeeps(fs, id, m, fault);
    var after := UpdateRun(fs, id, m, fault).0;
    if RunAt(fs, id).Some? && Mutate(m, RunAt(fs, id).value).Ok? {
      var before, written := RunAt(fs, id).value, Mutate(m, RunAt(fs, id).value).value;
      MutateStatus(m, before);
      MutateFrame(m, before);
      assert HasRun(fs, id, before);
      forall x, r | HasRun(after, x, r) && r.status == WaitingApproval ensures !r.Manual() {
        if !HasRun(fs, x, r) {
          assert x == id && r == written;
        }
      }
    }
  }

  lemma PutShape(fs: Fs, id: string, r: Run, fault: Fault)
    ensures GentleBut(fs, PutRun(fs, id, r, fault), id)
    ensures RunAt(PutRun(fs, id, r, fault), id) == RunAt(fs, id) || RunAt(PutRun(fs, id, r, fault), id) == Some(r)
    ensures forall v :: Candidate(PutRun(fs, id, r, fault), RunName(id), v) ==>
              Candidate(fs, RunName(id), v) || v == Some(RunFile(r))
    ensures fault.NoFault? ==>
              RunAt(PutRun(fs, id, r, fault), id) == Some(r) &&
                  Settled(PutRun(fs, id, r, fault), RunName(id), RunFile(r))
  {
  }

  /** After an attempted update the file shows the old record or the new one. */
  ghost predicate Touched(fs: Fs, id: string, m: Mutation, after: Fs) {
    match RunAt(fs, id)
    case None => Gentle(fs, after, id)
    case Some(r) =>
      && TermsAt(after, id) == Some(r.terms)
      && (RunAt(after, id) == Some(r) || Updated(m, r, RunAt(after, id)))
      && forall v :: Candidate(after, RunName(id), v) ==>
           Candidate(fs, RunName(id), v) || (Mutate(m, r).Ok? && v == Some(RunFile(Mutate(m, r).value)))
  }

  predicate Updated(m: Mutation, r: Run, now: Option<Run>) {
    now.Some? && Mutate(m, r) == Ok(now.value)
  }

  /** An answered update is on disk for good. */
  ghost predicate Written(fs: Fs, id: string, m: Mutation, after: Fs, answer: Result<Run, Error>) {
    answer.Ok? ==>
      && RunAt(fs, id).Some? && Mutate(m, RunAt(fs, id).value) == answer
      && RunAt(after, id) == Some(answer.value)
      && Settled(after, RunName(id), RunFile(answer.value))
  }

  /** What an update does to the run files. */
  lemma UpdateEffect(fs: Fs, id: string, m: Mutation, fault: Fault)
    requires RunsOk(fs)
    ensures RunsOk(UpdateRun(fs, id, m, fault).0)
    ensures GentleBut(fs, UpdateRun(fs, id, m, fault).0, id)
    ensures Touched(fs, id, m, UpdateRun(fs, id, m, fault).0)
    ensures Written(fs, id, m, UpdateRun(fs, id, m, fault).0, UpdateRun(fs, id, m, fault).1)
  {
    UpdateRunsOk(fs, id, m, fault);
    hide RunsOk, Mutate, Candidate, Settled;
    if RunAt(fs, id).Some? && Mutate(m, RunAt(fs, id).value).Ok? {
      MutateFrame(m, RunAt(fs, id).value);
      PutShape(fs, id, Mutate(m, RunAt(fs, id).value).value, fault);
    }
  }

  function Mentions(th: Thread): Option<string> {
    if Token(th).Some? then Token(th) else if Owns(th).Some? then Owns(th)
    else if th.Notifying? then Some(th.id) else None
  }

  ghost predicate KeepsRun(s: State, after: State, id: string) {
    && Gentle(s.fs, after.fs, id) && (id in after.cancels <==> id in s.cancels)
    && (id in after.launches <==> id in s.launches)
  }

  ghost predicate KeepsMentioned(s: State, after: State, th: Thread) {
    match Mentions(th)
    case Some(id) => KeepsRun(s, after, id)
    case None => true
  }

  ghost predicate FactsAt(cfg: Config, s: State, th: Thread) {
    Facts(cfg, s.fs, s.cancels, s.launches, th)
  }

  /** Facts depend only on the run they mention. */
  lemma FactsGentle(cfg: Config, s: State, after: State, th: Thread)
    requires FactsAt(cfg, s, th) && KeepsMentioned(s, after, th)
    ensures FactsAt(cfg, after, th)
  {
  }

  // ---- The shape of each step ----

  /** The store update a step performs. */
  function StepUpdate(cfg: Config, s: State, step: Step): Option<(string, Mutation, Fault)> {
    var th := ThreadAt(s, Actor(step));
    match step
    case DoClaim(_, now, fault) => if th.Claiming? then Some((th.id, Claim(now), fault)) else None
    case Reject(_, now, fault) =>
      if th.Rejecting? then Some((th.id, Fail(cfg.executor, th.code, th.message, now), fault)) else None
    case DoBegin(_, now, fault) => if th.Beginning? then Some((th.id, Begin(cfg.executor, now), fault)) else None
    case DoFinish(_, now, fault) =>
      if th.Finishing? then
        var o := th.outcome;
        Some((th.id, Finish(cfg.executor, o.result, o.err, o.errText, now), WriteFault(cfg, o, fault)))
      else None
    case FailUnqueued(_, message, now, fault) =>
      if th.FailingUnqueued? then Some((th.id, Fail(cfg.executor, "queue_unavailable", message, now), fault)) else None
    case ApproveCall(_, id, tenant, approval, now, fault) => Some((id, Approve(tenant, approval, now), fault))
    case DoCancel(_, now, fault) =>
        if th.Cancelling? then Some((th.c.id, CancelUpdate(cfg, s, th.c, now), fault)) else None
    case SubmitCommit(_, inputs, submission, now, fault) =>
      if th.Submitting? then Some((th.id, Submit(inputs, submission, now), fault)) else None
    case BootFail(id, now, fault) =>
      Some((id, Fail(cfg.executor, "service_restarted", "service restarted before run completed", now), fault))
    case _ => None
  }

  predicate Unstarted(status: Status) { status == Preparing || status == Queued || status == WaitingApproval }

  ghost predicate Enters(run: Run) {
    && History(run) && run.submission.None? && run.approval.None? && Unstarted(run.status)
    && (run.status == WaitingApproval ==> !run.Manual())
  }

  /** Every step touches the run files in one of five ways: by one of the service's updates, a creation, a restart,
      by work on other files, or not at all but for a sync. */
  ghost predicate FilesChange(cfg: Config, s: State, step: Step, fs: Fs) {
    match StepUpdate(cfg, s, step)
    case Some(u) => fs == UpdateRun(s.fs, u.0, u.1, u.2).0
    case None =>
      if step.CreateCall? then Enters(step.run) && fs == CreateRun(s.fs, step.run, step.fault).0
      else if step.Restarts? then Restart(s.fs, fs)
      else if step.Elsewhere? then RunsUntouched(s.fs, fs)
      else fs == s.fs || fs == Sync(s.fs, RunsDir)
  }

  ghost predicate OthersSame(s: State, after: State, t: nat) {
    forall u :: u != t ==>
        (u in after.threads <==> u in s.threads) && (u in s.threads ==> after.threads[u] == s.threads[u])
  }

  predicate LockRule(before: Option<nat>, after: Option<nat>, t: nat, held: bool, holds: bool) {
    if held == holds then after == before
    else if holds then before == None && after == Some(t)
    else after == None
  }

  /** Thread `t` alone moves; it takes only free locks and frees only its own. */
  ghost predicate Moves(s: State, after: State, t: nat) {
    && OthersSame(s, after, t)
    && LockRule(s.cancelMu, after.cancelMu, t, HoldsCancelMu(ThreadAt(s, t)), HoldsCancelMu(ThreadAt(after, t)))
    && LockRule(s.inputMu, after.inputMu, t, HoldsInputMu(ThreadAt(s, t)), HoldsInputMu(ThreadAt(after, t)))
  }

  /** The states in which a thread neither holds nor gives back a lock. */
  predicate Lockless(th: Thread) {
    th.Idle? || th.Claiming? || th.Checking? || th.Rejecting? || th.WantBegin? || th.Enqueuing? || th.FailingUnqueued?
  }

  ghost predicate Unlocked(s: State, after: State, t: nat) {
    && OthersSame(s, after, t) && after.cancelMu == s.cancelMu && after.inputMu == s.inputMu
    && Lockless(ThreadAt(s, t)) && Lockless(ThreadAt(after, t))
  }

  lemma UnlockedMoves(s: State, after: State, t: nat)
    requires Unlocked(s, after, t)
    ensures Moves(s, after, t)
  {
    hide OthersSame;
  }

  /** Registrations change only for the run of thread `t`. */
  ghost predicate Registers(s: State, after: State, t: nat) {
    var was, now := Registration(ThreadAt(s, t)), Registration(ThreadAt(after, t));
    if was == now then after.cancels == s.cancels
    else if was == None then now.Some? && after.cancels == s.cancels[now.value := t]
    else now == None && after.cancels == s.cancels - {was.value}
  }

  ghost predicate Owner(s: State, after: State, t: nat) {
    var was, now := Owns(ThreadAt(s, t)), Owns(ThreadAt(after, t));
    now == was || now == None || (ThreadAt(s, t).Claiming? && now == Some(ThreadAt(s, t).id))
  }

  /** The run a step hands to the executor. */
  function LaunchedRun(s: State, step: Step): Option<string> {
    if step.Launch? && ThreadAt(s, step.t).Registered? then Some(ThreadAt(s, step.t).id) else None
  }

  /** The launches after a step: only a launch adds one, of the run it hands over. */
  predicate LaunchRule(s: State, step: Step, after: State) {
    if step.Launch? then
      var th := ThreadAt(s, step.t);
      th.Registered? && after.launches == s.launches[th.id := th.run]
    else after.launches == s.launches
  }

  predicate SameOutcome(th: Thread, now: Thread) {
    HasOutcome(th) && HasOutcome(now) && now.id == th.id && now.outcome == th.outcome
  }

  /** The executor returns with what the worker is to judge. */
  predicate Returns(step: Step, was: Thread, now: Thread) {
    match step
    case ExecutorReturns(_, o) => was.Executing? && now == Concluding(was.id, o)
    case _ => false
  }

  predicate Executes(th: Thread) {
    th.Executing? || th.Concluding? || th.WantFinish? || th.Finishing?
  }

  /** The run this worker has begun and not yet written the end of. */
  function Attending(th: Thread): Option<string> {
    if th.Registering? || th.Registered? || Executes(th) then Some(th.id) else None
  }

  /** Where a worker can be before a step, and which steps put a record or an outcome into its hands. */
  predicate Course(step: Step, was: Thread, now: Thread) {
    && (was.Claiming? <==> step.DoClaim?) && !was.Enqueuing? && !was.FailingUnqueued?
    && (was.Idle? <==> step.Take?) && (was.Deregistering? ==> step.Deregister?)
    && (step.Deregister? || step.Release? || step.Reject? ==> now.Idle?)
    && (step.DoBegin? ==> was.Beginning? && (now.Releasing? || (now.Registering? && now.id == was.id)))
    && (step.DoFinish? ==> was.Finishing? && now.Deregistering? && now.id == was.id)
    && (HasOutcome(now) && !step.Conclude? ==> SameOutcome(was, now)) && (now.Checking? ==> step.DoClaim?)
    && (now.Concluding? ==> Returns(step, was, now))
    && (step.DoBegin? || step.DoFinish? || Attending(now) == Attending(was))
  }

  predicate WorkerStep(step: Step) {
    || step.Take? || step.DoClaim? || step.Reject? || step.DoBegin? || step.DoFinish? || step.Release? || Internal(step)
  }

  /** Steps of a worker on its own run that leave the store alone. */
  predicate Internal(step: Step) {
    || step.CheckPass? || step.CheckFail? || step.LockBegin? || step.Register? || step.Launch?
    || step.ExecutorReturns? || step.Conclude? || step.LockFinish? || step.Deregister?
  }

  /** What holds of every step of a worker. */
  ghost predicate WorkerShape(cfg: Config, s: State, step: Step, after: State) {
    var t := Actor(step);
    && WorkerStep(step) && t in s.threads && after.boot == s.boot && after.offers == s.offers
    && (step.Take? || after.queue == s.queue) && (step.Take? ==> s.queue != [])
    && LaunchRule(s, step, after)
    && Course(step, ThreadAt(s, t), ThreadAt(after, t)) && FilesChange(cfg, s, step, after.fs)
  }

  lemma ClaimShape(cfg: Config, s: State, step: Step, after: State)
    requires ClaimNext(cfg, s, step, after)
    ensures WorkerShape(cfg, s, step, after)
  {
    hide UpdateRun, ExecutionAllowed, RunAt;
  }

  lemma ClaimMoves(cfg: Config, s: State, step: Step, after: State)
    requires ClaimNext(cfg, s, step, after)
    ensures Unlocked(s, after, Actor(step)) && Registers(s, after, Actor(step)) && Owner(s, after, Actor(step))
  {
    hide UpdateRun, ExecutionAllowed, RunAt;
  }

  lemma BeginShape(cfg: Config, s: State, step: Step, after: State)
    requires BeginNext(cfg, s, step, after)
    ensures WorkerShape(cfg, s, step, after)
  {
    hide UpdateRun, ExecutionAllowed, RunAt;
  }

  lemma BeginOwns(cfg: Config, s: State, step: Step, after: State)
    requires BeginNext(cfg, s, step, after)
    ensures Registers(s, after, Actor(step)) && Owner(s, after, Actor(step))
  {
    hide UpdateRun, ExecutionAllowed, RunAt, StatusAt, WriteFault;
  }

  lemma BeginMoves(cfg: Config, s: State, step: Step, after: State)
    requires BeginNext(cfg, s, step, after)
    ensures Moves(s, after, Actor(step))
  {
    hide UpdateRun, ExecutionAllowed, RunAt;
  }

  lemma EndShape(cfg: Config, s: State, step: Step, after: State)
    requires EndNext(cfg, s, step, after)
    ensures WorkerShape(cfg, s, step, after)
  {
    hide UpdateRun, WriteFault, RunAt;
  }

  lemma EndMoves(cfg: Config, s: State, step: Step, after: State)
    requires EndNext(cfg, s, step, after)
    ensures Moves(s, after, Actor(step)) && Registers(s, after, Actor(step)) && Owner(s, after, Actor(step))
  {
    hide UpdateRun, WriteFault, RunAt;
  }

  lemma WorkerMoves(cfg: Config, s: State, step: Step, after: State)
    requires WorkerNext(cfg, s, step, after)
    ensures WorkerShape(cfg, s, step, after)
    ensures Moves(s, after, Actor(step)) && Registers(s, after, Actor(step)) && Owner(s, after, Actor(step))
  {
    hide ClaimNext, BeginNext, EndNext, WorkerShape, Moves, Registers, Owner, Unlocked, Actor;
    if ClaimStep(step) {
      ClaimShape(cfg, s, step, after);
      ClaimMoves(cfg, s, step, after);
      UnlockedMoves(s, after, Actor(step));
    } else if BeginStep(step) {
      BeginShape(cfg, s, step, after);
      BeginOwns(cfg, s, step, after);
      BeginMoves(cfg, s, step, after);
    } else {
      EndShape(cfg, s, step, after);
      EndMoves(cfg, s, step, after);
    }
  }

  /** The states of a caller, also before it comes and after it has gone. */
  predicate Outside(th: Thread) {
    || th.Idle? || th.Enqueuing? || th.FailingUnqueued? || th.CancelWantsInput? || th.CancelWantsMu? || th.Cancelling?
    || th.CancelReturning? || th.SubmitWants? || th.Submitting? || th.Notifying?
  }

  lemma OutsideOwnsNothing(th: Thread)
    requires Outside(th)
    ensures Owns(th) == None && Registration(th) == None && Attending(th) == None
    ensures Silent(th) ==> Mentions(th) == None
  {
  }

  predicate CallerStep(step: Step) {
    || step.CreateCall? || step.Enqueue? || step.Notify? || step.TickList? || step.TickSend? || step.Elsewhere?
    || step.FailUnqueued? || step.ApproveCall? || step.DoCancel? || step.SubmitCommit? || Plain(step)
  }

  /** Steps of a caller that only move it along, or read. */
  predicate Plain(step: Step) {
    || step.CancelCall? || step.CancelLockInput? || step.CancelLock? || step.CancelReturn?
    || step.SubmitCall? || step.SubmitLock? || step.SubmitAbort?
  }

  /** A caller that brings no run to a worker. */
  predicate Silent(th: Thread) { Outside(th) && !th.Enqueuing? && !th.FailingUnqueued? && !th.Notifying? }

  /** What holds of every step of a caller with its own thread. */
  ghost predicate CallerShape(cfg: Config, s: State, step: Step, after: State) {
    var t := Actor(step);
    && CallerStep(step) && HasThread(step) && after.boot == s.boot && after.offers == s.offers
    && after.launches == s.launches && after.cancels == s.cancels
    && (s.boot.Up? || !ThreadAt(s, t).Idle?)
    && Outside(ThreadAt(s, t)) && Outside(ThreadAt(after, t))
    && (Plain(step) ==>
          after.queue == s.queue && Silent(ThreadAt(after, t)) && (after.fs == s.fs || after.fs == Sync(s.fs, RunsDir)))
    && FilesChange(cfg, s, step, after.fs)
  }

  lemma QueueShape(cfg: Config, s: State, step: Step, after: State)
    requires QueueNext(cfg, s, step, after)
    ensures CallerShape(cfg, s, step, after)
  {
    hide UpdateRun, CreateRun, History, Blank, RunAt;
  }

  lemma QueueMoves(cfg: Config, s: State, step: Step, after: State)
    requires QueueNext(cfg, s, step, after)
    ensures Unlocked(s, after, Actor(step))
  {
    hide UpdateRun, CreateRun, History, Blank, RunAt;
  }

  lemma CancelShape(cfg: Config, s: State, step: Step, after: State)
    requires CancelNext(cfg, s, step, after)
    ensures CallerShape(cfg, s, step, after)
  {
    hide UpdateRun, RunAt, CancelUpdate;
  }

  lemma CancelMoves(cfg: Config, s: State, step: Step, after: State)
    requires CancelNext(cfg, s, step, after)
    ensures Moves(s, after, Actor(step))
  {
    hide UpdateRun, RunAt, CancelUpdate;
  }

  lemma SubmitShape(cfg: Config, s: State, step: Step, after: State)
    requires SubmitNext(cfg, s, step, after)
    ensures CallerShape(cfg, s, step, after)
  {
    hide UpdateRun, RunAt;
  }

  lemma SubmitMoves(cfg: Config, s: State, step: Step, after: State)
    requires SubmitNext(cfg, s, step, after)
    ensures Moves(s, after, Actor(step))
  {
    hide UpdateRun, RunAt;
  }

  /** What holds of a tick, and of work elsewhere. */
  ghost predicate TickShape(cfg: Config, s: State, step: Step, after: State) {
    && CallerStep(step) && !HasThread(step)
    && after == s.(fs := after.fs, queue := after.queue, offers := after.offers)
    && (step.TickSend? || after.queue == s.queue) && (step.TickList? ==> s.boot.Up?)
    && (step.TickSend? ==> s.offers != [])
    && (step.Elsewhere? ==> after.offers == s.offers)
    && FilesChange(cfg, s, step, after.fs)
  }

  lemma TickMoves(cfg: Config, s: State, step: Step, after: State)
    requires TickNext(cfg, s, step, after)
    ensures TickShape(cfg, s, step, after)
  {
    hide RunsUntouched, Listed, Sync, RunAt;
  }

  lemma CallerMoves(cfg: Config, s: State, step: Step, after: State)
    requires CallerNext(cfg, s, step, after)
    ensures if HasThread(step) then CallerShape(cfg, s, step, after) && Moves(s, after, Actor(step))
            else TickShape(cfg, s, step, after)
  {
    hide QueueNext, CancelNext, SubmitNext, TickNext, Moves, Unlocked, Actor, FilesChange, Outside, CallerStep;
    if QueueStep(step) {
      QueueShape(cfg, s, step, after);
      QueueMoves(cfg, s, step, after);
      UnlockedMoves(s, after, Actor(step));
    } else if CancelStep(step) {
      CancelShape(cfg, s, step, after);
      CancelMoves(cfg, s, step, after);
    } else if SubmitStep(step) {
      SubmitShape(cfg, s, step, after);
      SubmitMoves(cfg, s, step, after);
    } else {
      TickMoves(cfg, s, step, after);
    }
  }

  /** A step whose store operation, if it has one, succeeds or is refused, and that is not a restart. */
  predicate Reliable(step: Step) {
    match step
    case DoClaim(_, _, fault) => fault.NoFault?
    case Reject(_, _, fault) => fault.NoFault?
    case DoBegin(_, _, fault) => fault.NoFault?
    case DoFinish(_, _, fault) => fault.NoFault?
    case CreateCall(_, _, fault) => fault.NoFault?
    case FailUnqueued(_, _, _, fault) => fault.NoFault?
    case ApproveCall(_, _, _, _, _, fault) => fault.NoFault?
    case DoCancel(_, _, fault) => fault.NoFault?
    case SubmitCommit(_, _, _, _, fault) => fault.NoFault?
    case BootFail(_, _, fault) => fault.NoFault?
    case BootCheck(ok) => ok
    case BootList(ok) => ok
    case Restarts => false
    case _ => true
  }

  // ---- Locks, ownership and registrations ----

  ghost predicate Books(s: State) { Locks(s) && OneOwner(s) && CancelsRegistered(s) }

  /** A claimed run had no owner. */
  ghost predicate ClaimsFreely(s: State, after: State, t: nat) {
    ThreadAt(s, t).Claiming? ==>
      Owns(ThreadAt(after, t)) == None || forall u :: u in s.threads ==> Owns(s.threads[u]) != Some(ThreadAt(s, t).id)
  }

  lemma LocksKept(s: State, after: State, t: nat)
    requires Locks(s) && Moves(s, after, t)
    ensures Locks(after)
  {
  }

  lemma RegistrationsKept(s: State, after: State, t: nat)
    requires CancelsRegistered(s) && OneOwner(s) && OthersSame(s, after, t) && Registers(s, after, t)
    ensures CancelsRegistered(after)
  {
  }

  lemma BooksKept(s: State, after: State, t: nat)
    requires Books(s) && Moves(s, after, t) && Registers(s, after, t) && Owner(s, after, t) && ClaimsFreely(s, after, t)
    ensures Books(after)
  {
    LocksKept(s, after, t);
    RegistrationsKept(s, after, t);
  }

  /** Something is going on: recovery has listed the queued runs. */
  ghost predicate Active(s: State) {
    s.boot.Up? || s.queue != [] || s.offers != [] || exists t :: !ThreadAt(s, t).Idle?
  }

  lemma NotEarly(s: State, after: State)
    requires Quiet(s) && Active(s)
    ensures !Early(s.boot) && (after.boot == s.boot ==> Quiet(after))
  {
  }

  /** The bookkeeping part of a worker's step. */
  lemma WorkerBooks(cfg: Config, s: State, step: Step, after: State)
    requires Core(cfg, s) && WorkerNext(cfg, s, step, after) && ClaimsFreely(s, after, Actor(step))
    ensures Books(after) && Quiet(after) && WorkerShape(cfg, s, step, after) && OthersSame(s, after, Actor(step))
  {
    hide RunsOk, AllFacts, Tokens, LaunchedStarted, Locks, OneOwner, CancelsRegistered, Quiet, WorkerNext,
         FilesChange, OthersSame, Registers, Owner, LaunchRule, ClaimsFreely;
    WorkerMoves(cfg, s, step, after);
    BooksKept(s, after, Actor(step));
    NotEarly(s, after);
  }

  /** The bookkeeping part of a caller's step. */
  lemma CallerBooks(cfg: Config, s: State, step: Step, after: State)
    requires Core(cfg, s) && CallerNext(cfg, s, step, after) && HasThread(step)
    ensures Books(after) && Quiet(after) && CallerShape(cfg, s, step, after) && OthersSame(s, after, Actor(step))
  {
    hide RunsOk, AllFacts, Tokens, LaunchedStarted, Locks, OneOwner, CancelsRegistered, Quiet, CallerNext,
         FilesChange, OthersSame;
    CallerMoves(cfg, s, step, after);
    var t := Actor(step);
    OutsideOwnsNothing(ThreadAt(s, t));
    OutsideOwnsNothing(ThreadAt(after, t));
    hide Outside, Owns, Registration;
    BooksKept(s, after, t);
    NotEarly(s, after);
  }

  // ---- Facts, launches and tokens ----

  /** A step about run `y`: everything about other runs is as it was. */
  ghost predicate About(s: State, after: State, y: string) {
    && GentleBut(s.fs, after.fs, y)
    && (forall x :: x != y ==> (x in after.cancels <==> x in s.cancels))
    && (forall x :: x != y ==> (x in after.launches <==> x in s.launches))
  }

  lemma FactsOf(cfg: Config, s: State, t: nat)
    requires AllFacts(cfg, s)
    ensures FactsAt(cfg, s, ThreadAt(s, t))
  {
    assert t in s.threads ==> Facts(cfg, s.fs, s.cancels, s.launches, s.threads[t]);
  }

  lemma FactsKept(cfg: Config, s: State, after: State, t: nat, y: string)
    requires AllFacts(cfg, s) && OthersSame(s, after, t) && About(s, after, y)
    requires forall u :: u != t && Mentions(ThreadAt(s, u)) == Some(y) ==> FactsAt(cfg, after, ThreadAt(s, u))
    requires FactsAt(cfg, after, ThreadAt(after, t))
    ensures AllFacts(cfg, after)
  {
    forall u | u in after.threads ensures FactsAt(cfg, after, after.threads[u]) {
      if u != t && Mentions(ThreadAt(s, u)) != Some(y) {
        FactsOf(cfg, s, u);
        hide Facts;
        FactsGentle(cfg, s, after, ThreadAt(s, u));
      }
    }
  }

  lemma LaunchedKept(cfg: Config, s: State, after: State, y: string, m: Mutation)
    requires LaunchedStarted(cfg, s) && GentleBut(s.fs, after.fs, y) && after.launches == s.launches
    requires Touched(s.fs, y, m, after.fs)
    ensures LaunchedStarted(cfg, after)
  {
    hide Mutate;
    if RunAt(s.fs, y).Some? && Mutate(m, RunAt(s.fs, y).value).Ok? {
      MutateStatus(m, RunAt(s.fs, y).value);
      assert HasRun(s.fs, y, RunAt(s.fs, y).value);
    }
  }

  lemma TokensFrame(s: State, after: State, t: nat)
    requires Tokens(s) && OthersSame(s, after, t) && after.queue == s.queue && after.boot == s.boot
    requires forall id :: Automatic(after.fs, id) == Automatic(s.fs, id)
    requires forall id :: Pending(s, id) ==> TokenFits(after.fs, id)
    requires Token(ThreadAt(after, t)) == Token(ThreadAt(s, t)) || Token(ThreadAt(after, t)) == None
    ensures Tokens(after)
  {
    hide Automatic, TokenFits;
    forall u, v | u in after.threads && v in after.threads && SameToken(after, after.threads[u], after.threads[v])
      ensures u == v {
      assert SameToken(s, s.threads[u], s.threads[v]);
    }
    assert forall id :: Pending(after, id) == Pending(s, id);
  }

  /** What the threads carry and the queue hold stays, and still fits the runs. */
  lemma TokensKept(s: State, after: State, t: nat, y: string)
    requires Tokens(s) && OthersSame(s, after, t) && GentleBut(s.fs, after.fs, y)
    requires after.queue == s.queue && after.boot == s.boot && TermsAt(after.fs, y) == TermsAt(s.fs, y)
    requires Pending(s, y) ==> TokenFits(after.fs, y)
    requires Token(ThreadAt(after, t)) == Token(ThreadAt(s, t)) || Token(ThreadAt(after, t)) == None
    ensures Tokens(after)
  {
    forall id ensures Automatic(after.fs, id) == Automatic(s.fs, id) {
    }
    forall id | Pending(s, id) ensures TokenFits(after.fs, id) {
      assert TokenFits(s.fs, id);
    }
    TokensFrame(s, after, t);
  }

  predicate Underway(status: Option<Status>) {
    status.Some? && (status.value == Validating || Rank(status.value) <= 1)
  }

  /** The worker that holds a run knows how far it is. */
  lemma OwnerStatus(cfg: Config, s: State, u: nat, id: string)
    requires AllFacts(cfg, s) && Owns(ThreadAt(s, u)) == Some(id)
    requires LaunchedStarted(cfg, s)
    ensures Underway(StatusAt(s.fs, id))
  {
    FactsOf(cfg, s, u);
    assert RunAt(s.fs, id).Some? ==> HasRun(s.fs, id, RunAt(s.fs, id).value);
  }

  /** Threads on their way to a worker rely on nothing but their run's status. */
  lemma TokenFactsKept(cfg: Config, s: State, after: State, u: nat, id: string)
    requires AllFacts(cfg, s) && Mentions(ThreadAt(s, u)) == Some(id) && Owns(ThreadAt(s, u)) == None
    requires TermsAt(s.fs, id).Some? ==> TermsAt(after.fs, id) == TermsAt(s.fs, id)
    requires Token(ThreadAt(s, u)).Some? && TokenFits(s.fs, id) ==> TokenFits(after.fs, id)
    ensures FactsAt(cfg, after, ThreadAt(s, u))
  {
    FactsOf(cfg, s, u);
  }

  lemma OneToken(s: State, u: nat, t: nat, id: string)
    requires Tokens(s) && u != t && Token(ThreadAt(s, u)) == Some(id) && Token(ThreadAt(s, t)) == Some(id)
    ensures !Automatic(s.fs, id)
  {
    assert Automatic(s.fs, id) ==> SameToken(s, s.threads[u], s.threads[t]);
  }

  /** The update is refused, or finds the run ended. */
  predicate Inert(fs: Fs, id: string, m: Mutation) {
    match RunAt(fs, id)
    case None => true
    case Some(r) => Mutate(m, r).Err? || r.status.Terminal()
  }

  /** An update that is refused, or finds the run ended, changes nothing others rely on. */
  lemma NoEffect(fs: Fs, id: string, m: Mutation, fault: Fault)
    requires RunsOk(fs) && Inert(fs, id, m)
    ensures Gentle(fs, UpdateRun(fs, id, m, fault).0, id)
    ensures GentleBut(fs, UpdateRun(fs, id, m, fault).0, id)
  {
    hide StoreInv, Mutate;
    UpdateEffect(fs, id, m, fault);
    if RunAt(fs, id).Some? && Mutate(m, RunAt(fs, id).value).Ok? {
      MutateStatus(m, RunAt(fs, id).value);
      hide UpdateRun;
      assert Candidate(fs, RunName(id), Some(RunFile(RunAt(fs, id).value)));
    }
  }

  lemma QuietFacts(cfg: Config, s: State, after: State, t: nat, id: string)
    requires AllFacts(cfg, s) && OthersSame(s, after, t) && GentleBut(s.fs, after.fs, id) && Gentle(s.fs, after.fs, id)
    requires after.cancels == s.cancels && after.launches == s.launches && FactsAt(cfg, after, ThreadAt(after, t))
    ensures AllFacts(cfg, after)
  {
    hide Facts, Candidate;
    forall u | u != t && Mentions(ThreadAt(s, u)) == Some(id) ensures FactsAt(cfg, after, ThreadAt(s, u)) {
      FactsOf(cfg, s, u);
      FactsGentle(cfg, s, after, ThreadAt(s, u));
    }
    FactsKept(cfg, s, after, t, id);
  }

  // ---- Claiming ----

  /** What the claim of the run that thread `t` carries does: the worker checks the run, or is idle again. */
  ghost predicate Claims(s: State, after: State, t: nat, id: string, now: int, fault: Fault) {
    && ThreadAt(s, t) == Claiming(id)
    && var (fs, r) := UpdateRun(s.fs, id, Claim(now), fault);
       after == WithThread(s, t, if r.Ok? && !r.value.status.Terminal() then Checking(id, r.value) else Idle).(fs := fs)
  }

  lemma ClaimFacts(cfg: Config, s: State, t: nat, id: string, now: int, fault: Fault, after: State)
    requires Core(cfg, s) && Claims(s, after, t, id, now, fault)
    ensures AllFacts(cfg, after) && ClaimsFreely(s, after, t)
  {
    hide RunsOk, Tokens, Locks, OneOwner, CancelsRegistered, LaunchedStarted, AllFacts, Quiet, Claims;
    if StatusAt(s.fs, id) == Some(Queued) {
      ClaimTaken(cfg, s, t, id, now, fault, after);
    } else {
      ClaimRefused(cfg, s, t, id, now, fault, after);
    }
  }

  predicate Ends(answer: Result<Run, Error>) { answer.Ok? ==> answer.value.status.Terminal() }

  lemma ClaimOutcome(fs: Fs, id: string, now: int, fault: Fault)
    requires StatusAt(fs, id) != Some(Queued)
    ensures Inert(fs, id, Claim(now)) && Ends(UpdateRun(fs, id, Claim(now), fault).1)
  {
  }

  lemma ClaimRefused(cfg: Config, s: State, t: nat, id: string, now: int, fault: Fault, after: State)
    requires Core(cfg, s) && Claims(s, after, t, id, now, fault) && StatusAt(s.fs, id) != Some(Queued)
    ensures AllFacts(cfg, after) && ClaimsFreely(s, after, t)
  {
    hide StoreInv, Tokens, Locks, OneOwner, CancelsRegistered, LaunchedStarted, AllFacts, Quiet, UpdateRun,
         Mutate, Inert;
    ClaimOutcome(s.fs, id, now, fault);
    NoEffect(s.fs, id, Claim(now), fault);
    QuietFacts(cfg, s, after, t, id);
  }

  lemma ClaimTaken(cfg: Config, s: State, t: nat, id: string, now: int, fault: Fault, after: State)
    requires Core(cfg, s) && Claims(s, after, t, id, now, fault) && StatusAt(s.fs, id) == Some(Queued)
    ensures AllFacts(cfg, after) && ClaimsFreely(s, after, t)
  {
    hide RunsOk, Locks, CancelsRegistered, LaunchedStarted, Quiet, UpdateRun, AllFacts, Facts, Mutate, Claims,
         Candidate;
    UpdateEffect(s.fs, id, Claim(now), fault);
    ClaimedFacts(cfg, s, t, id, now, fault, after);
    forall u | u != t && Mentions(ThreadAt(s, u)) == Some(id)
      ensures Owns(ThreadAt(s, u)) == None && FactsAt(cfg, after, ThreadAt(s, u))
    {
      MentionStatus(cfg, s, u, id);
      if Token(ThreadAt(s, u)) == Some(id) {
        OneToken(s, u, t, id);
      }
      TokenFactsKept(cfg, s, after, u, id);
    }
    forall u | u in s.threads ensures Owns(s.threads[u]) != Some(id) {
      assert ThreadAt(s, u) == s.threads[u];
    }
    FactsKept(cfg, s, after, t, id);
  }

  lemma ClaimedFacts(cfg: Config, s: State, t: nat, id: string, now: int, fault: Fault, after: State)
    requires Core(cfg, s) && Claims(s, after, t, id, now, fault) && StatusAt(s.fs, id) == Some(Queued)
    ensures ThreadAt(s, t) == Claiming(id) && OthersSame(s, after, t)
    ensures FactsAt(cfg, after, ThreadAt(after, t)) && About(s, after, id)
    ensures TermsAt(after.fs, id) == TermsAt(s.fs, id)
    ensures (Owns(ThreadAt(after, t)) == None || Owns(ThreadAt(after, t)) == Some(id))
    ensures Automatic(s.fs, id) || (TokenFits(s.fs, id) ==> TokenFits(after.fs, id))
  {
    hide StoreInv, Locks, CancelsRegistered, LaunchedStarted, Quiet, UpdateRun, AllFacts, Tokens, OneOwner,
         Candidate, ExecutionAllowed;
    UpdateEffect(s.fs, id, Claim(now), fault);
    ClaimOwn(cfg, s, t, id);
  }

  /** A freshly claimed run was never launched and is not registered. */
  lemma ClaimOwn(cfg: Config, s: State, t: nat, id: string)
    requires AllFacts(cfg, s) && CancelsRegistered(s) && LaunchedStarted(cfg, s) && StatusAt(s.fs, id) == Some(Queued)
    ensures id !in s.launches && id !in s.cancels
  {
    assert HasRun(s.fs, id, RunAt(s.fs, id).value);
    forall u | u in s.threads ensures Registration(s.threads[u]) != Some(id) {
      FactsOf(cfg, s, u);
    }
  }

  predicate MentionFits(fs: Fs, th: Thread, id: string) {
    match StatusAt(fs, id)
    case None => false
    case Some(st) =>
      if Owns(th).Some? then Rank(st) <= 2 else Automatic(fs, id) ==> st == Queued || st.Terminal()
  }

  /** Every thread that mentions a run knows how far it is. */
  lemma MentionStatus(cfg: Config, s: State, u: nat, id: string)
    requires AllFacts(cfg, s) && LaunchedStarted(cfg, s) && Mentions(ThreadAt(s, u)) == Some(id)
    ensures MentionFits(s.fs, ThreadAt(s, u), id)
  {
    FactsOf(cfg, s, u);
    if Owns(ThreadAt(s, u)).Some? {
      OwnerStatus(cfg, s, u, id);
    }
  }

  lemma ClaimTokens(s: State, t: nat, id: string, now: int, fault: Fault, after: State)
    requires RunsOk(s.fs) && Tokens(s) && Claims(s, after, t, id, now, fault)
    ensures Tokens(after)
  {
    hide StoreInv, Mutate, UpdateRun;
    UpdateEffect(s.fs, id, Claim(now), fault);
    // A run that is also queued elsewhere is a manual one.
    assert Pending(s, id) ==> TokenFits(s.fs, id) && !Automatic(s.fs, id);
    hide Tokens, Candidate;
    TokensKept(s, after, t, id);
  }

  lemma ClaimKeeps(cfg: Config, s: State, t: nat, now: int, fault: Fault, after: State)
    requires Core(cfg, s) && WorkerNext(cfg, s, DoClaim(t, now, fault), after)
    ensures Core(cfg, after)
  {
    hide RunsOk, Mutate, UpdateRun, AllFacts, Locks, OneOwner, CancelsRegistered, Quiet, LaunchedStarted, Tokens,
         ClaimsFreely;
    var id := RunOf(ThreadAt(s, t));
    assert Claims(s, after, t, id, now, fault);
    hide WorkerNext;
    UpdateRest(cfg, s, after, id, Claim(now), fault);
    ClaimFacts(cfg, s, t, id, now, fault, after);
    WorkerBooks(cfg, s, DoClaim(t, now, fault), after);
    ClaimTokens(s, t, id, now, fault, after);
  }

  // ---- Updates by the worker that owns the run ----

  lemma OwnerFacts(cfg: Config, s: State, after: State, t: nat, id: string, m: Mutation, fault: Fault)
    requires Core(cfg, s) && Owns(ThreadAt(s, t)) == Some(id) && !m.Submit? && !m.Approve?
    requires OthersSame(s, after, t) && after.fs == UpdateRun(s.fs, id, m, fault).0
    requires after.cancels == s.cancels && after.launches == s.launches && FactsAt(cfg, after, ThreadAt(after, t))
    ensures AllFacts(cfg, after)
  {
    hide RunsOk, Facts, UpdateRun, LaunchedStarted, Tokens, AllFacts, Locks, CancelsRegistered, Quiet, Touched,
         Written, TokenFits, Underway;
    UpdateEffect(s.fs, id, m, fault);
    OwnerStatus(cfg, s, t, id);
    TokenStillFits(s.fs, id, m, after.fs);
    forall u | u != t && Mentions(ThreadAt(s, u)) == Some(id) ensures FactsAt(cfg, after, ThreadAt(s, u)) {
      assert Owns(ThreadAt(s, u)) == None;
      TokenFactsKept(cfg, s, after, u, id);
    }
    FactsKept(cfg, s, after, t, id);
  }

  /** An update of a run that is under way leaves other carriers of the run what they rely on. */
  lemma TokenStillFits(fs: Fs, id: string, m: Mutation, after: Fs)
    requires Touched(fs, id, m, after) && Underway(StatusAt(fs, id)) && !m.Submit? && !m.Approve?
    ensures TermsAt(fs, id).Some? ==> TermsAt(after, id) == TermsAt(fs, id)
    ensures TokenFits(fs, id) ==> TokenFits(after, id)
  {
    hide Mutate, Candidate;
    if RunAt(fs, id).Some? && Mutate(m, RunAt(fs, id).value).Ok? {
      MutateStatus(m, RunAt(fs, id).value);
    }
  }

  lemma OwnerRest(cfg: Config, s: State, after: State, t: nat, id: string, m: Mutation, fault: Fault)
    requires Core(cfg, s) && Owns(ThreadAt(s, t)) == Some(id)
    requires OthersSame(s, after, t) && after.fs == UpdateRun(s.fs, id, m, fault).0
    requires after.queue == s.queue && after.boot == s.boot && after.launches == s.launches
    requires Token(ThreadAt(after, t)) == None
    ensures RunsOk(after.fs) && LaunchedStarted(cfg, after) && Tokens(after)
  {
    hide StoreInv, Mutate, ExecutionAllowed, AllFacts, Locks, OneOwner, CancelsRegistered, Quiet, LaunchedStarted;
    UpdateEffect(s.fs, id, m, fault);
    OwnerStatus(cfg, s, t, id);
    hide UpdateRun;
    LaunchedKept(cfg, s, after, id, m);
    var r := RunAt(s.fs, id).value;
    if Mutate(m, r).Ok? {
      MutateStatus(m, r);
    }
    if Pending(s, id) {
      assert TokenFits(s.fs, id);
    }
    hide Tokens;
    TokensKept(s, after, t, id);
  }

  lemma RejectKeeps(cfg: Config, s: State, t: nat, now: int, fault: Fault, after: State)
    requires Core(cfg, s) && WorkerNext(cfg, s, Reject(t, now, fault), after)
    ensures Core(cfg, after)
  {
    hide RunsOk, UpdateRun, Mutate, Locks, OneOwner, CancelsRegistered, LaunchedStarted, Tokens, Quiet,
         OthersSame, BeginNext, EndNext;
    var th := s.threads[t];
    var m := Fail(cfg.executor, th.code, th.message, now);
    WorkerBooks(cfg, s, Reject(t, now, fault), after);
    hide AllFacts, WorkerShape;
    OwnerFacts(cfg, s, after, t, th.id, m, fault);
    OwnerRest(cfg, s, after, t, th.id, m, fault);
  }

  lemma BeginKeeps(cfg: Config, s: State, t: nat, now: int, fault: Fault, after: State)
    requires Core(cfg, s) && WorkerNext(cfg, s, DoBegin(t, now, fault), after)
    ensures Core(cfg, after)
  {
    hide RunsOk, UpdateRun, Mutate, Locks, OneOwner, CancelsRegistered, LaunchedStarted, Tokens, Quiet,
         OthersSame, ClaimNext, EndNext;
    var id, m := s.threads[t].id, Begin(cfg.executor, now);
    FactsOf(cfg, s, t);
    BeginOwn(cfg, s.fs, id, now, fault);
    WorkerBooks(cfg, s, DoBegin(t, now, fault), after);
    hide AllFacts, WorkerShape;
    OwnerFacts(cfg, s, after, t, id, m, fault);
    OwnerRest(cfg, s, after, t, id, m, fault);
  }

  ghost predicate BegunOk(cfg: Config, after: Fs, id: string, answer: Result<Run, Error>) {
    answer.Ok? && answer.value.status == Running ==> DurablyRunning(after, id) && ExecutionAllowed(cfg, answer.value)
  }

  predicate AllowedAt(cfg: Config, fs: Fs, id: string) {
    RunAt(fs, id).Some? && ExecutionAllowed(cfg, RunAt(fs, id).value)
  }

  /** A begun run is durably running, and still approved. */
  lemma BeginOwn(cfg: Config, fs: Fs, id: string, now: int, fault: Fault)
    requires RunsOk(fs) && AllowedAt(cfg, fs, id)
    ensures BegunOk(cfg, UpdateRun(fs, id, Begin(cfg.executor, now), fault).0, id,
                    UpdateRun(fs, id, Begin(cfg.executor, now), fault).1)
  {
    hide StoreInv;
    UpdateEffect(fs, id, Begin(cfg.executor, now), fault);
  }

  lemma FinishKeeps(cfg: Config, s: State, t: nat, now: int, fault: Fault, after: State)
    requires Core(cfg, s) && WorkerNext(cfg, s, DoFinish(t, now, fault), after)
    ensures Core(cfg, after)
  {
    hide RunsOk, UpdateRun, Mutate, Locks, OneOwner, CancelsRegistered, LaunchedStarted, Tokens, Quiet,
         OthersSame, WriteFault, ClaimNext, BeginNext;
    var id, o := s.threads[t].id, s.threads[t].outcome;
    var m := Finish(cfg.executor, o.result, o.err, o.errText, now);
    FactsOf(cfg, s, t);
    WorkerBooks(cfg, s, DoFinish(t, now, fault), after);
    hide AllFacts, WorkerShape;
    OwnerFacts(cfg, s, after, t, id, m, WriteFault(cfg, o, fault));
    OwnerRest(cfg, s, after, t, id, m, WriteFault(cfg, o, fault));
  }

  // ---- The other steps of a worker ----

  /** A worker takes the head of the queue. */
  ghost predicate Takes(s: State, t: nat, after: State) {
    && t in s.threads && s.threads[t].Idle? && s.queue != []
    && after == WithThread(s, t, Claiming(s.queue[0])).(queue := s.queue[1..])
  }

  lemma TakeTokens(s: State, t: nat, after: State)
    requires Tokens(s) && Takes(s, t, after)
    ensures Tokens(after)
  {
    hide Automatic, TokenFits;
    var id := s.queue[0];
    assert Pending(s, id);
    assert s.queue == [id] + after.queue;
    forall x | Pending(after, x) ensures Pending(s, x) && TokenFits(after.fs, x) {
      assert Pending(s, x);
    }
    forall j | 0 <= j < |after.queue| && after.queue[j] == id ensures !Automatic(s.fs, id) {
      assert s.queue[j + 1] == id;
    }
    forall u, v | u in after.threads && v in after.threads && SameToken(after, after.threads[u], after.threads[v])
      ensures u == v {
      if u != t && v != t {
        assert SameToken(s, s.threads[u], s.threads[v]);
      }
    }
  }

  lemma TakeFacts(cfg: Config, s: State, t: nat, after: State)
    requires AllFacts(cfg, s) && Tokens(s) && Takes(s, t, after)
    ensures AllFacts(cfg, after)
  {
    hide TokenFits, PreFits, DurablyRunning, ExecutionAllowed;
    assert Pending(s, s.queue[0]);
  }

  lemma TakeKeeps(cfg: Config, s: State, t: nat, after: State)
    requires Core(cfg, s) && WorkerNext(cfg, s, Take(t), after)
    ensures Core(cfg, after)
  {
    hide RunsOk, Tokens, Locks, OneOwner, CancelsRegistered, LaunchedStarted, AllFacts, Quiet, BeginNext, EndNext;
    assert Takes(s, t, after);
    hide WorkerNext;
    TakeTokens(s, t, after);
    WorkerBooks(cfg, s, Take(t), after);
    hide WorkerShape;
    SameLaunched(cfg, s, after);
    TakeFacts(cfg, s, t, after);
  }

  /** The worker's own state after such a step. */
  ghost predicate OwnAfter(cfg: Config, s: State, after: State, t: nat) {
    && after.fs == s.fs && FactsAt(cfg, after, ThreadAt(after, t))
    && Owns(ThreadAt(s, t)).Some? && Token(ThreadAt(after, t)) == None
    && (forall x :: Some(x) != Owns(ThreadAt(s, t)) ==> (x in after.cancels <==> x in s.cancels))
    && (forall x :: Some(x) != Owns(ThreadAt(s, t)) ==> (x in after.launches <==> x in s.launches))
  }

  lemma ClaimInternal(cfg: Config, s: State, step: Step, after: State)
    requires AllFacts(cfg, s) && ClaimNext(cfg, s, step, after) && Internal(step)
    ensures OwnAfter(cfg, s, after, Actor(step))
  {
    hide ExecutionAllowed, AllFacts, UpdateRun;
    FactsOf(cfg, s, Actor(step));
  }

  lemma BeginInternal(cfg: Config, s: State, step: Step, after: State)
    requires AllFacts(cfg, s) && BeginNext(cfg, s, step, after) && Internal(step)
    ensures OwnAfter(cfg, s, after, Actor(step))
  {
    hide ExecutionAllowed, AllFacts, UpdateRun;
    FactsOf(cfg, s, Actor(step));
  }

  lemma EndInternal(cfg: Config, s: State, step: Step, after: State)
    requires AllFacts(cfg, s) && EndNext(cfg, s, step, after) && Internal(step)
    ensures OwnAfter(cfg, s, after, Actor(step))
  {
    hide ExecutionAllowed, AllFacts, UpdateRun;
    FactsOf(cfg, s, Actor(step));
  }

  lemma InternalOwn(cfg: Config, s: State, step: Step, after: State)
    requires AllFacts(cfg, s) && WorkerNext(cfg, s, step, after) && Internal(step)
    ensures OwnAfter(cfg, s, after, Actor(step))
  {
    hide ClaimNext, BeginNext, EndNext, AllFacts, OwnAfter;
    if ClaimStep(step) {
      ClaimInternal(cfg, s, step, after);
    } else if BeginStep(step) {
      BeginInternal(cfg, s, step, after);
    } else {
      EndInternal(cfg, s, step, after);
    }
  }

  lemma InternalFacts(cfg: Config, s: State, after: State, t: nat)
    requires AllFacts(cfg, s) && OneOwner(s) && OwnAfter(cfg, s, after, t) && OthersSame(s, after, t)
    ensures AllFacts(cfg, after)
  {
    hide Facts;
    var id := Owns(ThreadAt(s, t)).value;
    forall u | u != t && Mentions(ThreadAt(s, u)) == Some(id) ensures FactsAt(cfg, after, ThreadAt(s, u)) {
      TokenFactsKept(cfg, s, after, u, id);
    }
    FactsKept(cfg, s, after, t, id);
  }

  lemma InternalLaunched(cfg: Config, s: State, step: Step, after: State)
    requires AllFacts(cfg, s) && RunsOk(s.fs) && LaunchedStarted(cfg, s) && LaunchRule(s, step, after)
    requires after.fs == s.fs
    ensures LaunchedStarted(cfg, after)
  {
    hide StoreInv, ExecutionAllowed;
    if step.Launch? {
      FactsOf(cfg, s, step.t);
    }
  }

  lemma InternalKeeps(cfg: Config, s: State, step: Step, after: State)
    requires Core(cfg, s) && WorkerNext(cfg, s, step, after) && Internal(step)
    ensures Core(cfg, after)
  {
    hide RunsOk, WorkerNext, Locks, OneOwner, CancelsRegistered, AllFacts, LaunchedStarted, Quiet, Facts,
         OthersSame, FilesChange, Registers, Owner, LaunchRule;
    var t := Actor(step);
    InternalOwn(cfg, s, step, after);
    WorkerBooks(cfg, s, step, after);
    InternalFacts(cfg, s, after, t);
    InternalLaunched(cfg, s, step, after);
    var id := Owns(ThreadAt(s, t)).value;
    OwnerStatus(cfg, s, t, id);
    assert Pending(s, id) ==> TokenFits(s.fs, id);
    hide Tokens;
    TokensKept(s, after, t, id);
  }

  lemma ReleaseKeeps(cfg: Config, s: State, t: nat, after: State)
    requires Core(cfg, s) && WorkerNext(cfg, s, Release(t), after)
    ensures Core(cfg, after)
  {
    hide RunsOk, AllFacts, Tokens, Locks, OneOwner, CancelsRegistered, LaunchedStarted, Quiet, ClaimNext, EndNext;
    assert after == WithThread(s, t, Idle).(cancelMu := None);
    hide WorkerNext;
    WorkerBooks(cfg, s, Release(t), after);
    hide WorkerShape;
    SameLaunched(cfg, s, after);
    StillFacts(cfg, s, after, t);
    StillTokens(s, after, t);
  }

  lemma StillFacts(cfg: Config, s: State, after: State, t: nat)
    requires AllFacts(cfg, s) && OthersSame(s, after, t) && after.fs == s.fs && after.cancels == s.cancels
    requires after.launches == s.launches
    requires ThreadAt(after, t).Idle?
    ensures AllFacts(cfg, after)
  {
    hide TokenFits, PreFits, DurablyRunning, ExecutionAllowed;
  }

  lemma StillTokens(s: State, after: State, t: nat)
    requires Tokens(s) && OthersSame(s, after, t) && after.fs == s.fs && after.queue == s.queue && after.boot == s.boot
    requires ThreadAt(after, t).Idle?
    ensures Tokens(after)
  {
    hide Automatic, TokenFits;
    TokensFrame(s, after, t);
  }

  lemma WorkerKeeps(cfg: Config, s: State, step: Step, after: State)
    requires Core(cfg, s) && WorkerNext(cfg, s, step, after)
    ensures Core(cfg, after)
  {
    hide Core, WorkerNext, Moves, Registers, Owner, LaunchRule, Course, FilesChange;
    WorkerMoves(cfg, s, step, after);
    if step.Take? {
      TakeKeeps(cfg, s, step.t, after);
    } else if step.DoClaim? {
      ClaimKeeps(cfg, s, step.t, step.now, step.fault, after);
    } else if step.Reject? {
      RejectKeeps(cfg, s, step.t, step.now, step.fault, after);
    } else if step.DoBegin? {
      BeginKeeps(cfg, s, step.t, step.now, step.fault, after);
    } else if step.DoFinish? {
      FinishKeeps(cfg, s, step.t, step.now, step.fault, after);
    } else if step.Release? {
      ReleaseKeeps(cfg, s, step.t, after);
    } else {
      InternalKeeps(cfg, s, step, after);
    }
  }

  // ---- Callers ----

  lemma UntouchedEffect(fs: Fs, after: Fs)
    requires RunsOk(fs) && RunsUntouched(fs, after)
    ensures RunsOk(after) && forall y :: GentleBut(fs, after, y) && Gentle(fs, after, y)
  {
    UntouchedKeeps(fs, after);
    hide StoreInv, Candidate;
    assert forall x :: RunAt(after, x) == RunAt(fs, x);
    forall id, r | HasRun(after, id, r) && r.status == WaitingApproval ensures !r.Manual() {
      assert HasRun(fs, id, r);
    }
    forall y ensures GentleBut(fs, after, y) && Gentle(fs, after, y) {
    }
  }

  lemma LaunchedGentle(cfg: Config, s: State, after: State)
    requires LaunchedStarted(cfg, s) && after.launches == s.launches && forall y :: Gentle(s.fs, after.fs, y)
    ensures LaunchedStarted(cfg, after)
  {
    hide ExecutionAllowed;
    forall id | id in after.launches
      ensures RunAt(after.fs, id).Some? && !Candidate(after.fs, RunName(id), None)
      ensures forall r :: HasRun(after.fs, id, r) ==> Rank(r.status) <= 1
    {
      assert Gentle(s.fs, after.fs, id);
    }
  }

  lemma SameLaunched(cfg: Config, s: State, after: State)
    requires LaunchedStarted(cfg, s) && after.fs == s.fs && after.launches == s.launches
    ensures LaunchedStarted(cfg, after)
  {
  }

  lemma PlainKeeps(cfg: Config, s: State, step: Step, after: State)
    requires Core(cfg, s) && CallerNext(cfg, s, step, after) && Plain(step)
    ensures Core(cfg, after)
  {
    hide RunsOk, CallerNext, Candidate, Locks, OneOwner, CancelsRegistered, Quiet, AllFacts, LaunchedStarted,
         OthersSame, RunsUntouched, Gentle, GentleBut, FilesChange, Outside, TokenFits;
    CallerBooks(cfg, s, step, after);
    var t := Actor(step);
    SyncUntouched(s.fs, RunsDir);
    UntouchedEffect(s.fs, after.fs);
    LaunchedGentle(cfg, s, after);
    assert GentleBut(s.fs, after.fs, "") && Gentle(s.fs, after.fs, "");
    assert Pending(s, "") ==> TokenFits(s.fs, "");
    hide Tokens;
    SilentFacts(cfg, after, ThreadAt(after, t));
    QuietFacts(cfg, s, after, t, "");
    GentleTerms(s.fs, after.fs, "");
    TokensKept(s, after, t, "");
  }

  lemma SilentFacts(cfg: Config, s: State, th: Thread)
    requires Silent(th)
    ensures FactsAt(cfg, s, th) && Token(th) == None
  {
  }

  lemma GentleTerms(fs: Fs, after: Fs, id: string)
    requires Gentle(fs, after, id)
    ensures TermsAt(after, id) == TermsAt(fs, id) && TokenFits(after, id) == TokenFits(fs, id)
    ensures Automatic(after, id) == Automatic(fs, id)
  {
  }

  lemma ReadKeeps(cfg: Config, s: State, step: Step, after: State)
    requires Core(cfg, s) && CallerNext(cfg, s, step, after) && (step.TickList? || step.Elsewhere?)
    ensures Core(cfg, after)
  {
    hide CallerNext, RunsOk, Locks, OneOwner, CancelsRegistered, LaunchedStarted, AllFacts, Tokens, Quiet,
         RunsUntouched, Gentle, GentleBut;
    CallerMoves(cfg, s, step, after);
    SyncUntouched(s.fs, RunsDir);
    UntouchedEffect(s.fs, after.fs);
    LaunchedGentle(cfg, s, after);
    ReadFacts(cfg, s, after);
    ReadTokens(s, after);
    ReadBooks(s, after);
  }

  lemma ReadBooks(s: State, after: State)
    requires Books(s) && Quiet(s)
    requires after == s.(fs := after.fs, offers := after.offers) && (after.offers == s.offers || s.boot.Up?)
    ensures Books(after) && Quiet(after)
  {
  }

  lemma ReadFacts(cfg: Config, s: State, after: State)
    requires AllFacts(cfg, s) && after.threads == s.threads && after.cancels == s.cancels
    requires after.launches == s.launches
    requires forall y :: Gentle(s.fs, after.fs, y)
    ensures AllFacts(cfg, after)
  {
    hide Facts, Gentle;
    forall u | u in s.threads ensures FactsAt(cfg, after, s.threads[u]) {
      FactsOf(cfg, s, u);
      FactsGentle(cfg, s, after, s.threads[u]);
    }
  }

  lemma ReadTokens(s: State, after: State)
    requires Tokens(s) && after == s.(fs := after.fs, offers := after.offers) && forall y :: Gentle(s.fs, after.fs, y)
    ensures Tokens(after)
  {
    hide Automatic, TokenFits, Gentle;
    forall id ensures Automatic(after.fs, id) == Automatic(s.fs, id) && TokenFits(after.fs, id) == TokenFits(s.fs, id) {
      GentleTerms(s.fs, after.fs, id);
    }
    var t: nat :| t !in s.threads by {
      FreshThread(s.threads.Keys);
    }
    TokensFrame(s, after, t);
  }

  lemma {:induction false} FreshThread(used: set<nat>)
    ensures exists t: nat :: t !in used
  {
    if used != {} {
      var u :| u in used;
      var most := Most(used);
      assert most + 1 !in used;
    } else {
      assert 0 !in used;
    }
  }

  ghost function Most(used: set<nat>): (m: nat)
    ensures forall u :: u in used ==> u <= m
  {
    if used == {} then 0
    else
      var u :| u in used;
      var m := Most(used - {u});
      assert forall v :: v in used ==> v == u || v in used - {u};
      if u > m then u else m
  }

  // ---- Steps that move a token ----

  /** Putting a run into the queue, from the thread that carried it or for a manual run. */
  lemma PushTokens(s: State, after: State, t: nat, id: string)
    requires Tokens(s) && OthersSame(s, after, t) && after.fs == s.fs && after.boot == s.boot
    requires after.queue == s.queue + [id]
    requires TokenFits(s.fs, id) && Token(ThreadAt(after, t)) == None
    requires Automatic(s.fs, id) ==> Token(ThreadAt(s, t)) == Some(id)
    ensures Tokens(after)
  {
    hide Automatic, TokenFits;
    forall x | Pending(after, x) ensures x == id || Pending(s, x) {
    }
    assert Automatic(s.fs, id) ==> !Pending(s, id);
    assert forall i :: 0 <= i < |s.queue| ==> Pending(s, s.queue[i]);
    forall u, v | u in after.threads && v in after.threads && SameToken(after, after.threads[u], after.threads[v])
      ensures u == v {
      assert SameToken(s, s.threads[u], s.threads[v]);
    }
    forall u | u in after.threads && Token(after.threads[u]) == Some(id) ensures !Automatic(after.fs, id) {
      if Automatic(s.fs, id) {
        OneToken(s, u, t, id);
      }
    }
  }

  lemma EnqueueKeeps(cfg: Config, s: State, t: nat, accepted: bool, after: State)
    requires Core(cfg, s) && CallerNext(cfg, s, Enqueue(t, accepted), after)
    ensures Core(cfg, after)
  {
    hide RunsOk, LaunchedStarted, Locks, OneOwner, CancelsRegistered, Quiet, Automatic, TokenFits, CancelNext,
         SubmitNext, TickNext, AllFacts, Tokens;
    var id := s.threads[t].id;
    FactsOf(cfg, s, t);
    CallerBooks(cfg, s, Enqueue(t, accepted), after);
    hide CallerShape, GentleBut;
    QueuedFacts(cfg, s, after, t, id);
    SameLaunched(cfg, s, after);
    if accepted {
      PushTokens(s, after, t, id);
    } else {
      SameTokens(s, after, t);
    }
  }

  /** A thread that moves without touching a run leaves the others what they rely on. */
  lemma QueuedFacts(cfg: Config, s: State, after: State, t: nat, id: string)
    requires AllFacts(cfg, s) && OthersSame(s, after, t) && after.fs == s.fs && after.cancels == s.cancels
    requires after.launches == s.launches
    requires FactsAt(cfg, after, ThreadAt(after, t))
    ensures AllFacts(cfg, after)
  {
    QuietFacts(cfg, s, after, t, id);
  }

  lemma SameTokens(s: State, after: State, t: nat)
    requires Tokens(s) && OthersSame(s, after, t) && after.fs == s.fs && after.queue == s.queue && after.boot == s.boot
    requires Token(ThreadAt(after, t)) == Token(ThreadAt(s, t)) || Token(ThreadAt(after, t)) == None
    ensures Tokens(after)
  {
    hide Automatic, TokenFits;
    TokensFrame(s, after, t);
  }

  lemma NotifyKeeps(cfg: Config, s: State, t: nat, accepted: bool, after: State)
    requires Core(cfg, s) && CallerNext(cfg, s, Notify(t, accepted), after)
    ensures Core(cfg, after)
  {
    hide RunsOk, LaunchedStarted, Locks, OneOwner, CancelsRegistered, Quiet, QueueNext, CancelNext, TickNext, AllFacts;
    FactsOf(cfg, s, t);
    CallerBooks(cfg, s, Notify(t, accepted), after);
    hide CallerShape;
    var id := s.threads[t].id;
    QueuedFacts(cfg, s, after, t, id);
    SameLaunched(cfg, s, after);
    hide Tokens;
    if accepted {
      PushTokens(s, after, t, id);
    } else {
      SameTokens(s, after, t);
    }
  }

  lemma TickSendKeeps(cfg: Config, s: State, after: State)
    requires Core(cfg, s) && Offered(s) && CallerNext(cfg, s, TickSend, after)
    ensures Core(cfg, after)
  {
    hide RunsOk, LaunchedStarted, Locks, OneOwner, CancelsRegistered, Quiet, Facts, QueueNext, CancelNext, SubmitNext;
    var r := s.offers[0];
    NotEarly(s, after);
    SameLaunched(cfg, s, after);
    SameBooks(cfg, s, after);
    var t: nat :| t !in s.threads by {
      FreshThread(s.threads.Keys);
    }
    hide Tokens;
    if r.Manual() && |s.queue| < cfg.capacity {
      PushTokens(s, after, t, r.id);
    } else {
      SameTokens(s, after, t);
    }
  }

  lemma SameBooks(cfg: Config, s: State, after: State)
    requires Books(s) && AllFacts(cfg, s)
    requires after.fs == s.fs && after.threads == s.threads && after.cancels == s.cancels
    requires after.launches == s.launches
    requires after.cancelMu == s.cancelMu && after.inputMu == s.inputMu
    ensures Books(after) && AllFacts(cfg, after)
  {
    hide Facts;
  }

  // ---- Updates by callers ----

  lemma UpdateRest(cfg: Config, s: State, after: State, id: string, m: Mutation, fault: Fault)
    requires RunsOk(s.fs) && LaunchedStarted(cfg, s)
    requires after.fs == UpdateRun(s.fs, id, m, fault).0 && after.launches == s.launches
    ensures RunsOk(after.fs) && LaunchedStarted(cfg, after)
  {
    hide RunsOk, Mutate, UpdateRun, LaunchedStarted;
    UpdateEffect(s.fs, id, m, fault);
    LaunchedKept(cfg, s, after, id, m);
  }

  lemma FailUnqueuedKeeps(cfg: Config, s: State, t: nat, message: string, now: int, fault: Fault, after: State)
    requires Core(cfg, s) && CallerNext(cfg, s, FailUnqueued(t, message, now, fault), after)
    ensures Core(cfg, after)
  {
    hide RunsOk, Mutate, UpdateRun, AllFacts, Tokens, Locks, OneOwner, CancelsRegistered, LaunchedStarted, Quiet,
         CancelNext, SubmitNext, TickNext;
    var id, m := RunOf(ThreadAt(s, t)), Fail(cfg.executor, "queue_unavailable", message, now);
    CallerBooks(cfg, s, FailUnqueued(t, message, now, fault), after);
    hide CallerShape;
    UpdateRest(cfg, s, after, id, m, fault);
    FailUnqueuedFacts(cfg, s, t, id, m, fault, after);
    CallerTokens(cfg, s, after, t, id, m, fault);
  }

  /** The kinds of update that leave a token of the run in place. */
  predicate KeepsToken(fs: Fs, id: string, m: Mutation) {
    m.Fail? || m.Cancel? || m.RequestCancel? || (m.Submit? && RunAt(fs, id).Some? && RunAt(fs, id).value.Manual())
  }

  /** Tokens after an update by a caller that loses its own, if it had one. */
  lemma CallerTokens(cfg: Config, s: State, after: State, t: nat, id: string, m: Mutation, fault: Fault)
    requires RunsOk(s.fs) && Tokens(s) && OthersSame(s, after, t) && after.fs == UpdateRun(s.fs, id, m, fault).0
    requires after.queue == s.queue && after.boot == s.boot && Token(ThreadAt(after, t)) == None
    requires KeepsToken(s.fs, id, m)
    ensures Tokens(after)
  {
    hide StoreInv, Mutate, Candidate;
    UpdateEffect(s.fs, id, m, fault);
    if RunAt(s.fs, id).Some? && Mutate(m, RunAt(s.fs, id).value).Ok? {
      MutateStatus(m, RunAt(s.fs, id).value);
    }
    hide UpdateRun;
    assert Pending(s, id) ==> TokenFits(s.fs, id);
    hide Tokens;
    TokensKept(s, after, t, id);
  }

  lemma FailUnqueuedFacts(cfg: Config, s: State, t: nat, id: string, m: Mutation, fault: Fault, after: State)
    requires Core(cfg, s) && ThreadAt(s, t) == FailingUnqueued(id) && m.Fail? && OthersSame(s, after, t)
    requires t !in after.threads
    requires after.fs == UpdateRun(s.fs, id, m, fault).0 && after.cancels == s.cancels && after.launches == s.launches
    ensures AllFacts(cfg, after)
  {
    hide StoreInv, Mutate, UpdateRun, Locks, OneOwner, CancelsRegistered, LaunchedStarted, Quiet, AllFacts;
    FactsOf(cfg, s, t);
    UpdateEffect(s.fs, id, m, fault);
    if StatusAt(s.fs, id) != Some(Queued) {
      NoEffect(s.fs, id, m, fault);
      QuietFacts(cfg, s, after, t, id);
    } else {
      forall u | u != t ensures Mentions(ThreadAt(s, u)) != Some(id) {
        if Mentions(ThreadAt(s, u)) == Some(id) {
          MentionStatus(cfg, s, u, id);
          FactsOf(cfg, s, u);
          if Token(ThreadAt(s, u)) == Some(id) {
            OneToken(s, u, t, id);
          }
        }
      }
      FactsKept(cfg, s, after, t, id);
    }
  }

  /** A new thread that carries an automatic run nobody carried. */
  lemma TokensNew(s: State, after: State, t: nat, id: string)
    requires Tokens(s) && OthersSame(s, after, t) && t !in s.threads
    requires after.queue == s.queue && after.boot == s.boot
    requires forall x :: x != id ==> RunAt(after.fs, x) == RunAt(s.fs, x)
    requires !Pending(s, id) && forall u :: Token(ThreadAt(s, u)) != Some(id)
    requires Token(ThreadAt(after, t)) == None || Token(ThreadAt(after, t)) == Some(id)
    ensures Tokens(after)
  {
    forall x | x != id
      ensures Automatic(after.fs, x) == Automatic(s.fs, x) && TokenFits(after.fs, x) == TokenFits(s.fs, x) {
    }
    hide RunAt, Automatic, TokenFits;
    assert forall x :: Pending(after, x) == Pending(s, x);
    assert forall i :: 0 <= i < |s.queue| ==> Pending(s, s.queue[i]);
    assert after.boot.Offering? ==> forall x :: x in after.boot.rest ==> Pending(s, x);
    hide Pending;
    forall u, v | u in after.threads && v in after.threads && SameToken(after, after.threads[u], after.threads[v])
      ensures u == v {
      assert Token(ThreadAt(s, u)) != Some(id) && Token(ThreadAt(s, v)) != Some(id);
      if u != t && v != t {
        assert SameToken(s, s.threads[u], s.threads[v]);
      }
    }
  }

  lemma ApproveKeeps(cfg: Config, s: State, t: nat, id: string, tenant: string, approval: Approval, now: int,
                     fault: Fault, after: State)
    requires Core(cfg, s) && CallerNext(cfg, s, ApproveCall(t, id, tenant, approval, now, fault), after)
    ensures Core(cfg, after)
  {
    hide RunsOk, Mutate, UpdateRun, AllFacts, Tokens, Locks, OneOwner, CancelsRegistered, LaunchedStarted, Quiet,
         RunAt, CancelNext, SubmitNext, TickNext;
    var m := Approve(tenant, approval, now);
    CallerBooks(cfg, s, ApproveCall(t, id, tenant, approval, now, fault), after);
    hide CallerShape;
    UpdateRest(cfg, s, after, id, m, fault);
    if StatusAt(s.fs, id) == Some(WaitingApproval) {
      ApprovedFacts(cfg, s, after, t, id, m, fault);
    } else {
      ApproveRefused(s.fs, id, m, fault);
      QueuedFacts(cfg, s, after, t, id);
      SameTokens(s, after, t);
    }
  }

  lemma ApproveRefused(fs: Fs, id: string, m: Mutation, fault: Fault)
    requires m.Approve? && StatusAt(fs, id) != Some(WaitingApproval)
    ensures UpdateRun(fs, id, m, fault).0 == fs && UpdateRun(fs, id, m, fault).1.Err?
  {
  }

  lemma ApprovedFacts(cfg: Config, s: State, after: State, t: nat, id: string, m: Mutation, fault: Fault)
    requires Core(cfg, s) && m.Approve? && t !in s.threads && OthersSame(s, after, t)
    requires StatusAt(s.fs, id) == Some(WaitingApproval) && after.fs == UpdateRun(s.fs, id, m, fault).0
    requires after.queue == s.queue && after.boot == s.boot && after.cancels == s.cancels
    requires after.launches == s.launches
    requires ThreadAt(after, t) == if UpdateRun(s.fs, id, m, fault).1.Ok? then Enqueuing(id) else Idle
    ensures AllFacts(cfg, after) && Tokens(after)
  {
    hide StoreInv, LaunchedStarted, Locks, OneOwner, Quiet, CancelsRegistered, AllFacts, Mutate, UpdateRun;
    var r := RunAt(s.fs, id).value;
    assert HasRun(s.fs, id, r);
    UpdateEffect(s.fs, id, m, fault);
    if Mutate(m, r).Ok? {
      MutateStatus(m, r);
      MutateFrame(m, r);
    }
    forall u ensures Mentions(ThreadAt(s, u)) != Some(id) {
      if Mentions(ThreadAt(s, u)) == Some(id) {
        MentionStatus(cfg, s, u, id);
      }
    }
    FactsKept(cfg, s, after, t, id);
    assert Pending(s, id) ==> TokenFits(s.fs, id);
    hide Tokens;
    TokensNew(s, after, t, id);
  }

  /** Neither form of cancellation touches what approved a run. */
  lemma CancelKeepsApproval(cfg: Config, s: State, c: CancelArgs, now: int, r: Run, after: Run)
    requires Mutate(CancelUpdate(cfg, s, c, now), r) == Ok(after)
    ensures CancelSpares(cfg, r, after, c.id in s.cancels)
  {
  }

  /** A cancellation fits whatever another thread relies on: one that is about to begin or is executing
      is either kept out by cancelMu or has its run registered. */
  lemma CancelFacts(cfg: Config, s: State, t: nat, u: nat, c: CancelArgs, holds: bool, now: int, fault: Fault)
    requires Core(cfg, s) && ThreadAt(s, t) == Cancelling(c, holds) && u != t
    requires Mentions(ThreadAt(s, u)) == Some(c.id) && !Inert(s.fs, c.id, CancelUpdate(cfg, s, c, now))
    ensures FactsAt(cfg, s.(fs := UpdateRun(s.fs, c.id, CancelUpdate(cfg, s, c, now), fault).0), ThreadAt(s, u))
  {
    hide RunsOk, ExecutionAllowed, Tokens, OneOwner, LaunchedStarted, CancelsRegistered, Mutate, CancelUpdate,
         AllFacts, Quiet, UpdateRun;
    var m, r := CancelUpdate(cfg, s, c, now), RunAt(s.fs, c.id).value;
    UpdateEffect(s.fs, c.id, m, fault);
    CancelKeepsApproval(cfg, s, c, now, r, Mutate(m, r).value);
    FactsOf(cfg, s, u);
    assert !HoldsCancelMu(ThreadAt(s, u));
    hide Locks;
  }

  predicate CancelSpares(cfg: Config, r: Run, after: Run, registered: bool) {
    && after.terms == r.terms && (ExecutionAllowed(cfg, r) ==> ExecutionAllowed(cfg, after))
    && if registered then after.status == r.status else after.status.Terminal()
  }

  lemma CancelAllFacts(cfg: Config, s: State, t: nat, c: CancelArgs, holds: bool, now: int, fault: Fault, after: State)
    requires Core(cfg, s) && ThreadAt(s, t) == Cancelling(c, holds) && OthersSame(s, after, t)
    requires after.fs == UpdateRun(s.fs, c.id, CancelUpdate(cfg, s, c, now), fault).0
    requires after.cancels == s.cancels && after.launches == s.launches && FactsAt(cfg, after, ThreadAt(after, t))
    ensures AllFacts(cfg, after)
  {
    hide StoreInv, Mutate, UpdateRun, CancelUpdate, Locks, OneOwner, CancelsRegistered, LaunchedStarted, Tokens,
         Quiet, Inert, AllFacts, Facts;
    var id, m := c.id, CancelUpdate(cfg, s, c, now);
    UpdateEffect(s.fs, id, m, fault);
    if Inert(s.fs, id, m) {
      NoEffect(s.fs, id, m, fault);
      QuietFacts(cfg, s, after, t, id);
    } else {
      forall u | u != t && Mentions(ThreadAt(s, u)) == Some(id) ensures FactsAt(cfg, after, ThreadAt(s, u)) {
        CancelFacts(cfg, s, t, u, c, holds, now, fault);
      }
      FactsKept(cfg, s, after, t, id);
    }
  }

  lemma CancelKeeps(cfg: Config, s: State, t: nat, now: int, fault: Fault, after: State)
    requires Core(cfg, s) && CallerNext(cfg, s, DoCancel(t, now, fault), after)
    ensures Core(cfg, after)
  {
    hide RunsOk, Mutate, UpdateRun, AllFacts, Tokens, Locks, OneOwner, CancelsRegistered, LaunchedStarted, Quiet,
         QueueNext, SubmitNext, TickNext;
    var c := s.threads[t].c;
    CallerBooks(cfg, s, DoCancel(t, now, fault), after);
    hide CallerShape;
    UpdateRest(cfg, s, after, c.id, CancelUpdate(cfg, s, c, now), fault);
    CancelAllFacts(cfg, s, t, c, s.threads[t].holdsInput, now, fault, after);
    CallerTokens(cfg, s, after, t, c.id, CancelUpdate(cfg, s, c, now), fault);
  }

  lemma SubmitCommitKeeps(cfg: Config, s: State, t: nat, inputs: seq<InputRef>, submission: Submission, now: int,
                          fault: Fault, after: State)
    requires Core(cfg, s) && CallerNext(cfg, s, SubmitCommit(t, inputs, submission, now, fault), after)
    ensures Core(cfg, after)
  {
    hide RunsOk, Mutate, UpdateRun, AllFacts, Tokens, Locks, OneOwner, CancelsRegistered, LaunchedStarted, Quiet,
         QueueNext, CancelNext, TickNext;
    var id, m := s.threads[t].id, Submit(inputs, submission, now);
    CallerBooks(cfg, s, SubmitCommit(t, inputs, submission, now, fault), after);
    hide CallerShape;
    UpdateRest(cfg, s, after, id, m, fault);
    UpdateEffect(s.fs, id, m, fault);
    SubmitFacts(cfg, s, t, id, m, fault, after);
    CallerTokens(cfg, s, after, t, id, m, fault);
  }

  lemma SubmitFacts(cfg: Config, s: State, t: nat, id: string, m: Mutation, fault: Fault, after: State)
    requires Core(cfg, s) && m.Submit? && OthersSame(s, after, t) && after.fs == UpdateRun(s.fs, id, m, fault).0
    requires after.cancels == s.cancels && after.launches == s.launches && FactsAt(cfg, after, ThreadAt(after, t))
    requires !Automatic(s.fs, id)
    ensures AllFacts(cfg, after)
  {
    hide StoreInv, Mutate, UpdateRun, Locks, OneOwner, CancelsRegistered, LaunchedStarted, Quiet, Tokens,
         AllFacts, Facts;
    UpdateEffect(s.fs, id, m, fault);
    SubmitNeedsPreparing(s.fs, id, m);
    if StatusAt(s.fs, id) != Some(Preparing) {
      NoEffect(s.fs, id, m, fault);
      QuietFacts(cfg, s, after, t, id);
    } else {
      forall u | u != t && Mentions(ThreadAt(s, u)) == Some(id) ensures FactsAt(cfg, after, ThreadAt(s, u)) {
        MentionStatus(cfg, s, u, id);
        TokenFactsKept(cfg, s, after, u, id);
      }
      FactsKept(cfg, s, after, t, id);
    }
  }

  lemma SubmitNeedsPreparing(fs: Fs, id: string, m: Mutation)
    ensures m.Submit? && StatusAt(fs, id) != Some(Preparing) ==> Inert(fs, id, m)
  {
  }

  // ---- Creation ----

  ghost predicate Creates(fs: Fs, run: Run, after: Fs, answer: Result<(), Error>) {
    && GentleBut(fs, after, run.id) && (RunAt(fs, run.id).Some? ==> Gentle(fs, after, run.id))
    && (answer.Ok? ==> RunAt(fs, run.id).None? && RunAt(after, run.id) == Some(run))
    && (RunAt(fs, run.id).None? ==> RunAt(after, run.id) == None || RunAt(after, run.id) == Some(run))
  }

  lemma CreateEffect(fs: Fs, run: Run, fault: Fault)
    requires RunsOk(fs) && History(run) && (run.status == WaitingApproval ==> !run.Manual())
    ensures RunsOk(CreateRun(fs, run, fault).0)
    ensures Creates(fs, run, CreateRun(fs, run, fault).0, CreateRun(fs, run, fault).1)
  {
    CreateKeeps(fs, run, fault);
    hide StoreInv, History;
    var after := CreateRun(fs, run, fault).0;
    PutShape(fs, run.id, run, fault);
    hide PutRun;
    forall x, r | HasRun(after, x, r) && r.status == WaitingApproval ensures !r.Manual() {
      if !HasRun(fs, x, r) {
        assert x == run.id && r == run;
      }
    }
  }

  lemma CreateCallKeeps(cfg: Config, s: State, t: nat, run: Run, fault: Fault, after: State)
    requires Core(cfg, s) && CallerNext(cfg, s, CreateCall(t, run, fault), after)
    ensures Core(cfg, after)
  {
    hide RunsOk, History, CreateRun, AllFacts, Tokens, Locks, OneOwner, CancelsRegistered, LaunchedStarted,
         Quiet, CancelNext, SubmitNext, TickNext, Facts, GentleBut, Gentle;
    CallerBooks(cfg, s, CreateCall(t, run, fault), after);
    hide CallerShape, OthersSame;
    CreateEffect(s.fs, run, fault);
    LaunchedGentleAt(cfg, s, after, run.id);
    if RunAt(s.fs, run.id).Some? {
      SilentFacts(cfg, after, ThreadAt(after, t));
      QuietFacts(cfg, s, after, t, run.id);
      GentleTerms(s.fs, after.fs, run.id);
      PendingFits(s, run.id);
      TokensKept(s, after, t, run.id);
    } else {
      CreatedFacts(cfg, s, after, t, run);
    }
  }

  lemma PendingFits(s: State, id: string)
    requires Tokens(s)
    ensures Pending(s, id) ==> TokenFits(s.fs, id)
  {
  }

  lemma CreatedFacts(cfg: Config, s: State, after: State, t: nat, run: Run)
    requires Core(cfg, s) && t !in s.threads && OthersSame(s, after, t) && RunAt(s.fs, run.id).None?
    requires GentleBut(s.fs, after.fs, run.id)
    requires after.queue == s.queue && after.boot == s.boot && after.cancels == s.cancels
    requires after.launches == s.launches
    requires ThreadAt(after, t).Idle? ||
             (ThreadAt(after, t) == Enqueuing(run.id) && RunAt(after.fs, run.id) == Some(run) && !run.Manual() &&
              run.status == Queued)
    ensures AllFacts(cfg, after) && Tokens(after)
  {
    hide RunsOk, LaunchedStarted, Locks, OneOwner, CancelsRegistered, Quiet, AllFacts, Tokens;
    forall u ensures Mentions(ThreadAt(s, u)) != Some(run.id) {
      if Mentions(ThreadAt(s, u)) == Some(run.id) {
        MentionStatus(cfg, s, u, run.id);
      }
    }
    FactsKept(cfg, s, after, t, run.id);
    PendingFits(s, run.id);
    TokensNew(s, after, t, run.id);
  }

  lemma LaunchedGentleAt(cfg: Config, s: State, after: State, y: string)
    requires LaunchedStarted(cfg, s) && after.launches == s.launches && GentleBut(s.fs, after.fs, y)
    requires RunAt(s.fs, y).Some? ==> Gentle(s.fs, after.fs, y)
    ensures LaunchedStarted(cfg, after)
  {
    hide ExecutionAllowed;
    forall id | id in after.launches
      ensures RunAt(after.fs, id).Some? && !Candidate(after.fs, RunName(id), None)
      ensures forall r :: HasRun(after.fs, id, r) ==> Rank(r.status) <= 1
    {
    }
  }

  lemma CallerKeeps(cfg: Config, s: State, step: Step, after: State)
    requires Core(cfg, s) && Offered(s) && CallerNext(cfg, s, step, after)
    ensures Core(cfg, after)
  {
    hide Core, CallerNext, Moves, FilesChange, Outside;
    CallerMoves(cfg, s, step, after);
    if Plain(step) {
      PlainKeeps(cfg, s, step, after);
    } else if step.CreateCall? {
      CreateCallKeeps(cfg, s, step.t, step.run, step.fault, after);
    } else if step.Enqueue? {
      EnqueueKeeps(cfg, s, step.t, step.accepted, after);
    } else if step.Notify? {
      NotifyKeeps(cfg, s, step.t, step.accepted, after);
    } else if step.TickSend? {
      TickSendKeeps(cfg, s, after);
    } else if step.TickList? || step.Elsewhere? {
      ReadKeeps(cfg, s, step, after);
    } else if step.FailUnqueued? {
      FailUnqueuedKeeps(cfg, s, step.t, step.message, step.now, step.fault, after);
    } else if step.ApproveCall? {
      ApproveKeeps(cfg, s, step.t, step.id, step.tenant, step.approval, step.now, step.fault, after);
    } else if step.DoCancel? {
      CancelKeeps(cfg, s, step.t, step.now, step.fault, after);
    } else {
      SubmitCommitKeeps(cfg, s, step.t, step.inputs, step.submission, step.now, step.fault, after);
    }
  }
}
