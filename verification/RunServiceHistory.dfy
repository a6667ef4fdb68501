/** Where what a run file says comes from: the steps behind it, in every run of the service. */
module RunServiceHistory {
  import opened Prelude
  import opened Domain
  import opened Runs
  import opened RunUpdates
  import opened Disk
  import opened Strings
  import opened RunFiles
  import opened RunService
  import opened RunServiceSteps
  import opened RunServiceTheorems

  /** A version of a run on disk was brought there by some step. */
  lemma {:induction false} Appears(cfg: Config, states: seq<State>, steps: seq<Step>, n: nat, id: string, r: Run)
    returns (k: nat)
    requires Trace(cfg, states, steps) && n < |states| && HasRun(states[n].fs, id, r)
    ensures k < n && HasRun(states[k + 1].fs, id, r) && !HasRun(states[k].fs, id, r)
    ensures Next(cfg, states[k], steps[k], states[k + 1])
    decreases n
  {
    hide Next;
    if HasRun(states[n - 1].fs, id, r) {
      k := Appears(cfg, states, steps, n - 1, id, r);
    } else {
      k := n - 1;
      assert Next(cfg, states[k], steps[k], states[k + 1]);
    }
  }

  // ---- Conclusions ----

  /** What the worker may make of an execution of the run, by the output gate and the evidence check. */
  ghost predicate Judged(cfg: Config, fs: Fs, id: string, given: Outcome, records: Result<seq<EvidenceRef>, Error>,
                         result: ExecutionResult) {
    match TermsAt(fs, id)
    case Some(terms) => cfg.concludes(terms.agentId, Judgement(given.result, given.err, records, result))
    case None => false
  }

  predicate Carries(th: Thread, id: string, o: Outcome) {
    th == WantFinish(id, o) || th == Finishing(id, o)
  }

  lemma ConcludeShape(cfg: Config, s: State, step: Step, after: State, id: string, o: Outcome)
    returns (given: Outcome, records: Result<seq<EvidenceRef>, Error>)
    requires Next(cfg, s, step, after) && step.Conclude? && Carries(ThreadAt(after, step.t), id, o)
    ensures step == Conclude(step.t, records, o.result) && ThreadAt(s, step.t) == Concluding(id, given)
    ensures o == given.(result := o.result) && Judged(cfg, s.fs, id, given, records, o.result) && after.fs == s.fs
  {
    hide Next;
    WorkerOnly(cfg, s, step, after);
    given, records := s.threads[step.t].outcome, step.records;
  }

  /** An outcome that a worker is to store was concluded by that worker from what its executor returned. */
  lemma {:induction false} ConcludedBefore(cfg: Config, states: seq<State>, steps: seq<Step>, n: nat, t: nat,
                                           id: string, o: Outcome)
    returns (k: nat, given: Outcome, records: Result<seq<EvidenceRef>, Error>)
    requires Trace(cfg, states, steps) && n < |states| && Carries(ThreadAt(states[n], t), id, o)
    ensures k < n && steps[k] == Conclude(t, records, o.result) && ThreadAt(states[k], t) == Concluding(id, given)
    ensures o == given.(result := o.result) && Judged(cfg, states[n].fs, id, given, records, o.result)
    decreases n
  {
    hide Next, Inv, FilesChange, LaunchRule, Judged;
    var m := n - 1;
    Reachable(cfg, states, steps);
    assert states[m] in states && Next(cfg, states[m], steps[m], states[m + 1]);
    StepEffect(cfg, states[m], steps[m], states[n]);
    if steps[m].Conclude? && Actor(steps[m]) == t {
      k := m;
      given, records := ConcludeShape(cfg, states[m], steps[m], states[n], id, o);
    } else {
      k, given, records := ConcludedBefore(cfg, states, steps, m, t, id, o);
    }
    JudgedStays(cfg, states[m], steps[m], states[n], id, given, records, o.result);
  }

  lemma JudgedStays(cfg: Config, s: State, step: Step, after: State, id: string, given: Outcome,
                    records: Result<seq<EvidenceRef>, Error>, result: ExecutionResult)
    requires Inv(cfg, s) && FilesChange(cfg, s, step, after.fs) && !step.Restarts?
    requires Judged(cfg, s.fs, id, given, records, result)
    ensures Judged(cfg, after.fs, id, given, records, result)
  {
    hide RunsOk, Locks, OneOwner, AllFacts, CancelsRegistered, LaunchedStarted, Tokens, Quiet, Snapshots, Offered,
         FilesChange;
    InputKept(cfg, s, step, after.fs, id);
  }

  /** What a worker is to judge was returned by the executor it ran. */
  lemma {:induction false} ReturnedBefore(cfg: Config, states: seq<State>, steps: seq<Step>, n: nat, t: nat,
                                          id: string, given: Outcome)
    returns (k: nat)
    requires Trace(cfg, states, steps) && n < |states| && ThreadAt(states[n], t) == Concluding(id, given)
    ensures k < n && steps[k] == ExecutorReturns(t, given) && ThreadAt(states[k], t) == Executing(id)
    decreases n
  {
    hide Next, FilesChange, LaunchRule;
    k := n - 1;
    assert Next(cfg, states[k], steps[k], states[k + 1]);
    StepEffect(cfg, states[k], steps[k], states[n]);
    if ThreadAt(states[k], t) == Concluding(id, given) {
      k := ReturnedBefore(cfg, states, steps, k, t, id, given);
    }
  }

  /** One execution of a run: steps `returned`, `concluded` and `written` of one worker, what its executor
      returned, the evidence listing it was checked against, and what the worker made of it. */
  datatype Account = Account(
    worker: nat, returned: nat, concluded: nat, written: nat, given: Outcome,
    records: Result<seq<EvidenceRef>, Error>, result: ExecutionResult)

  /** The executor of this run returned, its worker judged what it returned, and wrote the end of the run. */
  ghost predicate Executed(states: seq<State>, steps: seq<Step>, id: string, a: Account) {
    && |states| == |steps| + 1 && a.returned < a.concluded < a.written < |steps|
    && steps[a.returned] == ExecutorReturns(a.worker, a.given)
    && ThreadAt(states[a.returned], a.worker) == Executing(id)
    && steps[a.concluded] == Conclude(a.worker, a.records, a.result)
    && ThreadAt(states[a.concluded], a.worker) == Concluding(id, a.given)
    && steps[a.written].DoFinish? && Actor(steps[a.written]) == a.worker
    && ThreadAt(states[a.written], a.worker) == Finishing(id, a.given.(result := a.result))
  }

  /** Behind every version of a run that is stored as succeeded or partial, in any version a power loss may bring
      back, stands one execution of that run: its executor returned without an error, the worker that ran it judged
      what it returned for the run's agent, and the record says what the worker concluded. */
  lemma ExecutionBehind(cfg: Config, states: seq<State>, steps: seq<Step>, n: nat, id: string, r: Run)
    returns (a: Account)
    requires Trace(cfg, states, steps) && n < |states| && HasRun(states[n].fs, id, r) && Good(r.status)
    ensures Executed(states, steps, id, a) && a.written < n && a.given.err == NoError
    ensures a.result.status == r.status && r.result == Some(BoundResult(a.result.result))
    ensures cfg.concludes(r.terms.agentId, Judgement(a.given.result, NoError, a.records, a.result))
  {
    hide Next, Inv, BoundResult, HasRun;
    Reachable(cfg, states, steps);
    var w := Appears(cfg, states, steps, n, id, r);
    assert states[w] in states;
    var t := Actor(steps[w]);
    var o := NewConclusion(cfg, states[w], steps[w], states[w + 1], id, r);
    var c, given, records := ConcludedBefore(cfg, states, steps, w, t, id, o);
    var i := ReturnedBefore(cfg, states, steps, c, t, id, given);
    a := Account(t, i, c, w, given, records, o.result);
  }

  // ---- Cancellations ----

  /** The three ways a run is stored as cancelled: by a caller, while no executor is registered for it; by the
      worker whose executor was interrupted, if the log holds the request of it; and by the worker whose executor says
      so itself. */
  ghost predicate EndsCancelled(s: State, step: Step, id: string, r: Run) {
    match ThreadAt(s, Actor(step))
    case Cancelling(c, _) => step.DoCancel? && c.id == id && id !in s.cancels
    case Finishing(x, o) =>
      step.DoFinish? && x == id && (if o.err == NoError then o.result.status == Cancelled
                                    else o.err == ContextCanceled && CancelWasRequested(r))
    case _ => false
  }

  /** A version new on disk is cancelled if and only if the step that wrote it is one of these. */
  lemma NewCancellation(cfg: Config, s: State, step: Step, after: State, id: string, r: Run)
    requires Inv(cfg, s) && Next(cfg, s, step, after) && HasRun(after.fs, id, r) && !HasRun(s.fs, id, r)
    ensures r.status == Cancelled <==> EndsCancelled(s, step, id, r)
  {
    hide Core, Snapshots, Offered, FilesChange, Next, LaunchRule, NothingNew, WrittenBy;
    StepEffect(cfg, s, step, after);
    NewVersion(cfg, s, step, after.fs, id, r);
    if WrittenBy(cfg, s, step, id, r) {
      WrittenCancelled(cfg, s, step, id, r);
    }
  }

  lemma WrittenCancelled(cfg: Config, s: State, step: Step, id: string, r: Run)
    requires WrittenBy(cfg, s, step, id, r) && !HasRun(s.fs, id, r)
    ensures r.status == Cancelled <==> EndsCancelled(s, step, id, r)
  {
    hide Mutate, CancelWasRequested, WriteFault;
    var current := RunAt(s.fs, id).value;
    assert HasRun(s.fs, id, current);
    CancelledExactly(StepUpdate(cfg, s, step).value.1, current, r);
  }

  /** Behind every version of a run that is stored as cancelled stands such a step. */
  lemma CancellationBehind(cfg: Config, states: seq<State>, steps: seq<Step>, s: State, id: string, r: Run)
    returns (k: nat)
    requires Trace(cfg, states, steps) && s in states && HasRun(s.fs, id, r) && r.status == Cancelled
    ensures k < |steps| && EndsCancelled(states[k], steps[k], id, r)
  {
    hide Next, Inv, HasRun, EndsCancelled;
    var n: nat :| n < |states| && states[n] == s;
    Reachable(cfg, states, steps);
    k := Appears(cfg, states, steps, n, id, r);
    assert states[k] in states;
    NewCancellation(cfg, states[k], steps[k], states[k + 1], id, r);
  }

  // ---- Failures the service itself writes ----

  /** The code of a failure that no execution is behind. */
  function FailureCode(s: State, step: Step): Option<string> {
    match step
    case BootFail(_, _, _) => Some("service_restarted")
    case FailUnqueued(_, _, _, _) => Some("queue_unavailable")
    case Reject(t, _, _) => (match ThreadAt(s, t) case Rejecting(_, code, _) => Some(code) case _ => None)
    case _ => None
  }

  /** Such a failure ends the run with its code. */
  lemma FailuresSayWhy(cfg: Config, s: State, step: Step, after: State, id: string, r: Run)
    requires Inv(cfg, s) && Next(cfg, s, step, after) && HasRun(after.fs, id, r) && !HasRun(s.fs, id, r)
    requires FailureCode(s, step).Some?
    ensures r.status == Failed
    ensures match r.result
            case Some(result) =>
              Some(result.errorCode) == FailureCode(s, step) && result.findings == [] && result.rawOutput == []
            case None => false
  {
    hide Core, Snapshots, Offered, FilesChange, Next, LaunchRule, NothingNew, Mutate, EndedNow, CutTo;
    StepEffect(cfg, s, step, after);
    NewVersion(cfg, s, step, after.fs, id, r);
    var m, current := StepUpdate(cfg, s, step).value.1, RunAt(s.fs, id).value;
    FailedNow(m, current, r);
  }

  lemma FailedNow(m: Mutation, current: Run, r: Run)
    requires m.Fail? && Mutate(m, current) == Ok(r) && r != current
    ensures r.status == Failed
    ensures match r.result
            case Some(result) => result.errorCode == m.code && result.findings == [] && result.rawOutput == []
            case None => false
  {
    MutateStatus(m, current);
    FailWrites(m.executor, m.code, m.message, m.now, current);
  }

  // ---- Tenants ----

  /** A version that an approval or a caller's cancellation brings to disk belongs to the tenant that called. */
  lemma CallersOwnTheRun(cfg: Config, s: State, step: Step, after: State, id: string, r: Run)
    requires Inv(cfg, s) && Next(cfg, s, step, after) && HasRun(after.fs, id, r) && !HasRun(s.fs, id, r)
    ensures step.ApproveCall? ==> step.id == id && r.terms.scope.tenantId == step.tenant
    ensures step.DoCancel? ==>
      match ThreadAt(s, step.t)
      case Cancelling(c, _) => c.id == id && r.terms.scope.tenantId == c.tenant
      case _ => false
  {
    hide Core, Snapshots, Offered, FilesChange, Next, LaunchRule, NothingNew, Mutate;
    StepEffect(cfg, s, step, after);
    NewVersion(cfg, s, step, after.fs, id, r);
    if step.ApproveCall? || step.DoCancel? {
      var m, current := StepUpdate(cfg, s, step).value.1, RunAt(s.fs, id).value;
      MutateFrame(m, current);
      if m.tenant != current.terms.scope.tenantId {
        ForeignTenantRefused(m, current);
      }
    }
  }

  predicate BelongsTo(fs: Fs, id: string, tenant: string) {
    match RunAt(fs, id)
    case Some(r) => r.terms.scope.tenantId == tenant
    case None => false
  }

  /** An approval or a cancellation that is about to be written names the tenant of its run. */
  predicate ForTenant(s: State, step: Step) {
    match step
    case ApproveCall(_, id, tenant, _, _, _) => BelongsTo(s.fs, id, tenant)
    case DoCancel(t, _, _) =>
      (match ThreadAt(s, t)
       case Cancelling(c, _) => BelongsTo(s.fs, c.id, c.tenant)
       case _ => false)
    case _ => true
  }

  /** Under any other tenant these calls leave the disk alone. */
  lemma ForeignCallsChangeNothing(cfg: Config, s: State, step: Step, after: State)
    requires Next(cfg, s, step, after) && !ForTenant(s, step)
    ensures after.fs == s.fs
  {
    hide WorkerNext, StartNext, Mutate, CancelUpdate;
    NotOfWorkers(cfg, s, step, after);
    if step.ApproveCall? {
      RefusedUpdate(s.fs, step.id, Approve(step.tenant, step.approval, step.now), step.fault);
    } else {
      var c := s.threads[step.t].c;
      CancelNames(cfg, s, c, step.now);
      RefusedUpdate(s.fs, c.id, CancelUpdate(cfg, s, c, step.now), step.fault);
    }
  }

  lemma NotOfWorkers(cfg: Config, s: State, step: Step, after: State)
    requires Next(cfg, s, step, after) && (step.ApproveCall? || step.DoCancel?)
    ensures CallerNext(cfg, s, step, after)
  {
    hide CallerNext, UpdateRun;
  }

  lemma CancelNames(cfg: Config, s: State, c: CancelArgs, now: int)
    ensures CancelUpdate(cfg, s, c, now).tenant == c.tenant
    ensures CancelUpdate(cfg, s, c, now).RequestCancel? || CancelUpdate(cfg, s, c, now).Cancel?
  {
  }

  lemma RefusedUpdate(fs: Fs, id: string, m: Mutation, fault: Fault)
    requires (m.Approve? || m.RequestCancel? || m.Cancel?) && !BelongsTo(fs, id, m.tenant)
    ensures UpdateRun(fs, id, m, fault).0 == fs
  {
    if RunAt(fs, id).Some? {
      ForeignTenantRefused(m, RunAt(fs, id).value);
    }
  }

  /** This call approves the run, with an id, an actor and a reason. */
  predicate Approves(step: Step, id: string, tenant: string, approval: Approval) {
    match step
    case ApproveCall(_, x, caller, a, _, _) =>
      x == id && caller == tenant && a == approval && !Blank(a.id) && !Blank(a.actor) && !Blank(a.reason)
    case _ => false
  }

  /** Behind every version of a run that carries an approval stands a call that gave it, in the name of the run's own
      tenant. */
  lemma {:induction false} ApprovalBehind(cfg: Config, states: seq<State>, steps: seq<Step>, n: nat, id: string, r: Run,
                                          approval: Approval)
    returns (k: nat)
    requires Trace(cfg, states, steps) && n < |states| && HasRun(states[n].fs, id, r) && r.approval == Some(approval)
    ensures k < n && Approves(steps[k], id, r.terms.scope.tenantId, approval)
    decreases n
  {
    hide Next, Inv, FilesChange, LaunchRule, NothingNew, Mutate, Approves, History;
    k := Appears(cfg, states, steps, n, id, r);
    var s := states[k];
    StepEffect(cfg, s, steps[k], states[k + 1]);
    NewVersion(cfg, s, steps[k], states[k + 1].fs, id, r);
    var m, current := StepUpdate(cfg, s, steps[k]).value.1, RunAt(s.fs, id).value;
    ApprovalsKept(m, current, r);
    MutateFrame(m, current);
    if m.Approve? {
      ApproveIsCall(cfg, s, steps[k], states[k + 1], id, m);
    } else {
      k := ApprovalBehind(cfg, states, steps, k, id, current, approval);
    }
  }

  lemma ApproveIsCall(cfg: Config, s: State, step: Step, after: State, id: string, m: Mutation)
    requires Next(cfg, s, step, after) && m.Approve?
    requires match StepUpdate(cfg, s, step) { case Some(u) => u.0 == id && u.1 == m case None => false }
    ensures Approves(step, id, m.tenant, m.approval)
  {
    hide ClaimNext, BeginNext, CancelNext, SubmitNext, UpdateRun, CreateRun;
  }
}
