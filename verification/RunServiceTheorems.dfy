/** What the run service guarantees in every run of the step system. */
module RunServiceTheorems {
  import opened Prelude
  import opened Domain
  import opened Runs
  import opened RunUpdates
  import opened Disk
  import opened RunFiles
  import opened Strings
  import opened RunService
  import opened RunServiceSteps

  // ---- Start and restart ----

  lemma IdleFacts(cfg: Config, s: State, after: State)
    requires Quiet(s) && Early(s.boot) && after.threads == s.threads
    ensures AllFacts(cfg, after)
  {
  }

  /** While nothing is queued or carried there are no tokens to count. */
  lemma QuietTokens(s: State)
    requires s.queue == [] && !s.boot.Offering? && forall t :: t in s.threads ==> s.threads[t].Idle?
    ensures Tokens(s)
  {
  }

  lemma BootFailKeeps(cfg: Config, s: State, id: string, now: int, fault: Fault, after: State)
    requires Core(cfg, s) && StartNext(cfg, s, BootFail(id, now, fault), after)
    ensures Core(cfg, after)
  {
    hide StoreInv, Mutate, UpdateRun, Tokens, LaunchedStarted;
    var m := Fail(cfg.executor, "service_restarted", "service restarted before run completed", now);
    UpdateRest(cfg, s, after, id, m, fault);
    IdleFacts(cfg, s, after);
    QuietTokens(after);
  }

  lemma BootListKeeps(cfg: Config, s: State, ok: bool, after: State)
    requires Core(cfg, s) && StartNext(cfg, s, BootList(ok), after)
    ensures Core(cfg, after)
  {
    hide StoreInv, LaunchedStarted;
    SyncUntouched(s.fs, RunsDir);
    UntouchedEffect(s.fs, after.fs);
    if ok {
      assert forall id :: Gentle(s.fs, after.fs, id);
      LaunchedGentle(cfg, s, after);
    } else {
      SameLaunched(cfg, s, after);
    }
    hide Candidate;
    IdleFacts(cfg, s, after);
    if after.boot.Offering? {
      OfferTokens(s, after);
    } else {
      QuietTokens(after);
    }
  }

  lemma OfferTokens(s: State, after: State)
    requires s.queue == [] && (forall t :: t in s.threads ==> s.threads[t].Idle?)
    requires after.threads == s.threads && after.queue == [] && after.boot.Offering? && AllQueued(s.fs, after.boot.rest)
    requires forall id :: Gentle(s.fs, after.fs, id)
    ensures Tokens(after)
  {
    forall id | Pending(after, id) ensures TokenFits(after.fs, id) {
      assert Gentle(s.fs, after.fs, id);
      assert StatusAt(s.fs, id) == Some(Queued);
    }
  }

  lemma BootOfferKeeps(cfg: Config, s: State, after: State)
    requires Core(cfg, s) && StartNext(cfg, s, BootOffer, after)
    ensures Core(cfg, after)
  {
    hide StoreInv, LaunchedStarted;
    SameLaunched(cfg, s, after);
    OfferOne(s, after);
  }

  lemma OfferOne(s: State, after: State)
    requires Tokens(s) && s.boot.Offering? && s.boot.rest != []
    requires after == s.(queue := s.queue + [s.boot.rest[0]], boot := Offering(s.boot.rest[1..]))
    ensures Tokens(after)
  {
    hide Automatic, TokenFits;
    var id := s.boot.rest[0];
    assert s.boot.rest == [id] + after.boot.rest;
    assert id in s.boot.rest;
    forall x ensures Pending(after, x) == Pending(s, x) {
    }
    assert forall i :: 0 <= i < |s.queue| ==> s.queue[i] in s.queue;
    forall t, u | t in after.threads && u in after.threads && SameToken(after, after.threads[t], after.threads[u])
      ensures t == u {
      assert SameToken(s, s.threads[t], s.threads[u]);
    }
  }

  lemma BootNextKeeps(cfg: Config, s: State, after: State)
    requires Core(cfg, s) && StartNext(cfg, s, BootNext, after)
    ensures Core(cfg, after)
  {
    hide RunsOk, LaunchedStarted, AllFacts, Tokens, Owns;
    SameLaunched(cfg, s, after);
    if s.boot == Offering([]) {
      UpTokens(s, after);
      SameFacts(cfg, s, after);
    } else {
      IdleFacts(cfg, s, after);
      QuietTokens(after);
    }
  }

  lemma SameFacts(cfg: Config, s: State, after: State)
    requires AllFacts(cfg, s) && after.fs == s.fs && after.threads == s.threads && after.cancels == s.cancels
    requires after.launches == s.launches
    ensures AllFacts(cfg, after)
  {
    hide Facts;
  }

  lemma UpTokens(s: State, after: State)
    requires Tokens(s) && s.boot == Offering([]) && after == s.(boot := Up)
    ensures Tokens(after)
  {
    hide Automatic, TokenFits;
    forall x ensures Pending(after, x) == Pending(s, x) {
    }
    forall t, u | t in after.threads && u in after.threads && SameToken(after, after.threads[t], after.threads[u])
      ensures t == u {
      assert SameToken(s, s.threads[t], s.threads[u]);
    }
  }

  lemma RestartsKeep(cfg: Config, s: State, after: State)
    requires Core(cfg, s) && StartNext(cfg, s, Restarts, after)
    ensures Core(cfg, after)
  {
    hide RunsOk, Restart, LaunchedStarted, Tokens, TokenFits, UpdateRun;
    RestartRunsOk(s.fs, after.fs);
    RestartLaunched(cfg, s, after);
    QuietTokens(after);
  }

  lemma RestartRunsOk(fs: Fs, after: Fs)
    requires RunsOk(fs) && Restart(fs, after)
    ensures RunsOk(after)
  {
    hide StoreInv, Restart;
    RestartKeeps(fs, after);
    forall id, r | HasRun(after, id, r) && r.status == WaitingApproval ensures !r.Manual() {
      LossPicksCandidates(fs, after, RunName(id), Some(RunFile(r)));
      assert HasRun(fs, id, r);
    }
  }

  lemma RestartLaunched(cfg: Config, s: State, after: State)
    requires LaunchedStarted(cfg, s) && Restart(s.fs, after.fs) && after.launches == s.launches && RunsOk(after.fs)
    ensures LaunchedStarted(cfg, after)
  {
    hide History, Restart;
    forall id, v | Candidate(after.fs, RunName(id), v) ensures v == None || Candidate(s.fs, RunName(id), v) {
      LossPicksCandidates(s.fs, after.fs, RunName(id), v);
    }
    forall id | id in after.launches ensures RunAt(after.fs, id).Some? && !Candidate(after.fs, RunName(id), None) {
      RestartKeepsFile(s.fs, after.fs, id);
    }
  }

  lemma RestartKeepsFile(fs: Fs, after: Fs, id: string)
    requires Restart(fs, after) && !Candidate(fs, RunName(id), None) && StoreInv(after)
    ensures RunAt(after, id).Some? && !Candidate(after, RunName(id), None)
  {
    hide History;
    assert Above(RunName(id)) == {};
    assert RunName(id) in after.visible;
    assert Candidate(after, RunName(id), Some(after.visible[RunName(id)]));
  }

  lemma StartKeeps(cfg: Config, s: State, step: Step, after: State)
    requires Core(cfg, s) && StartNext(cfg, s, step, after)
    ensures Core(cfg, after)
  {
    if step.BootCheck? {
      hide StoreInv, LaunchedStarted;
      SameLaunched(cfg, s, after);
      IdleFacts(cfg, s, after);
      QuietTokens(after);
    } else if step.BootList? {
      hide Core;
      BootListKeeps(cfg, s, step.ok, after);
    } else if step.BootFail? {
      hide Core;
      BootFailKeeps(cfg, s, step.id, step.now, step.fault, after);
    } else if step.BootNext? {
      hide Core;
      BootNextKeeps(cfg, s, after);
    } else if step.BootOffer? {
      hide Core;
      BootOfferKeeps(cfg, s, after);
    } else {
      hide Core;
      RestartsKeep(cfg, s, after);
    }
  }

  // ---- What a step does ----

  predicate StartStep(step: Step) {
    step.BootCheck? || step.BootList? || step.BootFail? || step.BootNext? || step.BootOffer? || step.Restarts?
  }

  /** What holds of every step of the recovery, and of a restart. */
  ghost predicate StartShape(cfg: Config, s: State, step: Step, after: State) {
    && StartStep(step) && after.launches == s.launches && FilesChange(cfg, s, step, after.fs)
    && if step.Restarts? then after == Fresh(cfg, after.fs, s.launches)
       else after == s.(fs := after.fs, queue := after.queue, boot := after.boot)
  }

  lemma StartMoves(cfg: Config, s: State, step: Step, after: State)
    requires StartNext(cfg, s, step, after)
    ensures StartShape(cfg, s, step, after)
  {
    hide UpdateRun, InStatus, AllQueued, Restart, Sync;
  }

  lemma WorkerOnly(cfg: Config, s: State, step: Step, after: State)
    requires Next(cfg, s, step, after) && WorkerStep(step)
    ensures WorkerNext(cfg, s, step, after)
  {
    hide WorkerNext, CallerNext, StartNext, Moves, FilesChange, CallerShape, TickShape;
    if CallerNext(cfg, s, step, after) {
      CallerKinds(cfg, s, step, after);
    } else if StartNext(cfg, s, step, after) {
      StartMoves(cfg, s, step, after);
    }
  }

  lemma CallerKinds(cfg: Config, s: State, step: Step, after: State)
    requires CallerNext(cfg, s, step, after)
    ensures CallerStep(step)
  {
    hide CallerNext, Moves, FilesChange, CallerStep;
    CallerMoves(cfg, s, step, after);
  }

  /** Outcomes, returns and snapshots are those of before but for the step that makes them. */
  ghost predicate NothingNew(s: State, step: Step, after: State) {
    && (forall t :: HasOutcome(ThreadAt(after, t)) && !(step.Conclude? && Actor(step) == t) ==>
          !step.Restarts? && SameOutcome(ThreadAt(s, t), ThreadAt(after, t)))
    && (forall t :: ThreadAt(after, t).Checking? && !(step.DoClaim? && Actor(step) == t) ==>
          !step.Restarts? && ThreadAt(after, t) == ThreadAt(s, t))
    && (forall t :: ThreadAt(after, t).Concluding? && ThreadAt(after, t) != ThreadAt(s, t) ==>
          Actor(step) == t && Returns(step, ThreadAt(s, t), ThreadAt(after, t)))
    && (!step.TickList? && !step.TickSend? && !step.Restarts? ==> after.offers == s.offers)
    && (step.Restarts? ==> after.offers == [])
  }

  lemma WorkerNothingNew(s: State, step: Step, after: State, t: nat)
    requires t == Actor(step) && WorkerStep(step) && OthersSame(s, after, t) && after.offers == s.offers
    requires Course(step, ThreadAt(s, t), ThreadAt(after, t))
    ensures NothingNew(s, step, after)
  {
    hide OthersSame, ThreadAt, Actor, Attending, Returns;
    OthersAsBefore(s, after, t);
  }

  lemma OthersAsBefore(s: State, after: State, t: nat)
    requires OthersSame(s, after, t)
    ensures forall u :: u != t ==> ThreadAt(after, u) == ThreadAt(s, u)
  {
  }

  lemma CallerNothingNew(cfg: Config, s: State, step: Step, after: State)
    requires CallerShape(cfg, s, step, after) && OthersSame(s, after, Actor(step))
    ensures NothingNew(s, step, after) && !step.Launch?
  {
    hide FilesChange, Actor;
  }

  lemma OtherNothingNew(cfg: Config, s: State, step: Step, after: State)
    requires TickShape(cfg, s, step, after) || StartShape(cfg, s, step, after)
    ensures NothingNew(s, step, after) && LaunchRule(s, step, after)
  {
    hide FilesChange;
  }

  /** What holds of every step: how it touches the run files, the launches, and what threads carry. */
  lemma StepEffect(cfg: Config, s: State, step: Step, after: State)
    requires Next(cfg, s, step, after)
    ensures FilesChange(cfg, s, step, after.fs) && LaunchRule(s, step, after) && NothingNew(s, step, after)
  {
    hide WorkerNext, CallerNext, StartNext, FilesChange, LockRule, Registers, Owner, NothingNew, OthersSame,
         Course, WorkerStep, CallerStep, HasThread, Actor, ThreadAt, Fresh;
    if WorkerNext(cfg, s, step, after) {
      WorkerMoves(cfg, s, step, after);
      WorkerNothingNew(s, step, after, Actor(step));
    } else if CallerNext(cfg, s, step, after) {
      CallerMoves(cfg, s, step, after);
      if HasThread(step) {
        CallerNothingNew(cfg, s, step, after);
      } else {
        OtherNothingNew(cfg, s, step, after);
      }
    } else {
      StartMoves(cfg, s, step, after);
      OtherNothingNew(cfg, s, step, after);
    }
  }

  // ---- Inputs, conclusions and offers ----

  /** A run that is there stays, keeps its terms, and once submitted also its input and frozen policy. */
  ghost predicate InputStays(fs: Fs, after: Fs, id: string) {
    match RunAt(fs, id)
    case None => true
    case Some(r) =>
        TermsAt(after, id) == Some(r.terms) && (r.status != Preparing ==> SameInput(r, RunAt(after, id).value))
  }

  lemma UpdateInput(fs: Fs, x: string, m: Mutation, fault: Fault, id: string)
    requires RunsOk(fs)
    ensures InputStays(fs, UpdateRun(fs, x, m, fault).0, id)
  {
    hide StoreInv, Mutate, SameInput;
    UpdateEffect(fs, x, m, fault);
    if RunAt(fs, id).Some? {
      SameAsItself(RunAt(fs, id).value);
    }
    if x == id && RunAt(fs, id).Some? {
      SubmitNeedsPreparing(fs, id, m);
      if Mutate(m, RunAt(fs, id).value).Ok? {
        MutateStatus(m, RunAt(fs, id).value);
        MutateFrame(m, RunAt(fs, id).value);
      }
    }
    hide UpdateRun;
  }

  /** Between restarts. */
  lemma InputKept(cfg: Config, s: State, step: Step, fs: Fs, id: string)
    requires RunsOk(s.fs) && FilesChange(cfg, s, step, fs) && !step.Restarts?
    ensures InputStays(s.fs, fs, id)
  {
    hide StoreInv, History, UpdateRun, CreateRun, StepUpdate, RunsOk, Restart, Candidate, Touched;
    if StepUpdate(cfg, s, step).Some? {
      var u := StepUpdate(cfg, s, step).value;
      UpdateInput(s.fs, u.0, u.1, u.2, id);
    } else if step.CreateCall? {
      CreateEffect(s.fs, step.run, step.fault);
    }
  }

  lemma SnapshotsKept(cfg: Config, s: State, step: Step, after: State)
    requires Inv(cfg, s) && Next(cfg, s, step, after)
    ensures Snapshots(after)
  {
    hide RunsOk, Locks, OneOwner, AllFacts, CancelsRegistered, LaunchedStarted, Tokens, Quiet, Offered,
         FilesChange, SameInput, Next, LaunchRule;
    StepEffect(cfg, s, step, after);
    forall t | t in after.threads && after.threads[t].Checking?
      ensures Snapshot(after.fs, after.threads[t].id, after.threads[t].run) {
      assert ThreadAt(after, t) == after.threads[t];
      if step.DoClaim? && Actor(step) == t {
        ClaimSnapshot(cfg, s, step, after);
      } else {
        SnapshotStays(cfg, s, step, after, t);
      }
    }
  }

  lemma SnapshotStays(cfg: Config, s: State, step: Step, after: State, t: nat)
    requires RunsOk(s.fs) && AllFacts(cfg, s) && Snapshots(s) && FilesChange(cfg, s, step, after.fs) && !step.Restarts?
    ensures HasSnapshot(s.fs, ThreadAt(s, t)) ==> HasSnapshot(after.fs, ThreadAt(s, t))
  {
    hide RunsOk, FilesChange, ExecutionAllowed, AllFacts;
    if ThreadAt(s, t).Checking? {
      FactsOf(cfg, s, t);
      InputKept(cfg, s, step, after.fs, s.threads[t].id);
    }
  }

  ghost predicate HasSnapshot(fs: Fs, th: Thread) {
    th.Checking? && Snapshot(fs, th.id, th.run)
  }

  lemma ClaimSnapshot(cfg: Config, s: State, step: Step, after: State)
    requires RunsOk(s.fs) && Next(cfg, s, step, after) && step.DoClaim? && ThreadAt(after, Actor(step)).Checking?
    ensures HasSnapshot(after.fs, ThreadAt(after, Actor(step)))
    ensures RunAt(after.fs, RunOf(ThreadAt(after, Actor(step)))) == Claimed(ThreadAt(after, Actor(step)))
  {
    hide StoreInv, BeginNext, EndNext, QueueNext, CancelNext, SubmitNext, Mutate, SameInput;
    var id, m := s.threads[step.t].id, Claim(step.now);
    UpdateEffect(s.fs, id, m, step.fault);
    UpdateKeeps(s.fs, id, m, step.fault);
    MutateStatus(m, RunAt(s.fs, id).value);
    RunHasId(after.fs, id);
    SameAsItself(RunAt(after.fs, id).value);
    hide UpdateRun;
  }

  /** The record a claim returned. */
  function Claimed(th: Thread): Option<Run> { if th.Checking? then Some(th.run) else None }

  lemma SameAsItself(r: Run)
    ensures SameInput(r, r)
  {
  }

  lemma RunHasId(fs: Fs, id: string)
    requires StoreInv(fs)
    ensures forall r :: RunAt(fs, id) == Some(r) ==> r.id == id
  {
    assert RunAt(fs, id).Some? ==> Candidate(fs, RunName(id), Some(RunFile(RunAt(fs, id).value)));
  }

  lemma OfferedKept(cfg: Config, s: State, step: Step, after: State)
    requires Inv(cfg, s) && Next(cfg, s, step, after)
    ensures Offered(after)
  {
    hide RunsOk, Locks, OneOwner, AllFacts, CancelsRegistered, LaunchedStarted, Tokens, Quiet, Snapshots,
         FilesChange, Next, LaunchRule;
    StepEffect(cfg, s, step, after);
    if step.TickList? || step.TickSend? {
      TickOffers(cfg, s, step, after);
    } else {
      forall r | r in after.offers ensures TermsAt(after.fs, r.id) == Some(r.terms) {
        InputKept(cfg, s, step, after.fs, r.id);
      }
    }
  }

  lemma TickOnly(cfg: Config, s: State, step: Step, after: State)
    requires Next(cfg, s, step, after) && (step.TickList? || step.TickSend?)
    ensures TickNext(cfg, s, step, after)
  {
    hide ClaimNext, BeginNext, QueueNext, CancelNext, SubmitNext, TickNext, UpdateRun, CreateRun, Restart,
         InStatus, AllQueued, WriteFault, ThreadAt, RunAt, Sync;
  }

  lemma TickOffers(cfg: Config, s: State, step: Step, after: State)
    requires Offered(s) && Next(cfg, s, step, after) && (step.TickList? || step.TickSend?)
    ensures Offered(after)
  {
    hide Next;
    TickOnly(cfg, s, step, after);
    assert forall id :: RunAt(Sync(s.fs, RunsDir), id) == RunAt(s.fs, id);
  }

  /** Only a worker's finish makes a run succeed. */
  lemma GoodNeedsFinish(m: Mutation, r: Run, after: Run)
    requires Mutate(m, r) == Ok(after) && Good(after.status) && !m.Finish?
    ensures after == r
  {
    hide Mutate;
    MutateStatus(m, r);
  }

  /** A version of a run that is new after a step was created, or written by the step's update. */
  lemma NewVersion(cfg: Config, s: State, step: Step, fs: Fs, id: string, r: Run)
    requires FilesChange(cfg, s, step, fs) && HasRun(fs, id, r) && !HasRun(s.fs, id, r)
    ensures (step.CreateCall? && Enters(r)) || WrittenBy(cfg, s, step, id, r)
  {
    hide StepUpdate, UpdateRun, CreateRun, History;
    if StepUpdate(cfg, s, step).Some? {
      var u := StepUpdate(cfg, s, step).value;
      UpdatedOnly(s.fs, u.0, u.1, u.2, id, r);
    } else if step.CreateCall? {
      CreatedOnly(s.fs, step.run, step.fault, id, r);
    }
  }

  ghost predicate WrittenBy(cfg: Config, s: State, step: Step, id: string, r: Run) {
    match StepUpdate(cfg, s, step)
    case Some(u) => u.0 == id && RunAt(s.fs, id).Some? && Mutate(u.1, RunAt(s.fs, id).value) == Ok(r)
    case None => false
  }

  lemma CreatedOnly(fs: Fs, run: Run, fault: Fault, id: string, r: Run)
    requires HasRun(CreateRun(fs, run, fault).0, id, r)
    ensures HasRun(fs, id, r) || r == run
  {
    hide KeyUsed;
  }

  lemma UpdatedOnly(fs: Fs, x: string, m: Mutation, fault: Fault, id: string, r: Run)
    requires HasRun(UpdateRun(fs, x, m, fault).0, id, r) && !HasRun(fs, id, r)
    ensures id == x && WrittenAs(m, RunAt(fs, x), r)
  {
    hide Mutate;
  }

  predicate WrittenAs(m: Mutation, was: Option<Run>, r: Run) {
    was.Some? && Mutate(m, was.value) == Ok(r)
  }

  /** A finish is the update of a worker whose executor has returned, on a running run, with what it concluded. */
  lemma FinishComesFromWorker(cfg: Config, s: State, step: Step)
    requires AllFacts(cfg, s)
    ensures forall u :: StepUpdate(cfg, s, step) == Some(u) && u.1.Finish? ==> FinishFits(s, step, u.0, u.1)
  {
    hide AllFacts;
    FactsOf(cfg, s, Actor(step));
  }

  predicate FinishFits(s: State, step: Step, id: string, m: Mutation) {
    var th := ThreadAt(s, Actor(step));
    && step.DoFinish? && th.Finishing? && th.id == id && StatusAt(s.fs, id) == Some(Running)
    && m.Finish? && m.outcome == th.outcome.result && m.err == th.outcome.err && m.errText == th.outcome.errText
  }

  /** The write of the end of a run that its worker concluded well stores exactly what was concluded. */
  ghost predicate Concluded(s: State, step: Step, id: string, o: Outcome, r: Run) {
    && step.DoFinish? && ThreadAt(s, Actor(step)) == Finishing(id, o)
    && o.err == NoError && o.result.status == r.status && r.result == Some(BoundResult(o.result.result))
    && TermsAt(s.fs, id) == Some(r.terms)
  }

  /** A run that is newly stored as succeeded or partial has the result its worker concluded. */
  lemma NewConclusion(cfg: Config, s: State, step: Step, after: State, id: string, r: Run) returns (o: Outcome)
    requires Inv(cfg, s) && Next(cfg, s, step, after) && HasRun(after.fs, id, r) && !HasRun(s.fs, id, r)
    requires Good(r.status)
    ensures Concluded(s, step, id, o, r)
  {
    hide RunsOk, Locks, OneOwner, AllFacts, CancelsRegistered, LaunchedStarted, Tokens, Quiet, Snapshots,
         Offered, FilesChange, Mutate, StepUpdate, FinalStatus, FinalResult, BoundResult, Next, LaunchRule,
         NothingNew;
    StepEffect(cfg, s, step, after);
    NewVersion(cfg, s, step, after.fs, id, r);
    var m := StepUpdate(cfg, s, step).value.1;
    var current := RunAt(s.fs, id).value;
    assert HasRun(s.fs, id, current);
    if m.Finish? {
      FinishComesFromWorker(cfg, s, step);
      FinishStores(m, current);
      MutateFrame(m, current);
      o := ThreadAt(s, Actor(step)).outcome;
    } else {
      GoodNeedsFinish(m, current, r);
    }
  }

  /** Every step, of any thread, with any fault, or a restart, keeps the invariant. */
  lemma NextKeeps(cfg: Config, s: State, step: Step, after: State)
    requires Inv(cfg, s) && Next(cfg, s, step, after)
    ensures Inv(cfg, after)
  {
    hide Core, Snapshots, Offered, WorkerNext, CallerNext, StartNext;
    if WorkerNext(cfg, s, step, after) {
      WorkerKeeps(cfg, s, step, after);
    } else if CallerNext(cfg, s, step, after) {
      CallerKeeps(cfg, s, step, after);
    } else {
      StartKeeps(cfg, s, step, after);
    }
    SnapshotsKept(cfg, s, step, after);
    OfferedKept(cfg, s, step, after);
  }

  lemma InitInv(cfg: Config)
    ensures Inv(cfg, Fresh(cfg, EMPTY, map[]))
  {
  }

  // ---- Runs of the system ----

  ghost predicate Trace(cfg: Config, states: seq<State>, steps: seq<Step>) {
    && |states| == |steps| + 1
    && states[0] == Fresh(cfg, EMPTY, map[])
    && forall i :: 0 <= i < |steps| ==> Next(cfg, states[i], steps[i], states[i + 1])
  }

  /** What a run of the system visited before its last step. */
  lemma Shorter(cfg: Config, states: seq<State>, steps: seq<Step>)
    requires Trace(cfg, states, steps) && steps != []
    ensures Trace(cfg, states[..|steps|], steps[..|steps| - 1])
    ensures Next(cfg, states[|steps| - 1], steps[|steps| - 1], states[|steps|])
  {
    hide Next;
    var n := |steps| - 1;
    forall i | 0 <= i < n ensures Next(cfg, states[..n + 1][i], steps[..n][i], states[..n + 1][i + 1]) {
      assert Next(cfg, states[i], steps[i], states[i + 1]);
    }
    assert Next(cfg, states[n], steps[n], states[n + 1]);
  }

  /** The invariant holds in every state of every run. */
  lemma {:induction false} Reachable(cfg: Config, states: seq<State>, steps: seq<Step>)
    requires Trace(cfg, states, steps)
    ensures forall s :: s in states ==> Inv(cfg, s)
    decreases |steps|
  {
    hide Inv, Next;
    if steps == [] {
      InitInv(cfg);
    } else {
      var n := |steps|;
      Shorter(cfg, states, steps);
      Reachable(cfg, states[..n], steps[..n - 1]);
      assert states[n - 1] in states[..n];
      NextKeeps(cfg, states[n - 1], steps[n - 1], states[n]);
      assert states == states[..n] + [states[n]];
    }
  }

  ghost predicate LaunchKept(s: State, step: Step, after: State) {
    && (forall id :: id in s.launches ==> id in after.launches && after.launches[id] == s.launches[id])
    && (LaunchedRun(s, step).Some? ==>
        LaunchedRun(s, step).value !in s.launches && LaunchedRun(s, step).value in after.launches)
  }

  /** A launch hands over a run never launched before, and records it. */
  lemma LaunchRecorded(cfg: Config, s: State, step: Step, after: State)
    requires Inv(cfg, s) && Next(cfg, s, step, after)
    ensures LaunchKept(s, step, after)
  {
    hide RunsOk, Locks, OneOwner, AllFacts, Tokens, Quiet, CancelsRegistered, LaunchedStarted, Next,
         DurablyRunning, ExecutionAllowed, Snapshots, Offered, FilesChange, NothingNew;
    StepEffect(cfg, s, step, after);
    FactsOf(cfg, s, Actor(step));
  }

  lemma {:induction false} LaunchesGrow(cfg: Config, states: seq<State>, steps: seq<Step>, i: nat, j: nat, id: string)
    requires Trace(cfg, states, steps) && i <= j < |states| && id in states[i].launches
    ensures id in states[j].launches
    decreases j - i
  {
    hide Next, Inv;
    if i < j {
      LaunchesGrow(cfg, states, steps, i, j - 1, id);
      Reachable(cfg, states, steps);
      assert Next(cfg, states[j - 1], steps[j - 1], states[j - 1 + 1]);
      LaunchRecorded(cfg, states[j - 1], steps[j - 1], states[j]);
    }
  }

  /** At most once over its whole life, across duplicate queue entries, several workers, failed
      writes and restarts, is a run handed to the executor. */
  lemma AtMostOneExecution(cfg: Config, states: seq<State>, steps: seq<Step>, i: nat, j: nat)
    requires Trace(cfg, states, steps) && i < j < |steps|
    requires LaunchedRun(states[i], steps[i]).Some?
    ensures LaunchedRun(states[j], steps[j]) != LaunchedRun(states[i], steps[i])
  {
    hide Inv;
    assert Next(cfg, states[i], steps[i], states[i + 1]);
    assert Next(cfg, states[j], steps[j], states[j + 1]);
    hide Next;
    Reachable(cfg, states, steps);
    LaunchRecorded(cfg, states[i], steps[i], states[i + 1]);
    LaunchRecorded(cfg, states[j], steps[j], states[j + 1]);
    LaunchesGrow(cfg, states, steps, i + 1, j, LaunchedRun(states[i], steps[i]).value);
  }

  /** Every run that was ever handed to the executor had the approval its agent, mode or policy demands. */
  lemma ExecutedRunsWereApproved(cfg: Config, states: seq<State>, steps: seq<Step>, s: State, id: string, run: Run)
    requires Trace(cfg, states, steps) && s in states && (id, run) in s.launches.Items
    ensures ExecutionAllowed(cfg, run)
    ensures (run.terms.agentId, run.terms.mode) in cfg.approvalModes || run.policy.activeValidation ==>
      match run.approval
      case Some(a) => !Blank(a.id) && !Blank(a.actor) && run.terms.scope.authorizationRef != ""
      case None => false
  {
    hide Next, RunsOk, Locks, OneOwner, AllFacts, CancelsRegistered, Tokens, Quiet, Snapshots, Offered;
    Reachable(cfg, states, steps);
  }

  predicate RegisteredFor(s: State, id: string, t: nat) {
    id in s.cancels && s.cancels[id] == t
  }

  /** As long as an executor works on a run, until its result is written, the run is running, it is
      registered under this very worker, and no other worker holds it: nothing else ends it first. */
  lemma ExecutorExclusion(cfg: Config, states: seq<State>, steps: seq<Step>, s: State, t: nat, id: string)
    requires Trace(cfg, states, steps) && s in states && Executes(ThreadAt(s, t)) && Owns(ThreadAt(s, t)) == Some(id)
    ensures StatusAt(s.fs, id) == Some(Running) && RegisteredFor(s, id, t)
    ensures forall u :: u != t ==> Owns(ThreadAt(s, u)) != Some(id)
  {
    hide Next, RunsOk, LaunchedStarted, Tokens, AllFacts, Snapshots, Offered;
    Reachable(cfg, states, steps);
    FactsOf(cfg, s, t);
    var u := s.cancels[id];
    assert Owns(s.threads[u]) == Some(id) && Owns(s.threads[t]) == Some(id);
  }

  /** Only runs with a live executor are registered: a cancellation never reaches a run whose executor is gone. */
  lemma RegistrationsAreLive(cfg: Config, states: seq<State>, steps: seq<Step>, s: State, id: string, t: nat)
    requires Trace(cfg, states, steps) && s in states && RegisteredFor(s, id, t)
    ensures Registration(ThreadAt(s, t)) == Some(id)
  {
    hide Next, RunsOk, LaunchedStarted, Tokens, OneOwner, AllFacts, Locks, Snapshots, Offered;
    Reachable(cfg, states, steps);
  }

  // ---- After a run has ended ----

  /** The end of a run is on disk for good. */
  ghost predicate EndedAt(fs: Fs, r: Run) {
    r.status.Terminal() && RunAt(fs, r.id) == Some(r) && Settled(fs, RunName(r.id), RunFile(r))
  }

  lemma UpdateKeepsEnd(fs: Fs, id: string, m: Mutation, fault: Fault, r: Run)
    requires RunsOk(fs) && EndedAt(fs, r)
    ensures EndedAt(UpdateRun(fs, id, m, fault).0, r)
  {
    hide StoreInv, Mutate;
    UpdateEffect(fs, id, m, fault);
    if id == r.id {
      NoEffect(fs, id, m, fault);
    }
    hide UpdateRun;
    var after := UpdateRun(fs, id, m, fault).0;
    assert forall v :: Candidate(after, RunName(r.id), v) ==> Candidate(fs, RunName(r.id), v);
  }

  lemma GentleKeepsEnd(fs: Fs, after: Fs, r: Run)
    requires EndedAt(fs, r) && Gentle(fs, after, r.id)
    ensures EndedAt(after, r)
  {
  }

  lemma StepKeepsEnd(cfg: Config, s: State, step: Step, after: State, r: Run)
    requires Inv(cfg, s) && Next(cfg, s, step, after) && EndedAt(s.fs, r)
    ensures EndedAt(after.fs, r)
  {
    hide Next, Locks, OneOwner, AllFacts, CancelsRegistered, LaunchedStarted, Tokens, Quiet, RunsOk, UpdateRun,
         CreateRun, StepUpdate, History, Candidate, EndedAt, Sync, RunAt, Restart, RunsUntouched, GentleBut, Gentle,
         NothingNew, LaunchRule;
    StepEffect(cfg, s, step, after);
    SyncUntouched(s.fs, RunsDir);
    if StepUpdate(cfg, s, step).Some? {
      var u := StepUpdate(cfg, s, step).value;
      UpdateKeepsEnd(s.fs, u.0, u.1, u.2, r);
    } else if step.CreateCall? {
      CreateKeepsEnd(s.fs, step.run, step.fault, r);
    } else if step.Restarts? {
      RestartKeepsEnd(s.fs, after.fs, r);
    } else {
      UntouchedEffect(s.fs, after.fs);
      GentleKeepsEnd(s.fs, after.fs, r);
    }
  }

  lemma RestartKeepsEnd(fs: Fs, after: Fs, r: Run)
    requires EndedAt(fs, r) && Restart(fs, after)
    ensures EndedAt(after, r)
  {
    SafeSurvives(fs, after, RunName(r.id), RunFile(r));
    assert Candidate(after, RunName(r.id), Lookup(after, RunName(r.id)));
  }

  lemma CreateKeepsEnd(fs: Fs, run: Run, fault: Fault, r: Run)
    requires RunsOk(fs) && Enters(run) && EndedAt(fs, r)
    ensures EndedAt(CreateRun(fs, run, fault).0, r)
  {
    hide StoreInv, History, CreateRun;
    CreateEffect(fs, run, fault);
    assert Gentle(fs, CreateRun(fs, run, fault).0, r.id);
  }

  lemma EndedNotLaunched(cfg: Config, s: State, step: Step, r: Run)
    requires AllFacts(cfg, s) && EndedAt(s.fs, r)
    ensures LaunchedRun(s, step) != Some(r.id)
  {
    hide AllFacts, ExecutionAllowed;
    if LaunchedRun(s, step).Some? {
      FactsOf(cfg, s, step.t);
      assert HasRun(s.fs, r.id, r);
    }
  }

  /** Once a run has ended on disk, as it has when CancelRun returns it cancelled, its record never
      changes again, across restarts, and no execution of it starts. */
  lemma {:induction false} EndIsFinal(cfg: Config, states: seq<State>, steps: seq<Step>, i: nat, j: nat, r: Run)
    requires Trace(cfg, states, steps) && i <= j < |states| && EndedAt(states[i].fs, r)
    ensures EndedAt(states[j].fs, r)
    ensures j < |steps| ==> LaunchedRun(states[j], steps[j]) != Some(r.id)
    decreases j - i
  {
    hide Next, Snapshots, Offered, EndedAt, RunsOk, Locks, OneOwner, AllFacts, Tokens, Quiet, CancelsRegistered,
         LaunchedStarted;
    Reachable(cfg, states, steps);
    assert states[j] in states;
    if i < j {
      assert states[j - 1] in states;
      EndIsFinal(cfg, states, steps, i, j - 1, r);
      Reachable(cfg, states, steps);
      assert Next(cfg, states[j - 1], steps[j - 1], states[j - 1 + 1]);
      StepKeepsEnd(cfg, states[j - 1], steps[j - 1], states[j], r);
    }
    if j < |steps| {
      EndedNotLaunched(cfg, states[j], steps[j], r);
    }
  }

  /** An answered update that ended the run ended it on disk: in particular a cancellation CancelRun returns. */
  lemma AnsweredEnd(cfg: Config, s: State, step: Step, after: State, id: string, m: Mutation, fault: Fault, answer: Run)
    requires Inv(cfg, s) && Next(cfg, s, step, after) && StepUpdate(cfg, s, step) == Some((id, m, fault))
    requires UpdateRun(s.fs, id, m, fault).1 == Ok(answer) && answer.status.Terminal()
    ensures EndedAt(after.fs, answer)
  {
    hide Next, Locks, OneOwner, AllFacts, CancelsRegistered, LaunchedStarted, Tokens, Quiet, Mutate, Snapshots,
         Offered, StepUpdate, LaunchRule, NothingNew, History;
    StepEffect(cfg, s, step, after);
    UpdateEffect(s.fs, id, m, fault);
    RunHasId(after.fs, id);
    hide UpdateRun;
  }

  /** Where the disk works, the end of an execution is stored, and then for good, if and only if the raw output of
      what was concluded is empty or JSON text; otherwise the run stays as it is, running. */
  lemma EndIsStored(cfg: Config, s: State, t: nat, now: int, after: State, id: string, o: Outcome)
    requires Inv(cfg, s) && Next(cfg, s, DoFinish(t, now, NoFault), after) && ThreadAt(s, t) == Finishing(id, o)
    ensures Encodes(cfg.isJson, o.result.result) <==> exists r: Run :: r.id == id && EndedAt(after.fs, r)
    ensures Encodes(cfg.isJson, o.result.result) || (after.fs == s.fs && StatusAt(s.fs, id) == Some(Running))
  {
    hide Next, Core, Snapshots, Offered, LaunchRule, NothingNew, Encodes, UpdateRun, EndedAt;
    var step, m := DoFinish(t, now, NoFault), Finish(cfg.executor, o.result, o.err, o.errText, now);
    StepEffect(cfg, s, step, after);
    FinishingRuns(cfg, s, t, id, o);
    if Encodes(cfg.isJson, o.result.result) {
      var answer := EndAnswer(s.fs, id, m);
      AnsweredEnd(cfg, s, step, after, id, m, NoFault, answer);
    } else {
      NotWritten(s.fs, id, m);
    }
  }

  lemma FinishingRuns(cfg: Config, s: State, t: nat, id: string, o: Outcome)
    requires Core(cfg, s) && ThreadAt(s, t) == Finishing(id, o)
    ensures RunsOk(s.fs) && StatusAt(s.fs, id) == Some(Running)
  {
    hide RunsOk, Locks, OneOwner, CancelsRegistered, LaunchedStarted, Tokens, Quiet, AllFacts;
    FactsOf(cfg, s, t);
  }

  lemma EndAnswer(fs: Fs, id: string, m: Mutation) returns (answer: Run)
    requires RunsOk(fs) && StatusAt(fs, id) == Some(Running) && m.Finish?
    ensures UpdateRun(fs, id, m, NoFault).1 == Ok(answer) && answer.id == id && answer.status.Terminal()
  {
    hide Mutate, History, FinalResult, BoundResult;
    var run := RunAt(fs, id).value;
    FinishStores(m, run);
    MutateFrame(m, run);
    RunHasId(fs, id);
    answer := Mutate(m, run).value;
  }

  lemma NotWritten(fs: Fs, id: string, m: Mutation)
    requires StatusAt(fs, id) == Some(Running)
    ensures UpdateRun(fs, id, m, FailEarly).0 == fs && forall r: Run :: r.id == id ==> !EndedAt(fs, r)
  {
    hide Mutate;
  }

  // ---- The event log ----

  /** In every reachable state every run file, and every version it might revert to, has a log numbered
      1..n whose changes follow allowed edges to its status, with at most four of them, the approval
      coming right before the run leaves waiting_approval. */
  lemma EventLogIsFaithful(cfg: Config, states: seq<State>, steps: seq<Step>, s: State, id: string, r: Run)
    requires Trace(cfg, states, steps) && s in states && HasRun(s.fs, id, r)
    ensures History(r) && FewChanges(r)
  {
    hide Next, Locks, OneOwner, AllFacts, CancelsRegistered, LaunchedStarted, Tokens, Quiet, EventFollows,
         Snapshots, Offered;
    Reachable(cfg, states, steps);
  }

  ghost predicate FewChanges(r: Run) {
    Changes(r.events, |r.events|) <= 4
  }

  ghost predicate LogStays(fs: Fs, after: Fs, id: string) {
    match RunAt(fs, id)
    case None => true
    case Some(r) => RunAt(after, id).Some? && r.events <= RunAt(after, id).value.events
  }

  lemma UpdateLog(fs: Fs, x: string, m: Mutation, fault: Fault, id: string)
    requires RunsOk(fs)
    ensures LogStays(fs, UpdateRun(fs, x, m, fault).0, id)
  {
    hide History, Mutate;
    UpdateEffect(fs, x, m, fault);
    if RunAt(fs, id).Some? {
      var r := RunAt(fs, id).value;
      assert HasRun(fs, id, r);
      if x == id && Mutate(m, r).Ok? {
        MutateHistory(m, r);
      }
    }
    hide UpdateRun;
  }

  /** Between restarts logs only grow. */
  lemma EventLogGrows(cfg: Config, s: State, step: Step, after: State, id: string)
    requires Inv(cfg, s) && Next(cfg, s, step, after) && !step.Restarts?
    ensures LogStays(s.fs, after.fs, id)
  {
    hide Next, Locks, OneOwner, AllFacts, CancelsRegistered, LaunchedStarted, Tokens, Quiet, RunsOk, Snapshots,
         Offered, History, UpdateRun, CreateRun, StepUpdate, Restart, LaunchRule, NothingNew, Candidate;
    StepEffect(cfg, s, step, after);
    if StepUpdate(cfg, s, step).Some? {
      var u := StepUpdate(cfg, s, step).value;
      UpdateLog(s.fs, u.0, u.1, u.2, id);
    } else if step.CreateCall? {
      CreateEffect(s.fs, step.run, step.fault);
    }
  }
}
