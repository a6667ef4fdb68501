/** Concrete runs of the service at whose end a running run is registered for no worker. */
module RunServiceWitnesses {
  import opened Prelude
  import opened Domain
  import opened Runs
  import opened RunUpdates
  import opened Disk
  import opened RunFiles
  import opened Utf8
  import opened RunService
  import opened RunServiceSteps
  import opened RunServiceTheorems

  datatype Story = Story(states: seq<State>, steps: seq<Step>)

  /** A run of the system that ends in this state. */
  ghost predicate Leads(cfg: Config, h: Story, last: State) {
    Trace(cfg, h.states, h.steps) && h.states[|h.steps|] == last
  }

  /** No store operation on the way fails. */
  ghost predicate Faultless(h: Story) {
    forall step :: step in h.steps ==> Reliable(step)
  }

  lemma Then(cfg: Config, h: Story, s: State, step: Step, after: State) returns (longer: Story)
    requires Leads(cfg, h, s) && Next(cfg, s, step, after)
    ensures Leads(cfg, longer, after) && (Faultless(h) && Reliable(step) ==> Faultless(longer))
  {
    hide Next, Reliable;
    longer := Story(h.states + [after], h.steps + [step]);
    forall i | 0 <= i < |longer.steps| ensures Next(cfg, longer.states[i], longer.steps[i], longer.states[i + 1]) {
      assert i < |h.steps| ==> Next(cfg, h.states[i], h.steps[i], h.states[i + 1]);
    }
  }

  // ---- One worker, one run ----

  const WORKER: nat := 0
  const CALLER: nat := 1

  function Small(judge: Judge, isJson: Bytes -> bool): Config {
    Config({WORKER}, 1, "runtime", {}, judge, isJson)
  }

  ghost function Booting(boot: Boot): State {
    State(EMPTY, [], map[], None, None, map[WORKER := Idle], boot, map[], [])
  }

  const TERMS := Terms(
    "request", "agent", "automatic", None, "", "", "mode", Scope("tenant", "", [], [], [], None), Output("", []),
        map[], 1)
  const QUEUED_RUN := NewRun("run", TERMS, [], Policy("", false, "", 0, ""), Queued)

  lemma NothingToSync()
    ensures Sync(EMPTY, RunsDir) == EMPTY
  {
    assert Sync(EMPTY, RunsDir).past == {};
  }

  lemma Boots(cfg: Config) returns (h: Story)
    requires cfg.workers == {WORKER}
    ensures Leads(cfg, h, Booting(Up)) && Faultless(h)
  {
    hide Leads, Faultless, WorkerNext, CallerNext;
    NothingToSync();
    h := Begins(cfg);
    assert Fresh(cfg, EMPTY, map[]) == Booting(CheckFrozenQueue);
    h := Then(cfg, h, Booting(CheckFrozenQueue), BootCheck(true), Booting(ListValidating));
    h := Then(cfg, h, Booting(ListValidating), BootList(true), Booting(FailValidating({})));
    h := Then(cfg, h, Booting(FailValidating({})), BootNext, Booting(ListRunning));
    h := Then(cfg, h, Booting(ListRunning), BootList(true), Booting(FailRunning({})));
    h := Then(cfg, h, Booting(FailRunning({})), BootNext, Booting(ListQueued));
    h := Then(cfg, h, Booting(ListQueued), BootList(true), Booting(Offering([])));
    h := Then(cfg, h, Booting(Offering([])), BootNext, Booting(Up));
  }

  lemma Begins(cfg: Config) returns (h: Story)
    ensures Leads(cfg, h, Fresh(cfg, EMPTY, map[])) && Faultless(h)
  {
    h := Story([Fresh(cfg, EMPTY, map[])], []);
  }

  /** The only run on a disk, alone and synced. */
  function Holding(r: Run): Fs { PutRun(EMPTY, "run", r, NoFault) }

  lemma Rewritten(r: Run, m: Mutation, next: Run)
    requires Mutate(m, r) == Ok(next)
    ensures UpdateRun(Holding(r), "run", m, NoFault) == (Holding(next), Ok(next))
    ensures RunAt(Holding(r), "run") == Some(r)
  {
    hide Mutate;
    assert Holding(next).past == PutRun(Holding(r), "run", next, NoFault).past;
    assert Holding(next).visible == PutRun(Holding(r), "run", next, NoFault).visible;
  }

  function Claimed(): Run {
    Moved(QUEUED_RUN, Validating, "worker started deterministic validation", "worker", 2).value
  }

  function Begun(): Run { Moved(Claimed(), Running, "executor invocation started", "runtime", 3).value }

  ghost function Working(r: Run, th: Thread): State {
    State(Holding(r), [], map[], None, None, map[WORKER := th], Up, map[], [])
  }

  /** The same with the worker holding the lock that keeps cancellations out. */
  ghost function Locked(r: Run, th: Thread): State {
    Working(r, th).(cancelMu := Some(WORKER))
  }

  ghost function Calling(): State {
    Working(QUEUED_RUN, Idle).(threads := map[WORKER := Idle, CALLER := Enqueuing("run")])
  }

  ghost function Waiting(): State {
    Working(QUEUED_RUN, Idle).(queue := ["run"])
  }

  lemma FirstRun()
    ensures History(QUEUED_RUN) && CreateRun(EMPTY, QUEUED_RUN, NoFault) == (Holding(QUEUED_RUN), Ok(()))
  {
    NewRunHistory("run", TERMS, [], Policy("", false, "", 0, ""), Queued);
    hide History, PutRun;
    assert RunAt(EMPTY, "run").None? && !KeyUsed(EMPTY, KeyOf(QUEUED_RUN));
  }

  /** The run is created and put into the queue. */
  lemma Queues(cfg: Config)
    requires cfg.capacity == 1
    ensures Next(cfg, Booting(Up), CreateCall(CALLER, QUEUED_RUN, NoFault), Calling())
    ensures Next(cfg, Calling(), Enqueue(CALLER, true), Waiting())
  {
    hide History, CreateRun, PutRun, WorkerNext, StartNext, CancelNext, SubmitNext, TickNext;
    FirstRun();
    assert map[WORKER := Idle, CALLER := Enqueuing("run")] - {CALLER} == map[WORKER := Idle];
  }

  /** The worker takes and claims it, */
  lemma TakesUp(cfg: Config)
    ensures Next(cfg, Waiting(), Take(WORKER), Working(QUEUED_RUN, Claiming("run")))
    ensures Next(cfg, Working(QUEUED_RUN, Claiming("run")), DoClaim(WORKER, 2, NoFault),
                 Working(Claimed(), Checking("run", Claimed())))
  {
    hide PutRun, UpdateRun, Claimed, Mutate, RunAt, CallerNext, StartNext, EndNext, BeginNext;
    Kept();
  }

  /** finds no approval missing and locks out cancellations. */
  lemma Checks(cfg: Config)
    requires cfg.approvalModes == {}
    ensures Next(cfg, Working(Claimed(), Checking("run", Claimed())), CheckPass(WORKER),
                 Working(Claimed(), WantBegin("run")))
    ensures Next(cfg, Working(Claimed(), WantBegin("run")), LockBegin(WORKER), Locked(Claimed(), Beginning("run")))
  {
    hide PutRun, UpdateRun, Claimed, Mutate, RunAt, CallerNext, StartNext, EndNext;
    Kept();
  }

  /** The run is created, queued, taken and claimed, and its worker is about to begin it. */
  lemma ReachesBegin(cfg: Config) returns (h: Story)
    requires cfg.workers == {WORKER} && cfg.capacity == 1 && cfg.approvalModes == {}
    ensures Leads(cfg, h, Locked(Claimed(), Beginning("run"))) && Faultless(h)
  {
    hide Leads, Faultless, Next, Working, Claimed, PutRun, Booting;
    h := Boots(cfg);
    Queues(cfg);
    TakesUp(cfg);
    Checks(cfg);
    h := Then(cfg, h, Booting(Up), CreateCall(CALLER, QUEUED_RUN, NoFault), Calling());
    h := Then(cfg, h, Calling(), Enqueue(CALLER, true), Waiting());
    h := Then(cfg, h, Waiting(), Take(WORKER), Working(QUEUED_RUN, Claiming("run")));
    h := Then(cfg, h, Working(QUEUED_RUN, Claiming("run")), DoClaim(WORKER, 2, NoFault),
              Working(Claimed(), Checking("run", Claimed())));
    h := Then(cfg, h, Working(Claimed(), Checking("run", Claimed())), CheckPass(WORKER),
              Working(Claimed(), WantBegin("run")));
    h := Then(cfg, h, Working(Claimed(), WantBegin("run")), LockBegin(WORKER), Locked(Claimed(), Beginning("run")));
  }

  /** A running run that no worker holds and no cancellation interrupts. */
  ghost predicate Stray(s: State, id: string) {
    && s.boot.Up? && StatusAt(s.fs, id) == Some(Running) && s.cancels == map[]
    && (forall t :: t in s.threads ==> s.threads[t] == Idle)
  }

  // ---- The three ways ----

  /** The begin is published, the sync after it fails, and the worker gives up. */
  lemma StrayAfterBegin(judge: Judge, isJson: Bytes -> bool) returns (h: Story, last: State)
    ensures Leads(Small(judge, isJson), h, last) && Stray(last, "run")
  {
    hide Leads, Faultless, Next, PutRun, Claimed, Begun;
    var cfg := Small(judge, isJson);
    h := ReachesBegin(cfg);
    var fs := PutRun(Holding(Claimed()), "run", Begun(), FailSync);
    FailsToBegin(cfg, fs);
    h := Then(cfg, h, Locked(Claimed(), Beginning("run")), DoBegin(WORKER, 3, FailSync),
              Locked(Claimed(), Releasing).(fs := fs));
    last := Working(Claimed(), Idle).(fs := fs);
    h := Then(cfg, h, Locked(Claimed(), Releasing).(fs := fs), Release(WORKER), last);
    Published(fs);
  }

  lemma Published(fs: Fs)
    requires fs == PutRun(Holding(Claimed()), "run", Begun(), FailSync)
    ensures StatusAt(fs, "run") == Some(Running)
  {
  }

  lemma FailsToBegin(cfg: Config, fs: Fs)
    requires cfg.executor == "runtime" && fs == PutRun(Holding(Claimed()), "run", Begun(), FailSync)
    ensures Next(cfg, Locked(Claimed(), Beginning("run")), DoBegin(WORKER, 3, FailSync),
                 Locked(Claimed(), Releasing).(fs := fs))
    ensures Next(cfg, Locked(Claimed(), Releasing).(fs := fs), Release(WORKER), Working(Claimed(), Idle).(fs := fs))
  {
    hide PutRun, UpdateRun, Begun, Claimed, Mutate, RunAt, CallerNext, StartNext, ClaimNext, EndNext;
    Kept();
  }

  const STOPPED := Outcome(ExecutionResult(Failed, NO_RESULT), OtherError, "executor stopped")

  ghost function AtWork(th: Thread): State {
    Working(Begun(), th).(cancels := map["run" := WORKER], launches := map["run" := Begun()])
  }

  ghost function Ending(th: Thread): State {
    AtWork(th).(cancelMu := Some(WORKER))
  }

  /** The executor runs and is stopped, the write of the end fails before its rename, and the worker deregisters
      the run. */
  lemma StrayAfterFinish(judge: Judge, isJson: Bytes -> bool) returns (h: Story, last: State)
    requires judge("agent", Judgement(STOPPED.result, OtherError, Err(IoError), STOPPED.result))
    ensures Leads(Small(judge, isJson), h, last) && Stray(last, "run")
  {
    h, last := StrayEnd(judge, isJson, STOPPED, Err(IoError), STOPPED.result, FailEarly);
  }

  /** The worker concludes with raw output that is not JSON text: no store operation fails, and yet the end is not
      stored. */
  lemma StrayWithoutFault(judge: Judge, isJson: Bytes -> bool, given: ExecutionResult,
                          records: Result<seq<EvidenceRef>, Error>,
                          result: ExecutionResult)
    returns (h: Story, last: State)
    requires judge("agent", Judgement(given, NoError, records, result)) && !Encodes(isJson, result.result)
    ensures Leads(Small(judge, isJson), h, last) && Stray(last, "run") && Faultless(h)
  {
    h, last := StrayEnd(judge, isJson, Outcome(given, NoError, ""), records, result, NoFault);
  }

  lemma StrayEnd(judge: Judge, isJson: Bytes -> bool, given: Outcome, records: Result<seq<EvidenceRef>, Error>,
                 result: ExecutionResult, fault: Fault)
    returns (h: Story, last: State)
    requires judge("agent", Judgement(given.result, given.err, records, result))
    requires WriteFault(Small(judge, isJson), given.(result := result), fault) == FailEarly
    ensures Leads(Small(judge, isJson), h, last) && Stray(last, "run") && (fault == NoFault ==> Faultless(h))
  {
    hide Leads, Faultless, Next, Stray, AtWork, Ending, WriteFault;
    var cfg := Small(judge, isJson);
    var o := given.(result := result);
    h := ReachesReturn(cfg, given);
    Concludes(cfg, given, records, o);
    EndsIt(cfg, o, fault);
    h := Then(cfg, h, AtWork(Concluding("run", given)), Conclude(WORKER, records, result),
              AtWork(WantFinish("run", o)));
    h := Then(cfg, h, AtWork(WantFinish("run", o)), LockFinish(WORKER), Ending(Finishing("run", o)));
    h := Then(cfg, h, Ending(Finishing("run", o)), DoFinish(WORKER, 4, fault), Ending(Deregistering("run")));
    last := AtWork(Idle).(cancels := map[]);
    h := Then(cfg, h, Ending(Deregistering("run")), Deregister(WORKER), last);
    LeftStray(last);
  }

  lemma LeftStray(s: State)
    requires s == AtWork(Idle).(cancels := map[])
    ensures Stray(s, "run")
  {
    hide Begun, Holding;
    Kept();
  }

  lemma ReachesReturn(cfg: Config, given: Outcome) returns (h: Story)
    requires cfg.workers == {WORKER} && cfg.capacity == 1 && cfg.approvalModes == {} && cfg.executor == "runtime"
    ensures Leads(cfg, h, AtWork(Concluding("run", given))) && Faultless(h)
  {
    hide Leads, Faultless, Next, Begun, Claimed, Working, Locked, AtWork, RegisteredNow;
    h := ReachesBegin(cfg);
    BeginsIt(cfg, given);
    h := Then(cfg, h, Locked(Claimed(), Beginning("run")), DoBegin(WORKER, 3, NoFault),
              Locked(Begun(), Registering("run", Begun())));
    h := Then(cfg, h, Locked(Begun(), Registering("run", Begun())), Register(WORKER), RegisteredNow());
    h := Then(cfg, h, RegisteredNow(), Launch(WORKER), AtWork(Executing("run")));
    h := Then(cfg, h, AtWork(Executing("run")), ExecutorReturns(WORKER, given), AtWork(Concluding("run", given)));
  }

  ghost function RegisteredNow(): State {
    Locked(Begun(), Registered("run", Begun())).(cancels := map["run" := WORKER])
  }

  lemma BeginsIt(cfg: Config, o: Outcome)
    requires cfg.executor == "runtime"
    ensures Next(cfg, Locked(Claimed(), Beginning("run")), DoBegin(WORKER, 3, NoFault),
                 Locked(Begun(), Registering("run", Begun())))
    ensures Next(cfg, Locked(Begun(), Registering("run", Begun())), Register(WORKER), RegisteredNow())
    ensures Next(cfg, RegisteredNow(), Launch(WORKER), AtWork(Executing("run")))
    ensures Next(cfg, AtWork(Executing("run")), ExecutorReturns(WORKER, o), AtWork(Concluding("run", o)))
  {
    hide PutRun, UpdateRun, Begun, Claimed, Mutate, RunAt, CallerNext, StartNext, ClaimNext;
    Kept();
  }

  lemma Concludes(cfg: Config, given: Outcome, records: Result<seq<EvidenceRef>, Error>, o: Outcome)
    requires cfg.concludes("agent", Judgement(given.result, given.err, records, o.result))
    requires o == given.(result := o.result)
    ensures Next(cfg, AtWork(Concluding("run", given)), Conclude(WORKER, records, o.result),
                 AtWork(WantFinish("run", o)))
    ensures Next(cfg, AtWork(WantFinish("run", o)), LockFinish(WORKER), Ending(Finishing("run", o)))
  {
    hide PutRun, UpdateRun, Begun, Claimed, Holding, Mutate, RunAt, CallerNext, StartNext, ClaimNext, BeginNext,
         WriteFault;
    Kept();
  }

  lemma EndsIt(cfg: Config, o: Outcome, fault: Fault)
    requires WriteFault(cfg, o, fault) == FailEarly
    ensures Next(cfg, Ending(Finishing("run", o)), DoFinish(WORKER, 4, fault), Ending(Deregistering("run")))
    ensures Next(cfg, Ending(Deregistering("run")), Deregister(WORKER), AtWork(Idle).(cancels := map[]))
  {
    hide PutRun, UpdateRun, Begun, Claimed, Holding, Mutate, RunAt, CallerNext, StartNext, ClaimNext, BeginNext,
         WriteFault;
    EndFailsEarly(Finish(cfg.executor, o.result, o.err, o.errText, 4));
  }

  lemma EndFailsEarly(m: Mutation)
    ensures UpdateRun(Holding(Begun()), "run", m, FailEarly).0 == Holding(Begun())
  {
    hide Mutate;
  }

  lemma Kept()
    ensures UpdateRun(Holding(QUEUED_RUN), "run", Claim(2), NoFault) == (Holding(Claimed()), Ok(Claimed()))
    ensures RunAt(Holding(Claimed()), "run") == Some(Claimed()) && Claimed().status == Validating
    ensures Claimed().terms == TERMS
    ensures Claimed().policy == QUEUED_RUN.policy
    ensures RunAt(Holding(Begun()), "run") == Some(Begun()) && Begun().status == Running && Begun().terms == TERMS
    ensures UpdateRun(Holding(Claimed()), "run", Begin("runtime", 3), NoFault) == (Holding(Begun()), Ok(Begun()))
    ensures UpdateRun(Holding(Claimed()), "run", Begin("runtime", 3), FailSync) ==
            (PutRun(Holding(Claimed()), "run", Begun(), FailSync), Err(IoError))
  {
    Rewritten(QUEUED_RUN, Claim(2), Claimed());
    Rewritten(Claimed(), Begin("runtime", 3), Begun());
    Rewritten(Begun(), Begin("runtime", 3), Begun());
  }
}
