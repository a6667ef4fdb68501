/** Which running runs a cancellation can reach: all but those for which the write of their
    beginning or of their end was answered with an error since the last start. */
module RunServiceRegistrations {
  import opened Prelude
  import opened Domain
  import opened Runs
  import opened RunUpdates
  import opened Disk
  import opened RunFiles
  import opened RunService
  import opened RunServiceSteps
  import opened RunServiceTheorems

  /** The run whose beginning or end this step fails to write, an end also because its result cannot be encoded. */
  function FailedWrite(cfg: Config, s: State, step: Step): set<string> {
    var th := ThreadAt(s, Actor(step));
    match step
    case DoBegin(_, _, fault) => if th.Beginning? && !fault.NoFault? then {th.id} else {}
    case DoFinish(_, _, fault) => if th.Finishing? && !WriteFault(cfg, th.outcome, fault).NoFault? then {th.id} else {}
    case _ => {}
  }

  function BrokenAfter(cfg: Config, s: State, step: Step, broken: set<string>): set<string> {
    if step.Restarts? then {} else broken + FailedWrite(cfg, s, step)
  }

  /** The runs with a failed write of their beginning or end since the last start. */
  function Broken(cfg: Config, states: seq<State>, steps: seq<Step>, i: nat): set<string>
    requires |states| == |steps| + 1 && i < |states|
  {
    if i == 0 then {} else BrokenAfter(cfg, states[i - 1], steps[i - 1], Broken(cfg, states, steps, i - 1))
  }

  lemma {:induction false} BrokenExact(cfg: Config, states: seq<State>, steps: seq<Step>, i: nat, id: string)
    requires |states| == |steps| + 1 && i < |states|
    ensures id in Broken(cfg, states, steps, i) <==>
              exists k :: 0 <= k < i && id in FailedWrite(cfg, states[k], steps[k]) && forall j :: k < j < i ==>
                  !steps[j].Restarts?
  {
    if i > 0 {
      BrokenExact(cfg, states, steps, i - 1, id);
      if id in FailedWrite(cfg, states[i - 1], steps[i - 1]) {
        assert !steps[i - 1].Restarts?;
      }
    }
  }

  ghost predicate Attended(s: State, id: string) {
    exists t :: Attending(ThreadAt(s, t)) == Some(id)
  }

  predicate Recovered(b: Boot) {
    b.ListQueued? || b.Offering? || b.Up?
  }

  /** How far the run is from its end; an absent one is farthest. */
  function RankAt(fs: Fs, id: string): nat {
    match StatusAt(fs, id)
    case Some(status) => Rank(status)
    case None => 9
  }

  /** No worker will begin this run again. */
  ghost predicate Spent(s: State, id: string) {
    && RankAt(s.fs, id) <= 2
    && forall t :: Owns(ThreadAt(s, t)) == Some(id) ==> ThreadAt(s, t).Deregistering?
  }

  ghost predicate AllSpent(s: State, broken: set<string>) {
    forall id :: id in broken ==> Spent(s, id)
  }

  ghost predicate ToFail(s: State) {
    s.boot.FailRunning? ==> forall id :: StatusAt(s.fs, id) == Some(Running) ==> id in s.boot.todo
  }

  ghost predicate Registrations(s: State, broken: set<string>) {
    && ToFail(s) && AllSpent(s, broken)
    && (Recovered(s.boot) ==> forall id :: StatusAt(s.fs, id) == Some(Running) ==> (Attended(s, id) <==> id !in broken))
  }

  // ---- What a step does to statuses ----

  /** Ranks only fall, and only a begin of the run makes it running. */
  ghost predicate Falls(fs: Fs, after: Fs, id: string, begun: bool) {
    && RankAt(after, id) <= RankAt(fs, id)
    && (StatusAt(after, id) == Some(Running) ==> StatusAt(fs, id) == Some(Running) || begun)
  }

  lemma UpdateStatus(fs: Fs, x: string, m: Mutation, fault: Fault, id: string)
    requires RunsOk(fs)
    ensures Falls(fs, UpdateRun(fs, x, m, fault).0, id, id == x && m.Begin?)
  {
    hide StoreInv, Mutate;
    UpdateEffect(fs, x, m, fault);
    if x == id && RunAt(fs, id).Some? && Mutate(m, RunAt(fs, id).value).Ok? {
      MutateStatus(m, RunAt(fs, id).value);
    }
    hide UpdateRun;
  }

  /** Between restarts. */
  lemma StatusesFall(cfg: Config, s: State, step: Step, fs: Fs, id: string)
    requires RunsOk(s.fs) && FilesChange(cfg, s, step, fs) && !step.Restarts?
    ensures Falls(s.fs, fs, id, step.DoBegin? && Owns(ThreadAt(s, Actor(step))) == Some(id))
  {
    hide RunsOk, UpdateRun, CreateRun, History, Candidate;
    if StepUpdate(cfg, s, step).Some? {
      var u := StepUpdate(cfg, s, step).value;
      UpdateStatus(s.fs, u.0, u.1, u.2, id);
    } else if step.CreateCall? {
      CreateEffect(s.fs, step.run, step.fault);
    }
  }

  // ---- Workers ----

  lemma AttentionKept(s: State, after: State, t: nat, id: string)
    requires OthersSame(s, after, t)
    requires Attending(ThreadAt(s, t)) == Some(id) <==> Attending(ThreadAt(after, t)) == Some(id)
    ensures Attended(after, id) <==> Attended(s, id)
  {
    hide Attending;
    if Attended(s, id) {
      var u :| Attending(ThreadAt(s, u)) == Some(id);
      assert Attending(ThreadAt(after, u)) == Some(id);
    }
    if Attended(after, id) {
      var u :| Attending(ThreadAt(after, u)) == Some(id);
      assert Attending(ThreadAt(s, u)) == Some(id);
    }
  }

  /** A run comes to a worker only by a claim, which takes queued runs only. */
  lemma ClaimsQueued(cfg: Config, s: State, step: Step, after: State, id: string)
    requires WorkerNext(cfg, s, step, after) && step.DoClaim? && Owns(ThreadAt(after, Actor(step))) == Some(id)
    ensures RankAt(s.fs, id) == 3
  {
    hide BeginNext, EndNext, Moved;
  }

  lemma SpentKept(s: State, after: State, t: nat, id: string)
    requires OthersSame(s, after, t) && RankAt(after.fs, id) <= 2
    requires forall u :: u != t && Owns(ThreadAt(s, u)) == Some(id) ==> ThreadAt(s, u).Deregistering?
    requires Owns(ThreadAt(after, t)) == Some(id) ==> ThreadAt(after, t).Deregistering?
    ensures Spent(after, id)
  {
    forall u ensures Owns(ThreadAt(after, u)) == Some(id) ==> ThreadAt(after, u).Deregistering? {
      assert u != t ==> ThreadAt(after, u) == ThreadAt(s, u);
    }
    hide Owns, ThreadAt;
  }

  /** A begin or an end whose write fails leaves the run to nobody, and nobody takes up a run that was left. */
  lemma WorkerSpent(cfg: Config, s: State, step: Step, after: State, id: string)
    requires Core(cfg, s) && WorkerNext(cfg, s, step, after) && (Spent(s, id) || id in FailedWrite(cfg, s, step))
    ensures Spent(after, id)
  {
    hide RunsOk, WorkerNext, FilesChange, Locks, CancelsRegistered, LaunchedStarted, Tokens, Quiet, AllFacts,
         LockRule, Registers, LaunchRule, WriteFault, StatusAt, RankAt, Attending, HasOutcome;
    WorkerMoves(cfg, s, step, after);
    StatusesFall(cfg, s, step, after.fs, id);
    var t := Actor(step);
    if id in FailedWrite(cfg, s, step) {
      OwnerRank(cfg, s, t, id);
      FailedBegin(cfg, s, step, after);
    } else if step.DoClaim? && Owns(ThreadAt(after, t)) == Some(id) {
      ClaimsQueued(cfg, s, step, after, id);
    }
    SpentKept(s, after, t, id);
  }

  lemma OwnerRank(cfg: Config, s: State, t: nat, id: string)
    requires AllFacts(cfg, s) && LaunchedStarted(cfg, s) && Owns(ThreadAt(s, t)) == Some(id)
    ensures RankAt(s.fs, id) <= 2 && StatusAt(s.fs, id) != Some(Queued)
  {
    hide AllFacts, LaunchedStarted;
    OwnerStatus(cfg, s, t, id);
  }

  lemma FailedBegin(cfg: Config, s: State, step: Step, after: State)
    requires WorkerNext(cfg, s, step, after)
    ensures step.DoBegin? && FailedWrite(cfg, s, step) != {} ==> ThreadAt(after, Actor(step)).Releasing?
  {
    hide ClaimNext, EndNext, Mutate;
  }

  lemma FailedUnattended(cfg: Config, s: State, step: Step, after: State, id: string)
    requires OneOwner(s) && WorkerNext(cfg, s, step, after) && id in FailedWrite(cfg, s, step)
    ensures !Attended(after, id)
  {
    hide WorkerNext, FilesChange, LockRule, Registers, LaunchRule, WriteFault, Owner;
    WorkerMoves(cfg, s, step, after);
    FailedBegin(cfg, s, step, after);
    var t := Actor(step);
    forall u ensures Attending(ThreadAt(after, u)) != Some(id) {
      assert u != t ==> ThreadAt(after, u) == ThreadAt(s, u) && Owns(ThreadAt(s, u)) != Some(id);
    }
  }

  /** A begin that is answered leaves the run running under its worker, or ended. */
  lemma BegunAttended(cfg: Config, s: State, step: Step, after: State, id: string)
    requires AllFacts(cfg, s) && WorkerNext(cfg, s, step, after) && step.DoBegin? && step.fault.NoFault?
    requires Owns(ThreadAt(s, Actor(step))) == Some(id) && StatusAt(after.fs, id) == Some(Running)
    ensures Attended(after, id)
  {
    hide ClaimNext, EndNext, UpdateRun, AllFacts, ExecutionAllowed;
    FactsOf(cfg, s, Actor(step));
    BeginWrites(s.fs, id, Begin(cfg.executor, step.now));
    assert ThreadAt(after, Actor(step)).Registering? ==> Attending(ThreadAt(after, Actor(step))) == Some(id);
  }

  ghost predicate Answers(fs: Fs, id: string, after: Fs, answer: Result<Run, Error>) {
    answer.Ok? && RunAt(after, id) == Some(answer.value)
  }

  lemma BeginWrites(fs: Fs, id: string, m: Mutation)
    requires m.Begin? && RankAt(fs, id) <= 2 && StatusAt(fs, id) != Some(Running)
    ensures Answers(fs, id, UpdateRun(fs, id, m, NoFault).0, UpdateRun(fs, id, m, NoFault).1)
  {
  }

  /** An end that is written leaves the run ended. */
  lemma WrittenEnds(cfg: Config, s: State, step: Step, after: State, id: string)
    requires AllFacts(cfg, s) && WorkerNext(cfg, s, step, after) && step.DoFinish? && FailedWrite(cfg, s, step) == {}
    requires Owns(ThreadAt(s, Actor(step))) == Some(id)
    ensures StatusAt(after.fs, id) != Some(Running)
  {
    hide ClaimNext, BeginNext, AllFacts, WriteFault, FinalResult, FinalStatus, BoundResult, ExecutionAllowed;
    FactsOf(cfg, s, Actor(step));
  }

  lemma WorkerAttends(cfg: Config, s: State, step: Step, after: State, broken: set<string>, id: string)
    requires Core(cfg, s) && WorkerNext(cfg, s, step, after) && AllSpent(s, broken)
    requires StatusAt(after.fs, id) == Some(Running)
    requires if StatusAt(s.fs, id) == Some(Running) then Attended(s, id) <==> id !in broken
             else step.DoBegin? && Owns(ThreadAt(s, Actor(step))) == Some(id)
    ensures Attended(after, id) <==> id !in BrokenAfter(cfg, s, step, broken)
  {
    hide WorkerNext, RunsOk, Locks, CancelsRegistered, LaunchedStarted, Tokens, Quiet, AllFacts, OneOwner,
         Attended, FilesChange, LockRule, Registers, LaunchRule, WriteFault, Owner, OthersSame;
    WorkerMoves(cfg, s, step, after);
    var t := Actor(step);
    if (step.DoBegin? || step.DoFinish?) && Owns(ThreadAt(s, t)) == Some(id) {
      assert id !in broken;
      if FailedWrite(cfg, s, step) != {} {
        FailedUnattended(cfg, s, step, after, id);
      } else if step.DoBegin? {
        BegunAttended(cfg, s, step, after, id);
      } else {
        WrittenEnds(cfg, s, step, after, id);
      }
    } else {
      AttentionKept(s, after, t, id);
    }
  }

  lemma WorkerKeepsRegistrations(cfg: Config, s: State, step: Step, after: State, broken: set<string>)
    requires Core(cfg, s) && WorkerNext(cfg, s, step, after) && Registrations(s, broken)
    ensures Registrations(after, BrokenAfter(cfg, s, step, broken))
  {
    hide WorkerNext, RunsOk, Locks, AllFacts, CancelsRegistered, LaunchedStarted, Tokens, OneOwner, Attended,
         Spent, FilesChange, LockRule, Registers, LaunchRule, Owner, OthersSame, FailedWrite, StatusAt, RankAt;
    WorkerMoves(cfg, s, step, after);
    NotEarly(s, after);
    var now := BrokenAfter(cfg, s, step, broken);
    forall id | id in now ensures Spent(after, id) {
      WorkerSpent(cfg, s, step, after, id);
    }
    forall id | Recovered(after.boot) && StatusAt(after.fs, id) == Some(Running)
      ensures Attended(after, id) <==> id !in now {
      StatusesFall(cfg, s, step, after.fs, id);
      WorkerAttends(cfg, s, step, after, broken, id);
    }
  }

  // ---- Callers and recovery ----

  /** Nothing about this run that registrations depend on has changed for the worse. */
  ghost predicate Left(s: State, after: State, id: string) {
    && (Attended(after, id) <==> Attended(s, id)) && (Spent(s, id) ==> Spent(after, id))
    && (StatusAt(after.fs, id) == Some(Running) ==> StatusAt(s.fs, id) == Some(Running))
  }

  lemma CallerLeft(cfg: Config, s: State, step: Step, after: State, id: string)
    requires RunsOk(s.fs) && CallerNext(cfg, s, step, after)
    ensures Left(s, after, id)
  {
    hide CallerNext, RunsOk, Attended, Spent, FilesChange, LockRule, OthersSame, Outside, RankAt, StatusAt,
         ThreadAt, Silent, Actor;
    CallerMoves(cfg, s, step, after);
    StatusesFall(cfg, s, step, after.fs, id);
    if HasThread(step) {
      CallerLeaves(s, after, Actor(step), id);
    } else {
      ThreadsLeft(s, after, id);
    }
  }

  lemma CallerKeepsRegistrations(cfg: Config, s: State, step: Step, after: State, broken: set<string>)
    requires Core(cfg, s) && CallerNext(cfg, s, step, after) && Registrations(s, broken)
    ensures Registrations(after, BrokenAfter(cfg, s, step, broken))
  {
    hide CallerNext, RunsOk, Locks, AllFacts, CancelsRegistered, LaunchedStarted, Tokens, OneOwner, FilesChange,
         Quiet, Moves, Outside, ThreadAt, Actor, Registrations, Left, BrokenAfter, CallerStep, Silent, HasThread;
    CallerMoves(cfg, s, step, after);
    forall id ensures Left(s, after, id) {
      CallerLeft(cfg, s, step, after, id);
    }
    CallerBreaksNothing(cfg, s, step, broken);
    LeftKeeps(s, after, broken);
  }

  lemma CallerBreaksNothing(cfg: Config, s: State, step: Step, broken: set<string>)
    requires CallerStep(step)
    ensures BrokenAfter(cfg, s, step, broken) == broken
  {
  }

  lemma LeftKeeps(s: State, after: State, broken: set<string>)
    requires Registrations(s, broken) && after.boot == s.boot && forall id :: Left(s, after, id)
    ensures Registrations(after, broken)
  {
    hide Attended, Spent, StatusAt;
    forall id | StatusAt(after.fs, id) == Some(Running)
      ensures StatusAt(s.fs, id) == Some(Running) && Attended(after, id) == Attended(s, id) {
      assert Left(s, after, id);
    }
    forall id | id in broken ensures Spent(after, id) {
      assert Left(s, after, id);
    }
  }

  lemma ThreadsLeft(s: State, after: State, id: string)
    requires after.threads == s.threads && RankAt(after.fs, id) <= RankAt(s.fs, id)
    ensures (Attended(after, id) <==> Attended(s, id)) && (Spent(s, id) ==> Spent(after, id))
  {
    assert forall t :: ThreadAt(after, t) == ThreadAt(s, t);
    hide Attending, Owns, ThreadAt;
  }

  lemma CallerLeaves(s: State, after: State, t: nat, id: string)
    requires OthersSame(s, after, t) && Outside(ThreadAt(s, t)) && Outside(ThreadAt(after, t))
    requires RankAt(after.fs, id) <= RankAt(s.fs, id)
    ensures (Attended(after, id) <==> Attended(s, id)) && (Spent(s, id) ==> Spent(after, id))
  {
    OutsideOwnsNothing(ThreadAt(s, t));
    OutsideOwnsNothing(ThreadAt(after, t));
    hide Attending, Owns, Outside;
    AttentionKept(s, after, t, id);
    if Spent(s, id) {
      SpentKept(s, after, t, id);
    }
  }

  lemma StartKeepsRegistrations(cfg: Config, s: State, step: Step, after: State, broken: set<string>)
    requires Core(cfg, s) && StartNext(cfg, s, step, after) && Registrations(s, broken)
    ensures Registrations(after, BrokenAfter(cfg, s, step, broken))
  {
    hide RunsOk, Locks, AllFacts, CancelsRegistered, LaunchedStarted, Tokens, OneOwner, FilesChange, StartNext,
         Attended, Spent, StatusAt, RankAt;
    StartMoves(cfg, s, step, after);
    Recovery(cfg, s, step, after);
    if !step.Restarts? {
      forall id ensures (Attended(after, id) <==> Attended(s, id)) && (Spent(s, id) ==> Spent(after, id))
      ensures StatusAt(after.fs, id) == Some(Running) ==> StatusAt(s.fs, id) == Some(Running)
    {
        StatusesFall(cfg, s, step, after.fs, id);
        ThreadsLeft(s, after, id);
      }
    }
  }

  /** Recovery ends every run that was running before it goes on. */
  lemma Recovery(cfg: Config, s: State, step: Step, after: State)
    requires StartNext(cfg, s, step, after)
    ensures after.boot.FailRunning? ==>
              ToFail(after) ||
                  (s.boot.FailRunning? && forall id :: ToDo(s, id) && StatusAt(after.fs, id) == Some(Running) ==>
                   ToDo(after, id))
    ensures Recovered(after.boot) ==> Recovered(s.boot) || s.boot == FailRunning({})
  {
    hide UpdateRun, AllQueued;
    if step.BootFail? {
      FailedIsNotRunning(s.fs, step.id,
                         Fail(cfg.executor, "service_restarted", "service restarted before run completed", step.now),
                             step.fault);
    }
    assert forall id :: RunAt(Sync(s.fs, RunsDir), id) == RunAt(s.fs, id);
  }

  predicate ToDo(s: State, id: string) {
    s.boot.FailRunning? && id in s.boot.todo
  }

  lemma FailedIsNotRunning(fs: Fs, id: string, m: Mutation, fault: Fault)
    requires m.Fail?
    ensures UpdateRun(fs, id, m, fault).1.Ok? ==> StatusAt(UpdateRun(fs, id, m, fault).0, id) != Some(Running)
  {
  }

  lemma NextKeepsRegistrations(cfg: Config, s: State, step: Step, after: State, broken: set<string>)
    requires Core(cfg, s) && Next(cfg, s, step, after) && Registrations(s, broken)
    ensures Registrations(after, BrokenAfter(cfg, s, step, broken))
  {
    hide Core, Registrations, WorkerNext, CallerNext, StartNext, BrokenAfter;
    if WorkerNext(cfg, s, step, after) {
      WorkerKeepsRegistrations(cfg, s, step, after, broken);
    } else if CallerNext(cfg, s, step, after) {
      CallerKeepsRegistrations(cfg, s, step, after, broken);
    } else {
      StartKeepsRegistrations(cfg, s, step, after, broken);
    }
  }

  lemma {:induction false} RegistrationsThroughout(cfg: Config, states: seq<State>, steps: seq<Step>, i: nat)
    requires Trace(cfg, states, steps) && i < |states|
    ensures Registrations(states[i], Broken(cfg, states, steps, i))
  {
    hide Next, BrokenAfter, Core, Snapshots, Offered;
    if i > 0 {
      RegistrationsThroughout(cfg, states, steps, i - 1);
      Reachable(cfg, states, steps);
      assert states[i - 1] in states;
      assert Next(cfg, states[i - 1], steps[i - 1], states[i - 1 + 1]);
      NextKeepsRegistrations(cfg, states[i - 1], steps[i - 1], states[i], Broken(cfg, states, steps, i - 1));
    }
  }

  // ---- The theorem ----

  /** A worker that has not yet written the end of `id` is registered for it. */
  predicate WorkRegistered(s: State, id: string) {
    id in s.cancels && s.cancels[id] in s.threads && !s.threads[s.cancels[id]].Deregistering?
  }

  /** A worker has begun `id` and registers it next, under the lock that also keeps cancellations out. */
  ghost predicate AboutToRegister(s: State, id: string) {
    exists t :: t in s.threads && s.threads[t].Registering? && s.threads[t].id == id
  }

  lemma AttendedMeans(cfg: Config, s: State, id: string)
    requires Core(cfg, s)
    ensures Attended(s, id) <==> WorkRegistered(s, id) || AboutToRegister(s, id)
  {
    hide RunsOk, Locks, LaunchedStarted, Tokens, Quiet, ExecutionAllowed, AllFacts;
    if Attended(s, id) {
      var t :| Attending(ThreadAt(s, t)) == Some(id);
      FactsOf(cfg, s, t);
      assert Owns(s.threads[t]) == Some(id);
      if !s.threads[t].Registering? {
        var u := s.cancels[id];
        assert Owns(s.threads[u]) == Some(id);
      }
    }
    if WorkRegistered(s, id) {
      assert Attending(ThreadAt(s, s.cancels[id])) == Some(id);
    } else if AboutToRegister(s, id) {
      var t :| t in s.threads && s.threads[t].Registering? && s.threads[t].id == id;
      assert Attending(ThreadAt(s, t)) == Some(id);
    }
  }

  /** After recovery a running run is registered, or about to be by the worker that has just begun it, if and only
      if no write of its beginning or its end was answered with an error since the last start. */
  lemma RunningIsRegistered(cfg: Config, states: seq<State>, steps: seq<Step>, i: nat, id: string)
    requires Trace(cfg, states, steps) && i < |states| && (states[i].boot.Offering? || states[i].boot.Up?)
    requires StatusAt(states[i].fs, id) == Some(Running)
    ensures WorkRegistered(states[i], id) || AboutToRegister(states[i], id) <==>
            !(exists k :: 0 <= k < i && id in FailedWrite(cfg, states[k], steps[k]) && forall j :: k < j < i ==>
              !steps[j].Restarts?)
  {
    hide Next, Core, Snapshots, Offered;
    Reachable(cfg, states, steps);
    assert states[i] in states;
    RegistrationsThroughout(cfg, states, steps, i);
    BrokenExact(cfg, states, steps, i, id);
    AttendedMeans(cfg, states[i], id);
  }
}
