/** No work is lost or duplicated while the store works and the process runs. */
module RunServiceProgress {
  import opened Prelude
  import opened Domain
  import opened Runs
  import opened RunUpdates
  import opened Disk
  import opened RunFiles
  import opened Strings
  import opened RunService
  import opened RunServiceSteps
  import opened RunServiceTheorems
  import Stores

  /** An automatic run that no worker has claimed yet. */
  predicate Waiting(fs: Fs, id: string) {
    Automatic(fs, id) && StatusAt(fs, id) == Some(Queued)
  }

  predicate Carries(s: State, t: nat, id: string) {
    Token(ThreadAt(s, t)) == Some(id)
  }

  ghost predicate Held(s: State, id: string) {
    Pending(s, id) || exists t :: Carries(s, t, id)
  }

  /** From the moment recovery has listed the queued runs, every waiting run is somewhere. */
  ghost predicate Served(s: State) {
    s.boot.Offering? || s.boot.Up? ==> forall id :: Waiting(s.fs, id) ==> Held(s, id)
  }

  ghost predicate StaysHeld(s: State, after: State, t: nat) {
    && OthersSame(s, after, t) && after.boot == s.boot
    && (forall id :: id in s.queue && Waiting(after.fs, id) ==> id in after.queue || Carries(after, t, id))
    && (Token(ThreadAt(s, t)).Some? ==>
          var id := Token(ThreadAt(s, t)).value; Waiting(after.fs, id) ==> id in after.queue || Carries(after, t, id))
    && (forall id :: Waiting(after.fs, id) ==> Waiting(s.fs, id) || Carries(after, t, id))
  }

  lemma HeldKept(s: State, after: State, t: nat)
    requires Served(s) && StaysHeld(s, after, t)
    ensures Served(after)
  {
    hide Waiting;
    if s.boot.Offering? || s.boot.Up? {
      forall id | Waiting(after.fs, id) ensures Held(after, id) {
        if !Carries(after, t, id) && !Pending(s, id) {
          assert Held(s, id);
          var u :| Carries(s, u, id);
          if u != t {
            assert Carries(after, u, id);
          }
        }
      }
    }
  }

  /** No run waits after an update that did not wait before, but the one that it approved;
      and a run that was claimed or failed waits no more. */
  ghost predicate Waits(fs: Fs, id: string, m: Mutation, fault: Fault, x: string) {
    && (Waiting(fs, x) || (m.Approve? && x == id && UpdateRun(fs, id, m, fault).1.Ok?))
    && ((m.Claim? || m.Fail?) && fault.NoFault? ==> x != id)
  }

  lemma UpdateWaits(fs: Fs, id: string, m: Mutation, fault: Fault, x: string)
    requires RunsOk(fs) && Waiting(UpdateRun(fs, id, m, fault).0, x) && (fault.NoFault? || fault.FailEarly?)
    requires m.Submit? ==> !Automatic(fs, id)
    ensures Waits(fs, id, m, fault, x)
  {
    hide StoreInv, Mutate;
    UpdateEffect(fs, id, m, fault);
    if x == id && RunAt(fs, id).Some? {
      var r := RunAt(fs, id).value;
      if Mutate(m, r).Ok? {
        MutateStatus(m, r);
      }
      ClaimTakesQueued(m, r);
    }
  }

  lemma ClaimTakesQueued(m: Mutation, r: Run)
    ensures r.status == Queued && (m.Claim? || m.Fail?) ==> Mutate(m, r).Ok? && forall x :: Mutate(m, r) == Ok(x) ==>
        x.status != Queued
  {
  }

  lemma SyncWaits(fs: Fs)
    ensures forall x :: Waiting(Sync(fs, RunsDir), x) == Waiting(fs, x)
  {
    assert forall x :: RunAt(Sync(fs, RunsDir), x) == RunAt(fs, x);
  }

  lemma UntouchedWaits(fs: Fs, after: Fs)
    requires RunsUntouched(fs, after)
    ensures forall x :: Waiting(after, x) == Waiting(fs, x)
  {
    assert forall x :: RunAt(after, x) == RunAt(fs, x);
  }

  /** The runs that wait after a reliable step waited before, or were just created or approved. */
  ghost predicate StepWaits(cfg: Config, s: State, step: Step, x: string) {
    match StepUpdate(cfg, s, step)
    case Some(u) => Waits(s.fs, u.0, u.1, u.2, x)
    case None => Waiting(s.fs, x) || (step.CreateCall? && x == step.run.id && CreatesQueued(s.fs, step.run))
  }

  ghost predicate CreatesQueued(fs: Fs, run: Run) {
    run.status == Queued && CreateRun(fs, run, NoFault).1.Ok?
  }

  lemma ReliableWaits(cfg: Config, s: State, step: Step, fs: Fs, x: string)
    requires RunsOk(s.fs) && FilesChange(cfg, s, step, fs) && Reliable(step) && Waiting(fs, x)
    requires step.SubmitCommit? ==> !Automatic(s.fs, RunOf(ThreadAt(s, Actor(step))))
    ensures StepWaits(cfg, s, step, x)
  {
    hide RunsOk, UpdateRun, CreateRun, Waiting, History, Waits, CreatesQueued;
    SyncWaits(s.fs);
    if StepUpdate(cfg, s, step).Some? {
      var u := StepUpdate(cfg, s, step).value;
      UpdateWaits(s.fs, u.0, u.1, u.2, x);
    } else if step.CreateCall? {
      CreateWaits(s.fs, step.run, x);
    } else if step.Elsewhere? {
      UntouchedWaits(s.fs, fs);
    }
  }

  lemma CreateWaits(fs: Fs, run: Run, x: string)
    requires RunsOk(fs) && Enters(run) && Waiting(CreateRun(fs, run, NoFault).0, x)
    ensures Waiting(fs, x) || (x == run.id && CreatesQueued(fs, run))
  {
    hide StoreInv, History, Candidate;
    CreateEffect(fs, run, NoFault);
  }

  lemma WorkerServes(cfg: Config, s: State, step: Step, after: State)
    requires RunsOk(s.fs) && Served(s) && WorkerNext(cfg, s, step, after) && Reliable(step)
    ensures Served(after)
  {
    hide RunsOk, Served, UpdateRun, ExecutionAllowed, Waiting, OthersSame, RunAt, FilesChange, LockRule,
         Registers, LaunchRule, BeginNext, EndNext, StepUpdate, StepWaits, Course, TakesHead, Reliable, Owner,
         ClaimNext, Token;
    WorkerMoves(cfg, s, step, after);
    WorkerTokens(cfg, s, step, after);
    forall x | Waiting(after.fs, x)
      ensures Waiting(s.fs, x)
      ensures step.DoClaim? ==> x != RunOf(ThreadAt(s, Actor(step)))
    {
      ReliableWaits(cfg, s, step, after.fs, x);
      WorkerWaits(cfg, s, step, x);
    }
    WorkerHolds(s, step, after, Actor(step));
  }

  lemma WorkerHolds(s: State, step: Step, after: State, t: nat)
    requires Served(s) && OthersSame(s, after, t) && after.boot == s.boot && (step.Take? || after.queue == s.queue)
    requires TakesHead(s, t, step, after)
    requires forall x :: Waiting(after.fs, x) ==> Waiting(s.fs, x) && (step.DoClaim? ==> x != RunOf(ThreadAt(s, t)))
    ensures Served(after)
  {
    hide Served, Waiting, OthersSame;
    assert step.Take? ==> s.queue == [s.queue[0]] + after.queue;
    HeldKept(s, after, t);
  }

  /** Only a worker that claims has a token, and only one that takes gets one. */
  predicate TakesHead(s: State, t: nat, step: Step, after: State) {
    && (step.Take? ==> s.queue != [] && ThreadAt(after, t) == Claiming(s.queue[0]) && after.queue == s.queue[1..])
    && Token(ThreadAt(s, t)) == if step.DoClaim? then Some(RunOf(ThreadAt(s, t))) else None
  }

  lemma WorkerTokens(cfg: Config, s: State, step: Step, after: State)
    requires WorkerNext(cfg, s, step, after) && Course(step, ThreadAt(s, Actor(step)), ThreadAt(after, Actor(step)))
    ensures TakesHead(s, Actor(step), step, after) && (step.DoClaim? ==> ThreadAt(s, Actor(step)).Claiming?)
  {
    hide BeginNext, EndNext, UpdateRun;
  }

  lemma WorkerWaits(cfg: Config, s: State, step: Step, x: string)
    requires !QueueStep(step) && StepWaits(cfg, s, step, x) && Reliable(step)
    ensures Waiting(s.fs, x)
    ensures step.DoClaim? && ThreadAt(s, Actor(step)).Claiming? ==> x != RunOf(ThreadAt(s, Actor(step)))
  {
    hide UpdateRun, Waiting;
  }

  lemma CallerWaits(cfg: Config, s: State, step: Step, after: State, x: string)
    requires RunsOk(s.fs) && CallerNext(cfg, s, step, after) && Reliable(step) && HasThread(step)
    requires Waiting(after.fs, x)
    ensures Waiting(s.fs, x) || Carries(after, Actor(step), x)
    ensures step.FailUnqueued? ==> x != RunOf(ThreadAt(s, Actor(step)))
  {
    hide RunsOk, Reliable, Waiting, CancelNext, TickNext, QueueNext, FilesChange, StepUpdate, StepWaits, Moves,
         Outside, UpdateRun;
    CallerMoves(cfg, s, step, after);
    ReliableWaits(cfg, s, step, after.fs, x);
    if QueueStep(step) {
      QueueCarries(cfg, s, step, after, x);
    } else {
      WorkerWaits(cfg, s, step, x);
    }
  }

  lemma QueueCarries(cfg: Config, s: State, step: Step, after: State, x: string)
    requires QueueNext(cfg, s, step, after) && Reliable(step) && StepWaits(cfg, s, step, x)
    ensures Waiting(s.fs, x) || Carries(after, Actor(step), x)
    ensures step.FailUnqueued? ==> x != RunOf(ThreadAt(s, Actor(step)))
  {
    hide UpdateRun, CreateRun, History, Blank, Waiting;
  }

  lemma CallerServes(cfg: Config, s: State, step: Step, after: State)
    requires RunsOk(s.fs) && Served(s) && CallerNext(cfg, s, step, after) && Reliable(step) && HasThread(step)
    ensures Served(after)
  {
    hide RunsOk, Served, UpdateRun, CreateRun, History, Blank, CancelUpdate, Waiting, OthersSame, RunAt,
         FilesChange, LockRule;
    CallerMoves(cfg, s, step, after);
    forall x | Waiting(after.fs, x)
      ensures Waiting(s.fs, x) || Carries(after, Actor(step), x)
      ensures step.FailUnqueued? ==> x != RunOf(ThreadAt(s, Actor(step)))
    {
      CallerWaits(cfg, s, step, after, x);
    }
    HeldKept(s, after, Actor(step));
  }

  lemma StartServes(cfg: Config, s: State, step: Step, after: State)
    requires Inv(cfg, s) && Served(s) && StartNext(cfg, s, step, after) && Reliable(step)
    ensures Served(after)
  {
    hide Inv, Mutate, UpdateRun, InStatus;
    SyncWaits(s.fs);
    if step.BootOffer? {
      assert s.boot.rest == [s.boot.rest[0]] + after.boot.rest;
      forall x | Waiting(after.fs, x) ensures Held(after, x) {
        if !Pending(s, x) {
          var u :| Carries(s, u, x);
          assert Carries(after, u, x);
        }
      }
    } else if step.BootNext? {
      forall x | Waiting(after.fs, x) && after.boot.Up? ensures Held(after, x) {
        if !Pending(s, x) {
          var u :| Carries(s, u, x);
          assert Carries(after, u, x);
        }
      }
    }
  }

  lemma TickServes(cfg: Config, s: State, step: Step, after: State)
    requires Served(s) && TickNext(cfg, s, step, after)
    ensures Served(after)
  {
    hide Waiting, Listed;
    if step.Elsewhere? {
      UntouchedWaits(s.fs, after.fs);
    }
    SyncWaits(s.fs);
    hide RunsUntouched, Sync;
    assert s.queue <= after.queue && forall x :: Waiting(after.fs, x) == Waiting(s.fs, x);
    forall x | Waiting(after.fs, x) && Held(s, x) ensures Held(after, x) {
      if !Pending(s, x) {
        var u :| Carries(s, u, x);
        assert Carries(after, u, x);
      }
    }
  }

  lemma ReliableServes(cfg: Config, s: State, step: Step, after: State)
    requires Inv(cfg, s) && Served(s) && Next(cfg, s, step, after) && Reliable(step)
    ensures Served(after)
  {
    hide Locks, OneOwner, AllFacts, CancelsRegistered, LaunchedStarted, Tokens, Quiet, RunsOk, Snapshots,
         Offered, Served, WorkerNext, StartNext, Reliable, QueueNext, CancelNext, SubmitNext, TickNext;
    if WorkerNext(cfg, s, step, after) {
      WorkerServes(cfg, s, step, after);
    } else if StartNext(cfg, s, step, after) {
      StartServes(cfg, s, step, after);
    } else if HasThread(step) {
      CallerServes(cfg, s, step, after);
    } else {
      TickServes(cfg, s, step, after);
    }
  }

  // ---- Exactly one place ----

  /** Where an automatic run can be on its way to a worker: a slot of the queue or of the recovery
      list, or a thread that carries it. */
  datatype Place = InQueue(slot: nat) | InRecovery(slot: nat) | With(thread: nat)

  predicate Occupies(s: State, p: Place, id: string) {
    match p
    case InQueue(i) => i < |s.queue| && s.queue[i] == id
    case InRecovery(i) => s.boot.Offering? && i < |s.boot.rest| && s.boot.rest[i] == id
    case With(t) => Carries(s, t, id)
  }

  /** Never in two places. */
  lemma OnePlace(s: State, p: Place, q: Place, id: string)
    requires Tokens(s) && Automatic(s.fs, id) && Occupies(s, p, id) && Occupies(s, q, id)
    ensures p == q
  {
    hide Automatic, TokenFits;
    assert id in s.queue || (s.boot.Offering? && id in s.boot.rest) <==> Pending(s, id);
    if p.With? && q.With? {
      assert SameToken(s, s.threads[p.thread], s.threads[q.thread]);
    }
  }

  lemma SomePlace(s: State, id: string) returns (p: Place)
    requires Held(s, id)
    ensures Occupies(s, p, id)
  {
    if id in s.queue {
      var i :| 0 <= i < |s.queue| && s.queue[i] == id;
      p := InQueue(i);
    } else if Pending(s, id) {
      var i :| 0 <= i < |s.boot.rest| && s.boot.rest[i] == id;
      p := InRecovery(i);
    } else {
      var t :| Carries(s, t, id);
      p := With(t);
    }
  }

  /** If the process has started at `i` and since then every store operation worked, then at `j`, once
      recovery has listed the queued runs, every automatic queued run is in exactly one place. */
  lemma {:induction false} NoWorkLost(cfg: Config, states: seq<State>, steps: seq<Step>, i: nat, j: nat, id: string)
    returns (p: Place)
    requires Trace(cfg, states, steps) && i <= j < |states| && Early(states[i].boot)
    requires forall k :: i <= k < j ==> Reliable(steps[k])
    requires states[j].boot.Offering? || states[j].boot.Up?
    requires Waiting(states[j].fs, id)
    ensures Occupies(states[j], p, id) && forall q :: Occupies(states[j], q, id) ==> q == p
  {
    hide Next, Reliable, AllFacts, RunsOk, Locks, OneOwner, LaunchedStarted, CancelsRegistered, Quiet, Tokens, Occupies;
    ServedThroughout(cfg, states, steps, i, j);
    Reachable(cfg, states, steps);
    assert states[j] in states;
    p := SomePlace(states[j], id);
    forall q | Occupies(states[j], q, id) ensures q == p {
      OnePlace(states[j], p, q, id);
    }
  }

  lemma {:induction false} ServedThroughout(cfg: Config, states: seq<State>, steps: seq<Step>, i: nat, j: nat)
    requires Trace(cfg, states, steps) && i <= j < |states| && Early(states[i].boot)
    requires forall k :: i <= k < j ==> Reliable(steps[k])
    ensures Served(states[j])
    decreases j - i
  {
    hide Next, Inv, Reliable;
    if i < j {
      ServedThroughout(cfg, states, steps, i, j - 1);
      Reachable(cfg, states, steps);
      assert states[j - 1] in states;
      assert Next(cfg, states[j - 1], steps[j - 1], states[j - 1 + 1]);
      hide Served, Early;
      ReliableServes(cfg, states[j - 1], steps[j - 1], states[j]);
    }
  }

  // ---- The queue ----

  /** One more run waits, at the end, where there was room. */
  predicate Grows(cfg: Config, s: State, after: State) {
    |s.queue| < cfg.capacity && |after.queue| == |s.queue| + 1 && s.queue <= after.queue
  }

  predicate GivesHead(s: State, step: Step, after: State) {
    match step
    case Take(t) => s.queue != [] && after.queue == s.queue[1..] && ThreadAt(after, t) == Claiming(s.queue[0])
    case _ => false
  }

  /** The queue is a channel: a step sends one run where there is room, hands the head to a worker, begins anew at a
      restart, or leaves it alone. */
  lemma QueueIsChannel(cfg: Config, s: State, step: Step, after: State)
    requires Next(cfg, s, step, after)
    ensures || after.queue == s.queue || Grows(cfg, s, after) || GivesHead(s, step, after)
            || (step.Restarts? && after.queue == [])
  {
    hide WorkerNext, CallerNext, StartNext, Grows, GivesHead;
    if WorkerNext(cfg, s, step, after) {
      WorkerReceives(cfg, s, step, after);
    } else if CallerNext(cfg, s, step, after) {
      CallerSends(cfg, s, step, after);
    } else {
      StartSends(cfg, s, step, after);
    }
  }

  lemma WorkerReceives(cfg: Config, s: State, step: Step, after: State)
    requires WorkerNext(cfg, s, step, after)
    ensures after.queue == s.queue || GivesHead(s, step, after)
  {
    hide FilesChange, LaunchRule, Course, Moves, Registers, Owner, UpdateRun, BeginNext, EndNext;
    WorkerMoves(cfg, s, step, after);
  }

  lemma CallerSends(cfg: Config, s: State, step: Step, after: State)
    requires CallerNext(cfg, s, step, after)
    ensures after.queue == s.queue || Grows(cfg, s, after)
  {
    hide QueueNext, SubmitNext, UpdateRun, CancelUpdate, RunAt, Sync, Listed, RunsUntouched;
    if QueueStep(step) {
      QueueSends(cfg, s, step, after);
    } else if SubmitStep(step) {
      NotifySends(cfg, s, step, after);
    }
  }

  lemma QueueSends(cfg: Config, s: State, step: Step, after: State)
    requires QueueNext(cfg, s, step, after)
    ensures after.queue == s.queue || Grows(cfg, s, after)
  {
    hide UpdateRun, CreateRun, RunAt, Blank, History;
  }

  lemma NotifySends(cfg: Config, s: State, step: Step, after: State)
    requires SubmitNext(cfg, s, step, after)
    ensures after.queue == s.queue || Grows(cfg, s, after)
  {
    hide UpdateRun, RunAt, Sync;
  }

  lemma StartSends(cfg: Config, s: State, step: Step, after: State)
    requires StartNext(cfg, s, step, after)
    ensures after.queue == s.queue || Grows(cfg, s, after) || (step.Restarts? && after.queue == [])
  {
    hide UpdateRun, Sync, InStatus, AllQueued;
  }

  /** No more runs wait than the channel holds. */
  lemma {:induction false} WithinCapacity(cfg: Config, states: seq<State>, steps: seq<Step>, n: nat)
    requires Trace(cfg, states, steps) && n < |states|
    ensures |states[n].queue| <= cfg.capacity
  {
    hide Next;
    if n > 0 {
      WithinCapacity(cfg, states, steps, n - 1);
      assert Next(cfg, states[n - 1], steps[n - 1], states[n - 1 + 1]);
      QueueIsChannel(cfg, states[n - 1], steps[n - 1], states[n]);
    }
  }

  // ---- The dispatcher ----

  /** What the file store lists, unlimited, for the status queued is a listing in the sense of the tick. */
  lemma StoreLists(fs: Fs, runs: map<string, Run>, f: Stores.Filter, full: seq<Run>)
    requires (forall id :: id in runs ==> runs[id].id == id) && Stores.Mirrors(fs, runs)
    requires Stores.FullListing(runs, f, full) && f == Stores.Filter("", "", Some(Queued), 0)
    ensures Listed(fs, Stores.Limited(full, f.limit))
  {
    forall id | StatusAt(fs, id) == Some(Queued) ensures exists i :: 0 <= i < |full| && full[i].id == id {
      assert RunAt(fs, id) == Some(runs[id]) && runs[id] in full;
    }
  }

  /** One tick: it lists the queued runs with step `i`, and its last send leads to state `j`. Workers and callers
      may move in between. */
  ghost predicate Tick(cfg: Config, states: seq<State>, steps: seq<Step>, i: nat, j: nat) {
    && Trace(cfg, states, steps) && i < j < |states| && steps[i].TickList?
    && (forall k :: i < k < j ==> states[k].offers != [] && !steps[k].Restarts?)
    && states[j].offers == []
  }

  function Sends(steps: seq<Step>, i: nat, k: nat): nat
    requires i < k <= |steps|
    decreases k
  {
    if k == i + 1 then 0 else Sends(steps, i, k - 1) + (if steps[k - 1].TickSend? then 1 else 0)
  }

  predicate Offers(states: seq<State>, steps: seq<Step>, k: nat, id: string)
    requires |states| == |steps| + 1 && k < |steps|
  {
    steps[k].TickSend? && states[k].offers != [] && states[k].offers[0].id == id
  }

  /** The dispatcher sends the head of what is left of its list, if it is a manual run and the queue has room. */
  ghost predicate Sent(cfg: Config, s: State, after: State) {
    && s.offers != []
    && var r, rest := s.offers[0], s.(offers := s.offers[1..]);
       after == if r.Manual() && |s.queue| < cfg.capacity then Push(rest, r.id) else rest
  }

  lemma OffersMove(cfg: Config, s: State, step: Step, after: State)
    requires Next(cfg, s, step, after) && s.offers != [] && !step.Restarts?
    ensures if step.TickSend? then Sent(cfg, s, after) else after.offers == s.offers
  {
    hide Next, LaunchRule, FilesChange;
    StepEffect(cfg, s, step, after);
    if step.TickSend? || step.TickList? {
      DispatcherMoves(cfg, s, step, after);
    }
  }

  lemma DispatcherMoves(cfg: Config, s: State, step: Step, after: State)
    requires Next(cfg, s, step, after) && (step.TickSend? || step.TickList?)
    ensures step.TickSend? ==> Sent(cfg, s, after)
    ensures forall listed :: step == TickList(listed) ==>
        s.offers == [] && Listed(s.fs, listed) && after.offers == listed
  {
    hide Next, Listed, Sync;
    TickOnly(cfg, s, step, after);
  }

  /** What is left of the list after each step of the tick. */
  lemma {:induction false} Remaining(cfg: Config, states: seq<State>, steps: seq<Step>, i: nat, j: nat, k: nat)
    requires Tick(cfg, states, steps, i, j) && i < k <= j
    ensures Sends(steps, i, k) <= |steps[i].listed| && states[k].offers == steps[i].listed[Sends(steps, i, k)..]
    ensures Listed(states[i].fs, steps[i].listed)
    decreases k
  {
    hide Listed, Next;
    if k == i + 1 {
      assert Next(cfg, states[i], steps[i], states[i + 1]);
      DispatcherMoves(cfg, states[i], steps[i], states[i + 1]);
    } else {
      Remaining(cfg, states, steps, i, j, k - 1);
      assert Next(cfg, states[k - 1], steps[k - 1], states[k - 1 + 1]);
      OffersMove(cfg, states[k - 1], steps[k - 1], states[k]);
    }
  }

  lemma {:induction false} ReachesSlot(steps: seq<Step>, i: nat, j: nat, m: nat) returns (k: nat)
    requires i < j <= |steps| && m < Sends(steps, i, j)
    ensures i < k < j && steps[k].TickSend? && Sends(steps, i, k) == m
    decreases j
  {
    if steps[j - 1].TickSend? && Sends(steps, i, j - 1) == m {
      k := j - 1;
    } else {
      k := ReachesSlot(steps, i, j - 1, m);
    }
  }

  lemma {:induction false} SendsGrow(steps: seq<Step>, i: nat, a: nat, b: nat)
    requires i < a < b <= |steps| && steps[a].TickSend?
    ensures Sends(steps, i, a) < Sends(steps, i, b)
    decreases b
  {
    if a + 1 < b {
      SendsGrow(steps, i, a, b - 1);
    }
  }

  /** In each tick, however workers and callers move between its sends, every manual run that was queued on disk
      when the tick listed the runs is offered exactly once, and then enters the queue unless the queue is full at
      that moment. */
  lemma TickOffersEach(cfg: Config, states: seq<State>, steps: seq<Step>, i: nat, j: nat, id: string) returns (k: nat)
    requires Tick(cfg, states, steps, i, j)
    requires StatusAt(states[i].fs, id) == Some(Queued) && RunAt(states[i].fs, id).value.Manual()
    ensures i < k < j && Offers(states, steps, k, id)
    ensures states[k + 1].queue == if |states[k].queue| < cfg.capacity then states[k].queue + [id] else states[k].queue
    ensures forall o :: i < o < j && Offers(states, steps, o, id) ==> o == k
  {
    hide Next, Listed;
    var listed := steps[i].listed;
    Remaining(cfg, states, steps, i, j, j);
    var m := ListedAt(states[i].fs, listed, id);
    k := ReachesSlot(steps, i, j, m);
    Remaining(cfg, states, steps, i, j, k);
    assert Next(cfg, states[k], steps[k], states[k + 1]);
    OffersMove(cfg, states[k], steps[k], states[k + 1]);
    forall o | i < o < j && Offers(states, steps, o, id) ensures o == k {
      Remaining(cfg, states, steps, i, j, o);
      ListedOnce(states[i].fs, listed, Sends(steps, i, o), m);
      if o < k {
        SendsGrow(steps, i, o, k);
      } else if k < o {
        SendsGrow(steps, i, k, o);
      }
    }
  }

  lemma ListedAt(fs: Fs, listed: seq<Run>, id: string) returns (m: nat)
    requires Listed(fs, listed) && StatusAt(fs, id) == Some(Queued)
    ensures m < |listed| && listed[m].id == id && RunAt(fs, id) == Some(listed[m])
  {
    m :| 0 <= m < |listed| && listed[m].id == id;
    assert listed[m] in listed;
  }

  lemma ListedOnce(fs: Fs, listed: seq<Run>, a: nat, b: nat)
    requires Listed(fs, listed) && a < |listed| && b < |listed| && listed[a].id == listed[b].id
    ensures a == b
  {
  }

  /** And nothing else is offered: what a tick puts into the queue is a manual run that was queued when it listed
      them. */
  lemma TickOffersOnly(cfg: Config, states: seq<State>, steps: seq<Step>, i: nat, j: nat, k: nat)
    requires Tick(cfg, states, steps, i, j) && i < k < j && steps[k].TickSend? && states[k + 1].queue != states[k].queue
    ensures var id := states[k].offers[0].id;
      && states[k + 1].queue == states[k].queue + [id]
      && StatusAt(states[i].fs, id) == Some(Queued) && RunAt(states[i].fs, id).value.Manual()
  {
    hide Next;
    Remaining(cfg, states, steps, i, j, k);
    assert Next(cfg, states[k], steps[k], states[k + 1]);
    OffersMove(cfg, states[k], steps[k], states[k + 1]);
    assert states[k].offers[0] in steps[i].listed;
  }

  lemma SendStep(cfg: Config, s: State, after: State)
    requires Sent(cfg, s, after)
    ensures Next(cfg, s, TickSend, after)
  {
    hide WorkerNext, StartNext;
  }

  ghost predicate Sending(cfg: Config, states: seq<State>) {
    forall k :: 0 <= k < |states| - 1 ==> Next(cfg, states[k], TickSend, states[k + 1])
  }

  lemma OneState(cfg: Config, s: State)
    ensures Sending(cfg, [s])
  {
  }

  lemma OneMoreSend(cfg: Config, states: seq<State>, after: State)
    requires states != [] && Sending(cfg, states) && Next(cfg, states[|states| - 1], TickSend, after)
    ensures Sending(cfg, states + [after])
  {
    hide Next;
    forall k | 0 <= k < |states| ensures Next(cfg, (states + [after])[k], TickSend, (states + [after])[k + 1]) {
      assert k < |states| - 1 ==> Next(cfg, states[k], TickSend, states[k + 1]);
    }
  }

  /** The bounded channel. */
  class RunQueue {
    const capacity: nat
    var ids: seq<string>
    ghost var sent: seq<string>
    ghost var received: seq<string>

    /** First in, first out: what was received and what waits is what was sent, in order. */
    ghost predicate Valid() reads this { |ids| <= capacity && sent == received + ids }

    constructor (capacity: nat)
      ensures Valid() && sent == [] && this.capacity == capacity
    {
      this.capacity, ids, sent, received := capacity, [], [], [];
    }

    /** A send that does not wait: it fails exactly when everything the channel can hold is still waiting. */
    method Enqueue(id: string) returns (ok: bool)
      requires Valid()
      modifies this
      ensures Valid() && received == old(received)
      ensures sent == if ok then old(sent) + [id] else old(sent)
      ensures ok <==> |old(sent)| < |received| + capacity
    {
      ok := |ids| < capacity;
      if ok {
        ids, sent := ids + [id], sent + [id];
      }
    }

    /** The n-th receive gets what was sent n-th. */
    method Receive() returns (id: string)
      requires Valid() && |received| < |sent|
      modifies this
      ensures Valid() && sent == old(sent)
      ensures received == old(received) + [id] && id == sent[|old(received)|]
    {
      id := ids[0];
      ids, received := ids[1..], received + [id];
    }

    /** The loop over a listing takes the dispatcher's steps and no others. */
    method DispatchTick(listed: seq<Run>, ghost cfg: Config, ghost s: State) returns (ghost after: seq<State>)
      requires Valid() && ids == s.queue && capacity == cfg.capacity && s.offers == listed
      modifies this
      ensures Valid() && received == old(received) && |after| == |listed| + 1 && after[0] == s
      ensures Sending(cfg, after)
      ensures after[|listed|].offers == [] && ids == after[|listed|].queue
    {
      hide Next, Sending;
      OneState(cfg, s);
      after := [s];
      ghost var now := s;
      for i := 0 to |listed|
        invariant Valid() && received == old(received) && |after| == i + 1 && after[0] == s && after[i] == now
        invariant Sending(cfg, after)
        invariant now.offers == listed[i..] && ids == now.queue
      {
        ghost var next := now.(offers := now.offers[1..]);
        assert now.offers != [] && now.offers[0] == listed[i] && next.offers == listed[i + 1..];
        if listed[i].Manual() {
          ghost var waiting := ids;
          var ok := Enqueue(listed[i].id);
          SameTail(received, waiting, ids, if ok then [listed[i].id] else []);
          next := if ok then Push(next, listed[i].id) else next;
        }
        SendStep(cfg, now, next);
        OneMoreSend(cfg, after, next);
        after, now := after + [next], next;
      }
    }
  }

  lemma SameTail(received: seq<string>, before: seq<string>, now: seq<string>, added: seq<string>)
    requires received + now == received + before + added
    ensures now == before + added
  {
    assert now == (received + now)[|received|..];
    assert before + added == (received + before + added)[|received|..];
  }
}
