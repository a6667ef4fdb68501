/** What the service and the submission guarantee together: honest inputs are never rejected, and what a run
    concludes rests on evidence stored for that run. */
module CompositionTheorems {
  import opened Prelude
  import opened Domain
  import opened RunUpdates
  import opened Disk
  import opened RunFiles
  import opened InputRules
  import opened Composition
  import Gate
  import S = RunService
  import SS = RunServiceSteps
  import ST = RunServiceTheorems
  import SH = RunServiceHistory
  import SC = RunServiceConclusions
  import I = SubmissionSystem
  import IF = SubmissionFrames
  import IT = SubmissionTheorems
  import IP = SubmissionFootprint

  // ---- The two views of a step ----

  function ServiceView(a: State, step: Step): S.Step {
    match step
    case ServiceStep(s, _) => s
    case InputStep(_) => S.Elsewhere
    case CreateRun(t, run, fault) => S.CreateCall(t, run, fault)
    case CommitRun(t, now, fault) =>
      if a.input.op.Commit? then S.SubmitCommit(t, FrozenInput(a.input.op.j), a.input.op.j.submission, now, fault)
          else S.Elsewhere
    case Stop => S.Restarts
  }

  lemma IsServiceStep(cfg: S.Config, env: Env, a: State, step: Step, b: State)
    requires Inv(cfg, env, a) && Next(cfg, env, a, step, b)
    ensures S.Next(cfg, a.service, ServiceView(a, step), b.service)
  {
    hide S.Inv, I.Inv, S.Next, I.Next, RunsUntouched, Reads;
    if step.InputStep? {
      InputIsElsewhere(env, a.input, step.i, b.input);
      ElsewhereIsStep(cfg, a.service, b.input.fs);
    }
  }

  /** The submission side sees every step as one of its own, or sees its disk unchanged. */
  lemma IsInputStep(cfg: S.Config, env: Env, a: State, step: Step, b: State) returns (i: I.Step)
    requires Inv(cfg, env, a) && Next(cfg, env, a, step, b)
    ensures b.input == a.input || I.Next(env, a.input, i, b.input)
  {
    hide S.Inv, I.Inv, S.Next, I.HolderNext, I.PutNext, RunsUntouched, Reads, UpdateRun;
    match step
    case ServiceStep(s, _) =>
      OwnFiles(cfg, a.service, s, b.service);
      if b.service.fs == a.service.fs {
        i := I.EnvSync(RunsDir);
      } else if b.service.fs == Sync(a.service.fs, RunsDir) {
        i := I.EnvSync(RunsDir);
      } else {
        var id, m: Mutation, fault :| !m.Submit? && b.service.fs == UpdateRun(a.service.fs, id, m, fault).0;
        i := I.EnvUpdate(id, m, fault);
      }
    case InputStep(own) => i := own;
    case CreateRun(_, run, fault) => i := I.EnvCreate(run, fault);
    case CommitRun(_, now, fault) => i := I.SubmitCommit(now, fault);
    case Stop => i := I.Crash;
  }

  // ---- Frozen inputs ----

  /** What a worker claimed was submitted if it is manual. */
  predicate Submitted(th: S.Thread) {
    th.Checking? && th.run.Manual() ==> th.run.submission.Some?
  }

  ghost predicate ClaimedSubmitted(s: S.State) {
    forall t :: Submitted(S.ThreadAt(s, t))
  }

  lemma ClaimedIsSubmitted(env: Env, s: I.State, th: S.Thread)
    requires I.Inv(env, s) && (th.Checking? ==> ST.HasSnapshot(s.fs, th) && RunAt(s.fs, S.RunOf(th)) == ST.Claimed(th))
    ensures Submitted(th)
  {
    hide I.PutsOk, I.OpOk, I.Records, I.Answers, I.DiskInv;
    if th.Checking? {
      IT.RunIsGood(env, s.fs, th.id, RunAt(s.fs, th.id).value, s.used);
    }
  }

  lemma ClaimsKept(cfg: S.Config, env: Env, s: S.State, step: S.Step, after: S.State, input: I.State)
    requires S.Inv(cfg, s) && I.Inv(env, input) && input.fs == after.fs && ClaimedSubmitted(s)
    requires S.Next(cfg, s, step, after)
    ensures ClaimedSubmitted(after)
  {
    hide S.Snapshots, S.Offered, I.Inv, S.Next, SS.FilesChange, SS.LaunchRule,
         S.Locks, S.OneOwner, S.AllFacts, S.CancelsRegistered, S.LaunchedStarted, S.Tokens, S.Quiet, S.RunsOk;
    ST.StepEffect(cfg, s, step, after);
    forall t ensures Submitted(S.ThreadAt(after, t)) {
      assert Submitted(S.ThreadAt(s, t));
      if S.ThreadAt(after, t).Checking? && step.DoClaim? && S.Actor(step) == t {
        ST.ClaimSnapshot(cfg, s, step, after);
        ClaimedIsSubmitted(env, input, S.ThreadAt(after, t));
      }
    }
  }

  /** The check reads nothing that updates change. */
  lemma CheckReadsInput(env: Env, s: I.State, run: Run, current: Run)
    requires SameInput(run, current) && IT.CheckFrozen(env, s, current)
    ensures IT.CheckFrozen(env, s, run)
  {
    hide ValidJournal, I.NamespaceOk, I.HasRecord;
    JournalNeedsTerms(env, run, current, I.JournalAt(s.fs, run.id).value);
  }

  predicate Frozen(env: Env, s: I.State, th: S.Thread) {
    th.Checking? && th.run.Manual() ==> IT.CheckFrozen(env, s, th.run)
  }

  lemma SubmittedPasses(env: Env, s: I.State, th: S.Thread)
    requires I.Inv(env, s) && s.up && Submitted(th) && (th.Checking? ==> ST.HasSnapshot(s.fs, th))
    ensures Frozen(env, s, th)
  {
    hide I.DiskInv, I.PutsOk, I.OpOk, I.Records, I.Answers, IT.CheckFrozen;
    if th.Checking? && th.run.Manual() {
      var current := RunAt(s.fs, th.id).value;
      IT.RunIsGood(env, s.fs, th.id, current, s.used);
      IT.FrozenNow(env, s, th.id, current);
      CheckReadsInput(env, s, th.run, current);
    }
  }

  lemma QueuedPasses(env: Env, s: I.State, id: string)
    requires I.Inv(env, s) && s.up && QueuedManual(s.fs, id)
    ensures forall r :: RunAt(s.fs, id) == Some(r) ==> IT.CheckFrozen(env, s, r)
  {
    hide I.DiskInv, I.PutsOk, I.OpOk, I.Records, I.Answers, IT.CheckFrozen;
    var r := RunAt(s.fs, id).value;
    IT.RunIsGood(env, s.fs, id, r, s.used);
    IT.FrozenNow(env, s, id, r);
  }

  // ---- Evidence behind conclusions ----

  /** A record with this id is stored for the run, for good. */
  ghost predicate Stored(fs: Fs, run: string, id: string) {
    exists e: EvidenceRef :: e.id == id && Safe(fs, EvidenceName(run, id), EvidenceFile(e))
  }

  ghost predicate AllStored(fs: Fs, run: string, findings: seq<Finding>) {
    forall f, ref :: f in findings && ref in f.evidenceRefs ==> Stored(fs, run, ref)
  }

  lemma InputKeepsStored(env: Env, s: I.State, i: I.Step, after: I.State, run: string, id: string)
    requires I.Inv(env, s) && I.Next(env, s, i, after) && Stored(s.fs, run, id)
    ensures Stored(after.fs, run, id)
  {
    hide I.Inv, I.Next, IF.Gently, IP.Changed, Restart, Safe;
    var e: EvidenceRef :| e.id == id && Safe(s.fs, EvidenceName(run, id), EvidenceFile(e));
    if i.Crash? {
      IP.CrashIsWorld(env, s, after);
      SafeSurvives(s.fs, after.fs, EvidenceName(run, id), EvidenceFile(e));
    } else {
      IP.StepGently(env, s, i, after);
      IF.EvidenceKept(s.fs, after.fs, IP.Changed(s, i), run, e);
    }
  }

  lemma KeepsStored(cfg: S.Config, env: Env, a: State, step: Step, b: State)
    requires Inv(cfg, env, a) && Inv(cfg, env, b) && Next(cfg, env, a, step, b)
    ensures Keeps(a.service.fs, b.service.fs)
  {
    hide S.Inv, I.Inv, I.Next, Next, Stored;
    var i := IsInputStep(cfg, env, a, step, b);
    forall run, id | Stored(a.service.fs, run, id) ensures Stored(b.service.fs, run, id) {
      if b.input != a.input {
        InputKeepsStored(env, a.input, i, b.input, run, id);
      }
    }
  }

  /** Stored evidence stays stored. */
  ghost predicate Keeps(fs: Fs, after: Fs) {
    forall run, id :: Stored(fs, run, id) ==> Stored(after, run, id)
  }

  /** What the evidence store lists for a run is on disk for good. */
  lemma ListedIsStored(env: Env, s: I.State, tenant: string, run: string, records: seq<EvidenceRef>, ref: string)
    requires I.Inv(env, s) && s.up && Listing(s, tenant, run, records) && ref in Gate.IdsOf(records)
    ensures Stored(s.fs, run, ref)
  {
    hide I.DiskInv, I.PutsOk, I.OpOk, I.Answers, Safe;
    var k :| 0 <= k < |records| && records[k].id == ref;
    assert s.recs[ref] == I.Record(tenant, run, records[k]);
  }

  /** What a worker concludes names evidence that is stored at that moment. */
  lemma ConcludedIsStored(cfg: S.Config, env: Env, a: State, step: Step, b: State, t: nat, id: string, given: S.Outcome,
                          records: seq<EvidenceRef>, result: ExecutionResult)
    requires Inv(cfg, env, a) && Next(cfg, env, a, step, b)
    requires ServiceView(a, step) == S.Conclude(t, Ok(records), result)
    requires S.ThreadAt(a.service, t) == S.Concluding(id, given)
    requires forall f :: f in result.result.findings ==> Gate.FindingBacked(f, Gate.IdsOf(records))
    ensures AllStored(a.service.fs, id, result.result.findings)
  {
    hide S.Inv, I.Inv, S.Next, I.Next, Stored, Listing, IT.CheckFrozen;
    ST.WorkerOnly(cfg, a.service, ServiceView(a, step), b.service);
    var run := RunAt(a.service.fs, id).value;
    forall f, ref | f in result.result.findings && ref in f.evidenceRefs ensures Stored(a.service.fs, id, ref) {
      assert Gate.FindingBacked(f, Gate.IdsOf(records));
      ListedIsStored(env, a.input, run.Tenant(), id, records, ref);
    }
  }

  lemma {:induction false} StoredStays(cfg: S.Config, env: Env, states: seq<State>, steps: seq<Step>, i: nat, j: nat,
                                       run: string, findings: seq<Finding>)
    requires Trace(cfg, env, states, steps) && i <= j < |states| && AllStored(states[i].service.fs, run, findings)
    ensures AllStored(states[j].service.fs, run, findings)
    decreases j - i
  {
    hide Inv, Next, Sound, Stored;
    if i < j {
      StoredStays(cfg, env, states, steps, i, j - 1, run, findings);
      Reachable(cfg, env, states, steps);
      assert states[j - 1] in states && states[j] in states;
      assert Next(cfg, env, states[j - 1], steps[j - 1], states[j - 1 + 1]);
      KeepsStored(cfg, env, states[j - 1], steps[j - 1], states[j]);
    }
  }

  // ---- The service's own view of a run of both systems ----

  function ServiceStates(states: seq<State>): seq<S.State> {
    seq(|states|, i requires 0 <= i < |states| => states[i].service)
  }

  function ServiceSteps(states: seq<State>, steps: seq<Step>): seq<S.Step> {
    seq(|steps|, i requires 0 <= i < |steps| => if i < |states| then ServiceView(states[i], steps[i]) else S.Elsewhere)
  }

  lemma ServiceTrace(cfg: S.Config, env: Env, states: seq<State>, steps: seq<Step>)
    requires Trace(cfg, env, states, steps)
    ensures ST.Trace(cfg, ServiceStates(states), ServiceSteps(states, steps))
  {
    hide Inv, Next, S.Next, Sound, ServiceView, S.Fresh;
    Reachable(cfg, env, states, steps);
    var services, views := ServiceStates(states), ServiceSteps(states, steps);
    forall i | 0 <= i < |views| ensures S.Next(cfg, services[i], views[i], services[i + 1]) {
      assert states[i] in states && Next(cfg, env, states[i], steps[i], states[i + 1]);
      IsServiceStep(cfg, env, states[i], steps[i], states[i + 1]);
    }
  }

  // ---- Every reachable state ----

  lemma {:induction false} ClaimsThroughout(cfg: S.Config, env: Env, states: seq<State>, steps: seq<Step>)
    requires Trace(cfg, env, states, steps)
    ensures forall a :: a in states ==> Inv(cfg, env, a) && ClaimedSubmitted(a.service)
    decreases |steps|
  {
    hide S.Inv, I.Inv, Next, Sound, ClaimedSubmitted;
    Reachable(cfg, env, states, steps);
    if steps == [] {
      NothingYet(cfg);
    } else {
      var n := |steps|;
      Shorter(cfg, env, states, steps);
      ClaimsThroughout(cfg, env, states[..n], steps[..n - 1]);
      var a, b := states[n - 1], states[n];
      assert a in states[..n] && b in states;
      IsServiceStep(cfg, env, a, steps[n - 1], b);
      ClaimsKept(cfg, env, a.service, ServiceView(a, steps[n - 1]), b.service, b.input);
      assert states == states[..n] + [b];
    }
  }

  lemma NothingYet(cfg: S.Config)
    ensures ClaimedSubmitted(S.Fresh(cfg, EMPTY, map[]))
  {
  }

  /** No worker ever finds an honestly submitted input changed: whatever it claimed passes the frozen-input check,
      also if the run was cancelled meanwhile; and so does every queued manual run, in every interleaving of
      submissions, uploads, appends, executions, failures and restarts. */
  lemma HonestInputsAreNeverRejected(cfg: S.Config, env: Env, states: seq<State>, steps: seq<Step>, a: State)
    requires Trace(cfg, env, states, steps) && a in states && a.input.up
    ensures forall t :: Frozen(env, a.input, S.ThreadAt(a.service, t))
    ensures forall id, r :: QueuedManual(a.service.fs, id) && RunAt(a.service.fs, id) == Some(r) ==>
        IT.CheckFrozen(env, a.input, r)
  {
    hide Trace, S.Core, S.Offered, I.Inv, IT.CheckFrozen, Submitted, Frozen;
    ClaimsThroughout(cfg, env, states, steps);
    forall t ensures Frozen(env, a.input, S.ThreadAt(a.service, t)) {
      assert Submitted(S.ThreadAt(a.service, t));
      SubmittedPasses(env, a.input, S.ThreadAt(a.service, t));
    }
    forall id, r | QueuedManual(a.service.fs, id) && RunAt(a.service.fs, id) == Some(r)
      ensures IT.CheckFrozen(env, a.input, r) {
      QueuedPasses(env, a.input, id);
    }
  }

  /** Only a failing read makes a worker end a run for its input, or Start refuse to start. */
  lemma OnlyFailingReadsReject(cfg: S.Config, env: Env, states: seq<State>, steps: seq<Step>, a: State, step: S.Step,
                               broken: bool, b: State)
    requires Trace(cfg, env, states, steps) && a in states
    requires Next(cfg, env, a, ServiceStep(step, broken), b) && Rejects(step)
    ensures broken
  {
    hide Trace, S.Inv, I.Inv, S.Next, I.Next, IT.CheckFrozen;
    HonestInputsAreNeverRejected(cfg, env, states, steps, a);
    if step.CheckFail? {
      FailsAtCheck(cfg, a.service, step, b.service);
      assert Frozen(env, a.input, S.ThreadAt(a.service, step.t));
    } else {
      assert forall id :: QueuedManual(a.service.fs, id) ==> RunAt(a.service.fs, id).Some?;
    }
  }

  /** The frozen-input check turns a run down, or keeps the service from starting. */
  predicate Rejects(step: S.Step) {
    match step
    case CheckFail(_, code, _) => code == INTEGRITY
    case BootCheck(ok) => !ok
    case _ => false
  }

  lemma FailsAtCheck(cfg: S.Config, s: S.State, step: S.Step, after: S.State)
    requires S.Next(cfg, s, step, after)
    ensures step.CheckFail? ==> S.ThreadAt(s, S.Actor(step)).Checking?
  {
    hide S.Next, S.BeginNext, S.EndNext, S.ExecutionAllowed, UpdateRun;
    if step.CheckFail? {
      ST.WorkerOnly(cfg, s, step, after);
    }
  }

  /** The executor of this run returned this, in some step of the run of both systems. */
  ghost predicate Returned(states: seq<State>, steps: seq<Step>, id: string, given: S.Outcome) {
    exists i: nat, t, broken ::
      && i < |steps| && i < |states| && steps[i] == ServiceStep(S.ExecutorReturns(t, given), broken)
      && S.ThreadAt(states[i].service, t) == S.Executing(id)
  }

  /** In every reachable state: a run stored as succeeded or partial, in any version a power loss may bring back,
      keeps the very output that its own executor returned in some step before, that output passed the gate of the
      run's agent, and every evidence reference of every stored finding names a record that is on disk for good under
      that run. */
  lemma ConclusionsRestOnEvidence(cfg: S.Config, lib: Gate.Library, env: Env, states: seq<State>, steps: seq<Step>,
                                  n: nat, id: string, r: Run)
    returns (given: S.Outcome, records: seq<EvidenceRef>, result: RunResult)
    requires SC.GatedBy(cfg, lib) && Trace(cfg, env, states, steps) && n < |states|
    requires HasRun(states[n].service.fs, id, r) && S.Good(r.status)
    ensures Returned(states, steps, id, given) && given.err == NoError && r.result == Some(result)
    ensures Gate.Conclusion(lib, r.terms.agentId, given.result, records, result, r.status)
    ensures AllStored(states[n].service.fs, id, result.findings)
    ensures forall f :: f in result.findings && (f.severity == "high" || f.severity == "critical") ==>
      f.evidenceRefs != []
  {
    hide Inv, Next, Sound, Gate.Trustworthy, Stored, SC.GatedBy, ST.Trace;
    Reachable(cfg, env, states, steps);
    ServiceTrace(cfg, env, states, steps);
    var services, views := ServiceStates(states), ServiceSteps(states, steps);
    var a: SH.Account;
    a, records, result := SC.ConclusionsAreEarned(cfg, lib, services, views, n, id, r);
    given := a.given;
    WasReturned(states, steps, id, a);
    var c := a.concluded;
    assert states[c] in states && Next(cfg, env, states[c], steps[c], states[c + 1]);
    ConcludedIsStored(cfg, env, states[c], steps[c], states[c + 1], a.worker, id, given, records, a.result);
    StoredStays(cfg, env, states, steps, c, n, id, result.findings);
  }

  lemma WasReturned(states: seq<State>, steps: seq<Step>, id: string, a: SH.Account)
    requires |states| == |steps| + 1 && SH.Executed(ServiceStates(states), ServiceSteps(states, steps), id, a)
    ensures Returned(states, steps, id, a.given)
  {
    assert steps[a.returned].ServiceStep?;
  }
}
