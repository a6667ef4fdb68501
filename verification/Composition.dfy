/** The run service and the manual submission as one system over one disk. */
module Composition {
  import opened Domain
  import opened Runs
  import opened RunUpdates
  import opened Disk
  import opened RunFiles
  import opened Strings
  import opened InputRules
  import Creation
  import Evidence
  import S = RunService
  import SS = RunServiceSteps
  import ST = RunServiceTheorems
  import I = SubmissionSystem
  import IS = SubmissionSteps
  import IT = SubmissionTheorems

  datatype State = State(service: S.State, input: I.State)

  /** A step of the service, a step of the submission side, one of the two that both take part in, or a restart. */
  datatype Step =
    | ServiceStep(s: S.Step, broken: bool)   // `broken` when a read the step makes fails
    | InputStep(i: I.Step)
    | CreateRun(thread: nat, run: Run, fault: Fault)
    | CommitRun(thread: nat, now: int, fault: Fault)
    | Stop

  predicate OwnStep(s: S.Step) {
    !s.Elsewhere? && !s.CreateCall? && !s.SubmitCommit? && !s.Restarts?
  }

  predicate OwnInputStep(i: I.Step) {
    !i.SubmitCommit? && !i.EnvUpdate? && !i.EnvCreate? && !i.Crash?
  }

  const INTEGRITY := "input_integrity_failed"

  ghost predicate QueuedManual(fs: Fs, id: string) {
    match RunAt(fs, id)
    case Some(r) => r.status == Queued && r.Manual()
    case None => false
  }

  /** The listing of the evidence store for a run and a tenant. */
  ghost predicate Listing(s: I.State, tenant: string, run: string, records: seq<EvidenceRef>) {
    && (forall i :: 0 <= i < |records| ==>
        records[i].id in s.recs && s.recs[records[i].id] == I.Record(tenant, run, records[i]))
    && (forall e :: e in s.recs && s.recs[e].run == run && s.recs[e].tenant == tenant ==> s.recs[e].evidence in records)
  }

  /** Where the service reads what the submission side keeps: the check of frozen inputs at start and by a worker,
      and the evidence a worker's conclusion is checked against. */
  ghost predicate Reads(a: State, env: Env, s: S.Step, broken: bool) {
    match s
    case CheckPass(t) =>
      S.ThreadAt(a.service, t).Checking? && a.service.threads[t].run.Manual() ==>
          IT.CheckFrozen(env, a.input, a.service.threads[t].run)
    case CheckFail(t, code, _) =>
      S.ThreadAt(a.service, t).Checking? ==>
        var run := a.service.threads[t].run;
        if code == INTEGRITY then run.Manual() && (broken || !IT.CheckFrozen(env, a.input, run))
        else run.Manual() ==> IT.CheckFrozen(env, a.input, run)
    case BootCheck(ok) =>
      if ok then forall id :: QueuedManual(a.service.fs, id) ==>
          IT.CheckFrozen(env, a.input, RunAt(a.service.fs, id).value)
      else broken || exists id ::
          QueuedManual(a.service.fs, id) && !IT.CheckFrozen(env, a.input, RunAt(a.service.fs, id).value)
    case Conclude(t, records, _) =>
      S.ThreadAt(a.service, t).Concluding? && RunAt(a.service.fs, a.service.threads[t].id).Some? && records.Ok? ==>
        Listing(a.input, RunAt(a.service.fs, a.service.threads[t].id).value.Tenant(), a.service.threads[t].id,
                records.value)
    case _ => true
  }

  ghost predicate Next(cfg: S.Config, env: Env, a: State, step: Step, b: State) {
    match step
    case ServiceStep(s, broken) =>
      OwnStep(s) && a.input.up && Reads(a, env, s, broken) && S.Next(cfg, a.service, s, b.service) &&
          b.input == a.input.(fs := b.service.fs)
    case InputStep(i) =>
      OwnInputStep(i) && I.Next(env, a.input, i, b.input) && b.service == a.service.(fs := b.input.fs)
    case CreateRun(t, run, fault) =>
      && S.Next(cfg, a.service, S.CreateCall(t, run, fault), b.service)
      && I.Next(env, a.input, I.EnvCreate(run, fault), b.input)
    case CommitRun(t, now, fault) =>
      && a.input.op.Commit? && S.ThreadAt(a.service, t) == S.Submitting(a.input.op.run.id)
      && S.Next(cfg, a.service, S.SubmitCommit(t, FrozenInput(a.input.op.j), a.input.op.j.submission, now, fault),
                b.service)
      && I.Next(env, a.input, I.SubmitCommit(now, fault), b.input)
    case Stop =>
      S.Next(cfg, a.service, S.Restarts, b.service) && I.Next(env, a.input, I.Crash, b.input) &&
          b.input.fs == b.service.fs
  }

  ghost predicate Inv(cfg: S.Config, env: Env, a: State) {
    a.service.fs == a.input.fs && S.Inv(cfg, a.service) && I.Inv(env, a.input)
  }

  /** The files a step of the service itself changes: none but for a sync, or by one of its updates, none of them
      a submission. */
  ghost predicate ServiceFiles(fs: Fs, after: Fs) {
    || after == fs || after == Sync(fs, RunsDir)
    || exists id, m: Mutation, fault :: !m.Submit? && after == UpdateRun(fs, id, m, fault).0
  }

  lemma OwnFiles(cfg: S.Config, s: S.State, step: S.Step, after: S.State)
    requires S.Next(cfg, s, step, after) && OwnStep(step)
    ensures ServiceFiles(s.fs, after.fs)
  {
    hide S.Next, UpdateRun, SS.LaunchRule, ST.NothingNew;
    ST.StepEffect(cfg, s, step, after);
    if SS.StepUpdate(cfg, s, step).Some? {
      var u := SS.StepUpdate(cfg, s, step).value;
      assert !u.1.Submit? && after.fs == UpdateRun(s.fs, u.0, u.1, u.2).0;
    }
  }

  /** To the submission side every step of the service is a step of its environment. */
  lemma ServiceIsEnvironment(env: Env, s: I.State, fs: Fs)
    requires I.Inv(env, s) && s.up && ServiceFiles(s.fs, fs)
    ensures I.Inv(env, s.(fs := fs))
  {
    hide I.Inv, UpdateRun;
    if fs != s.fs {
      if fs == Sync(s.fs, RunsDir) {
        IS.EnvSyncKeeps(env, s, RunsDir);
      } else {
        var id, m: Mutation, fault :| !m.Submit? && fs == UpdateRun(s.fs, id, m, fault).0;
        IS.EnvUpdateKeeps(env, s, id, m, fault, s.(fs := fs));
      }
    }
  }

  lemma SyncArtifactUntouched(fs: Fs, run: string)
    ensures RunsUntouched(fs, I.SyncArtifact(fs, run)) && RunsUntouched(fs, I.SyncEvidence(fs))
    ensures RunsUntouched(fs, Sync(Sync(fs, RunsDir), JournalsDir))
  {
  }

  lemma OtherUntouched(fs: Fs, n: Name, node: Node, d: Dir)
    requires !n.RunName?
    ensures RunsUntouched(fs, Publish(fs, n, node)) && RunsUntouched(fs, Mkdir(fs, n))
    ensures RunsUntouched(fs, Remove(fs, n))
    ensures RunsUntouched(fs, Sync(fs, d)) && RunsUntouched(fs, fs)
  {
  }

  lemma HolderUntouched(env: Env, s: I.State, i: I.Step, after: I.State)
    requires I.HolderNext(env, s, i, after) && !i.SubmitCommit?
    ensures RunsUntouched(s.fs, after.fs)
  {
    hide RunsUntouched, I.Stepped, I.MayAppend, Evidence.Normalize, Sync, I.HasRecord, RunAt, I.ArtifactIdOk,
         I.IsReserved, Minted, NewJournal;
    OtherUntouched(s.fs, JournalsFolder, Folder, RunsDir);
    if i.SubmitStep? {
      StepUntouched(env, s);
    } else if i.AppendStart? {
      SyncArtifactUntouched(s.fs, "");
    }
  }

  lemma StepUntouched(env: Env, s: I.State)
    requires I.Steps(s.op)
    ensures RunsUntouched(s.fs, I.Stepped(env, s).fs)
  {
    hide RunsUntouched, ValidJournal, ValidateArtifact, I.NamespaceOk, I.MayAppend, Evidence.Normalize, Mkdir,
         Publish, Sync, I.SyncArtifact, I.JournalAt, I.MetaAt, I.BytesAt, I.HasRecord;
    OtherUntouched(s.fs, JournalsFolder, Folder, JournalsDir);
    match s.op
    case ReadArtifact(run, _, _) => SyncArtifactUntouched(s.fs, run.id);
    case WriteJournal(_, run, j) =>
      OtherUntouched(s.fs, JournalName(run.id), JournalFile(j), StateRoot);
    case Append(_, _, id, e, _) =>
      OtherUntouched(s.fs, EvidenceFolder(id), Folder, EvidenceRoot);
      OtherUntouched(s.fs, EvidenceName(id, e.id), EvidenceFile(e), EvidenceDir(id));
    case _ =>
  }

  lemma PutUntouched(env: Env, s: I.State, i: I.Step, after: I.State)
    requires I.PutNext(env, s, i, after)
    ensures RunsUntouched(s.fs, after.fs)
  {
    hide RunsUntouched, RunAt, Minted, Publish, Mkdir, Remove, Sync, I.Kept;
    OtherUntouched(s.fs, JournalsFolder, Folder, ArtifactRoot);
    if i.PutData? || i.PutStep? || i.PutFail? {
      var p := s.puts[i.put];
      OtherUntouched(s.fs, ArtifactFolder(p.run), Folder, ArtifactDir(p.run));
      OtherUntouched(s.fs, MetaFolder(p.run), Folder, MetaDir(p.run));
      OtherUntouched(s.fs, BytesName(p.run, p.id), BytesFile(if i.PutData? then i.data else []), ArtifactRoot);
      if p.ref.Some? {
        OtherUntouched(s.fs, MetaName(p.run, p.id), MetaFile(p.ref.value), ArtifactRoot);
      }
    }
  }

  /** To the service every step of the submission side but the commit is work on other files. */
  lemma InputIsElsewhere(env: Env, s: I.State, i: I.Step, after: I.State)
    requires I.Next(env, s, i, after) && OwnInputStep(i)
    ensures RunsUntouched(s.fs, after.fs)
  {
    hide I.HolderNext, I.PutNext, RunsUntouched, I.Loaded, Sync, I.SyncEvidence;
    if I.OfHolder(i) {
      HolderUntouched(env, s, i, after);
    } else if I.OfUpload(i) {
      PutUntouched(env, s, i, after);
    } else if i.EnvSync? {
      OtherUntouched(s.fs, JournalsFolder, Folder, i.d);
    } else {
      SyncArtifactUntouched(s.fs, "");
    }
  }

  lemma ElsewhereIsStep(cfg: S.Config, s: S.State, fs: Fs)
    requires RunsUntouched(s.fs, fs)
    ensures S.Next(cfg, s, S.Elsewhere, s.(fs := fs))
  {
  }

  lemma CreateFiles(cfg: S.Config, env: Env, a: State, t: nat, run: Run, fault: Fault, b: State)
    requires Next(cfg, env, a, CreateRun(t, run, fault), b) && a.service.fs == a.input.fs
    ensures b.service.fs == b.input.fs
  {
    hide RunFiles.CreateRun, History, I.Created, S.Next, I.HolderNext, I.PutNext, SS.LaunchRule, ST.NothingNew;
    ST.StepEffect(cfg, a.service, S.CreateCall(t, run, fault), b.service);
  }

  lemma CommitFiles(cfg: S.Config, env: Env, a: State, t: nat, now: int, fault: Fault, b: State)
    requires Next(cfg, env, a, CommitRun(t, now, fault), b) && a.service.fs == a.input.fs
    ensures b.service.fs == b.input.fs
  {
    hide UpdateRun, S.Next, I.PutNext, I.WorldNext, I.Stepped, I.StartSubmit, SS.LaunchRule, ST.NothingNew;
    ST.StepEffect(cfg, a.service, S.SubmitCommit(t, FrozenInput(a.input.op.j), a.input.op.j.submission, now, fault),
                  b.service);
  }

  lemma NextKeeps(cfg: S.Config, env: Env, a: State, step: Step, b: State)
    requires Sound(env) && Inv(cfg, env, a) && Next(cfg, env, a, step, b)
    ensures Inv(cfg, env, b)
  {
    hide S.Inv, I.Inv, S.Next, I.Next, Sound, ServiceFiles, RunsUntouched, Reads;
    match step
    case ServiceStep(s, _) =>
      ST.NextKeeps(cfg, a.service, s, b.service);
      OwnFiles(cfg, a.service, s, b.service);
      ServiceIsEnvironment(env, a.input, b.service.fs);
    case InputStep(i) =>
      IS.NextKeeps(env, a.input, i, b.input);
      InputIsElsewhere(env, a.input, i, b.input);
      ElsewhereIsStep(cfg, a.service, b.input.fs);
      ST.NextKeeps(cfg, a.service, S.Elsewhere, b.service);
    case CreateRun(t, run, fault) =>
      CreateFiles(cfg, env, a, t, run, fault, b);
      ST.NextKeeps(cfg, a.service, S.CreateCall(t, run, fault), b.service);
      IS.NextKeeps(env, a.input, I.EnvCreate(run, fault), b.input);
    case CommitRun(t, now, fault) =>
      CommitFiles(cfg, env, a, t, now, fault, b);
      ST.NextKeeps(cfg, a.service, S.SubmitCommit(t, FrozenInput(a.input.op.j), a.input.op.j.submission, now, fault),
                   b.service);
      IS.NextKeeps(env, a.input, I.SubmitCommit(now, fault), b.input);
    case Stop =>
      ST.NextKeeps(cfg, a.service, S.Restarts, b.service);
      IS.NextKeeps(env, a.input, I.Crash, b.input);
  }

  ghost predicate Trace(cfg: S.Config, env: Env, states: seq<State>, steps: seq<Step>) {
    && |states| == |steps| + 1 && states[0] == State(S.Fresh(cfg, EMPTY, map[]), I.INIT) && Sound(env)
    && forall i :: 0 <= i < |steps| ==> Next(cfg, env, states[i], steps[i], states[i + 1])
  }

  /** Over one disk, both systems keep all they promise, whatever the interleaving of the two. */
  lemma {:induction false} Reachable(cfg: S.Config, env: Env, states: seq<State>, steps: seq<Step>)
    requires Trace(cfg, env, states, steps)
    ensures forall a :: a in states ==> Inv(cfg, env, a)
    decreases |steps|
  {
    hide S.Inv, I.Inv, Next, Sound;
    if steps == [] {
      ST.InitInv(cfg);
      IS.InitInv(env);
    } else {
      var n := |steps|;
      Shorter(cfg, env, states, steps);
      Reachable(cfg, env, states[..n], steps[..n - 1]);
      assert states[n - 1] in states[..n];
      NextKeeps(cfg, env, states[n - 1], steps[n - 1], states[n]);
      assert states == states[..n] + [states[n]];
    }
  }

  lemma Shorter(cfg: S.Config, env: Env, states: seq<State>, steps: seq<Step>)
    requires Trace(cfg, env, states, steps) && steps != []
    ensures Trace(cfg, env, states[..|steps|], steps[..|steps| - 1])
    ensures Next(cfg, env, states[|steps| - 1], steps[|steps| - 1], states[|steps|])
  {
    hide Next, Sound;
    var n := |steps| - 1;
    forall i | 0 <= i < n ensures Next(cfg, env, states[..n + 1][i], steps[..n][i], states[..n + 1][i + 1]) {
      assert Next(cfg, env, states[i], steps[i], states[i + 1]);
    }
    assert Next(cfg, env, states[n], steps[n], states[n + 1]);
  }

  /** What CreateRun stores for any accepted request is what both sides take a new run to be. */
  lemma CreatedRunsEnter(env: Env, agent: Creation.Agent, unrestricted: bool, q: Creation.Request, id: string, now: int)
    requires Creation.Prepare(env.lib, agent, unrestricted, env.limit, q).Ok? && Minted("run", id)
    ensures I.Created(env, Creation.RunFor(id, agent,
                                           Creation.Prepare(env.lib, agent, unrestricted, env.limit, q).value, now))
  {
    hide Creation.Prepare, Creation.RunFor, History, Creation.ValidCreation, Minted, TrimSpace;
    var r := Creation.RunFor(id, agent, Creation.Prepare(env.lib, agent, unrestricted, env.limit, q).value, now);
    Creation.CreatedRunIsGood(env.lib, agent, unrestricted, env.limit, q, id, now);
    MintedIsIdentifier("run", id);
    TrimFixed(r.Tenant());
  }
}
