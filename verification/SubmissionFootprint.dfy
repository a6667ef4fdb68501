/** The one name each step of the submission system may change, and where the records and
    metadata it publishes come from. */
module SubmissionFootprint {
  import opened Prelude
  import opened Utf8
  import opened Domain
  import opened RunUpdates
  import opened Disk
  import opened RunFiles
  import opened Evidence
  import opened InputRules
  import opened SubmissionSystem
  import opened SubmissionFrames
  import opened SubmissionSteps
  import opened SubmissionTheorems

  /** The name the next step of an operation writes to. */
  function OpTarget(op: Op): Name {
    match op
    case WriteJournal(stage, run, _) =>
      if stage == MakeFolder then JournalsFolder else if stage == Link then JournalName(run.id) else NOWHERE
    case Append(stage, _, id, e, _) =>
      if stage == MakeFolder then EvidenceFolder(id) else if stage == Link then EvidenceName(id, e.id) else NOWHERE
    case _ => NOWHERE
  }

  function PutTarget(p: Put): Name {
    match p.stage
    case PutFolder => ArtifactFolder(p.run)
    case PutCreate => BytesName(p.run, p.id)
    case PutMetaFolder => MetaFolder(p.run)
    case PutMeta => MetaName(p.run, p.id)
    case _ => NOWHERE
  }

  function StepTarget(s: State, step: Step): Name {
    match step
    case SubmitStep => OpTarget(s.op)
    case SubmitCommit(_, _) => if s.op.Commit? then RunName(s.op.run.id) else NOWHERE
    case PutStep(k) => match PutAt(s, k) { case Some(p) => PutTarget(p) case None => NOWHERE }
    case PutData(k, _, _, _, _) => match PutAt(s, k) { case Some(p) => BytesName(p.run, p.id) case None => NOWHERE }
    case PutFail(k, removed) =>
        match PutAt(s, k) { case Some(p) => if removed then BytesName(p.run, p.id) else NOWHERE case None => NOWHERE }
    case EnvUpdate(id, _, _) => RunName(id)
    case EnvCreate(run, _) => RunName(run.id)
    case _ => NOWHERE
  }

  /** What is published is new: a step that finds its name there already changes nothing. */
  function Changed(s: State, step: Step): Name {
    var n := StepTarget(s, step);
    if (WriteOnce(n) || n.BytesName?) && n in s.fs.visible && !step.PutData? && !step.PutFail? then NOWHERE else n
  }

  lemma MkdirGently(fs: Fs, f: Name)
    requires IsFolder(f)
    ensures Gently(fs, Mkdir(fs, f), if f in fs.visible then NOWHERE else f)
  {
    if f in fs.visible {
      CalmGently(fs, fs);
    }
  }

  lemma OpGently(env: Env, s: State)
    requires Inv(env, s) && Steps(s.op)
    ensures Gently(s.fs, Stepped(env, s).fs, Changed(s, SubmitStep))
  {
    hide Inv, Gently, Sync, SyncArtifact, Mkdir, ValidJournal, ValidateArtifact, Normalize, MayAppend,
         NamespaceOk, HasRecord, JournalAt, MetaAt, Publish;
    var after := Stepped(env, s);
    if IsFolder(OpTarget(s.op)) {
      MkdirGently(s.fs, OpTarget(s.op));
    } else if OpTarget(s.op) == NOWHERE || OpTarget(s.op) in s.fs.visible {
      OpCalm(env, s);
      CalmGently(s.fs, after.fs);
    } else {
      LinkGently(env, s);
    }
  }

  lemma OpCalm(env: Env, s: State)
    requires Steps(s.op) && !IsFolder(OpTarget(s.op)) && (OpTarget(s.op) == NOWHERE || OpTarget(s.op) in s.fs.visible)
    ensures Calm(s.fs, Stepped(env, s).fs)
  {
    hide Normalize, MayAppend, NamespaceOk, ValidJournal, ValidateArtifact, Mkdir, Publish, SyncArtifact, HasRecord;
    if s.op.ReadArtifact? {
      SyncArtifactCalm(s.fs, s.op.run.id);
    }
  }

  lemma LinkGently(env: Env, s: State)
    requires Inv(env, s) && Steps(s.op) && (OpTarget(s.op).JournalName? || OpTarget(s.op).EvidenceName?)
    requires OpTarget(s.op) !in s.fs.visible
    ensures Gently(s.fs, Stepped(env, s).fs, OpTarget(s.op))
  {
    hide StoreInv, Layout, Artifacts, Journals, Reserves, Submissions, AllUsed, PutsOk, OpOk, Records, Answers,
         Gently, Publish, Shapes;
    if s.op.WriteJournal? {
      PublishShape(env, s.fs, OpTarget(s.op), JournalFile(s.op.j));
    } else {
      PublishShape(env, s.fs, OpTarget(s.op), EvidenceFile(s.op.e));
    }
  }

  lemma BytesGently(fs: Fs, run: string, id: string, data: Bytes)
    requires MetaFree(fs, id)
    ensures Gently(fs, Publish(fs, BytesName(run, id), BytesFile(data)), BytesName(run, id))
    ensures Gently(fs, Remove(fs, BytesName(run, id)), BytesName(run, id))
  {
    hide MetaFree;
  }

  lemma UnpublishedIsFree(env: Env, s: State, k: nat, p: Put)
    requires PutsOk(env, s) && PutAt(s, k) == Some(p) && p.stage.Unpublished()
    ensures MetaFree(s.fs, p.id)
  {
    hide MetaFree, StoredBytes, Registered, Describes, Minted, Stable;
  }

  lemma PutGently(env: Env, s: State, step: Step, after: State)
    requires Inv(env, s) && PutNext(env, s, step, after)
    ensures Gently(s.fs, after.fs, Changed(s, step))
  {
    hide DiskInv, PutsOk, OpOk, Records, Answers, Gently, StepPut, Publish, Remove, Sync, MetaFree, Minted, Kept;
    CalmGently(s.fs, s.fs);
    if step.PutStep? {
      PutStepGently(env, s, step.put, s.puts[step.put]);
    } else if step.PutData? || (step.PutFail? && step.removed) {
      var p := s.puts[step.put];
      UnpublishedIsFree(env, s, step.put, p);
      BytesGently(s.fs, p.run, p.id, if step.PutData? then step.data else []);
    }
  }

  lemma PutStepGently(env: Env, s: State, k: nat, p: Put)
    requires Inv(env, s) && PutAt(s, k) == Some(p) && Moves(p)
    ensures Gently(s.fs, StepPut(s, k, p).fs, Changed(s, PutStep(k)))
  {
    hide StoreInv, Layout, Artifacts, Journals, Reserves, Submissions, AllUsed, Shapes, PutsOk, OpOk, Records,
         Answers, Gently, Mkdir, Publish, Sync, MetaFree;
    CalmGently(s.fs, s.fs);
    if IsFolder(PutTarget(p)) {
      MkdirGently(s.fs, PutTarget(p));
    } else if p.stage == PutCreate {
      UnpublishedIsFree(env, s, k, p);
      BytesGently(s.fs, p.run, p.id, []);
    } else if p.stage == PutMeta {
      if MetaName(p.run, p.id) !in s.fs.visible {
        PublishShape(env, s.fs, MetaName(p.run, p.id), MetaFile(p.ref.value));
      }
    } else {
      PutCalm(s, k, p);
      CalmGently(s.fs, StepPut(s, k, p).fs);
    }
  }

  lemma PutCalm(s: State, k: nat, p: Put)
    requires p.stage != PutMeta && p.stage != PutCreate && !IsFolder(PutTarget(p))
    ensures Calm(s.fs, StepPut(s, k, p).fs)
  {
  }

  lemma HolderGently(env: Env, s: State, step: Step, after: State)
    requires Inv(env, s) && HolderNext(env, s, step, after)
    ensures Gently(s.fs, after.fs, Changed(s, step))
  {
    hide Inv, Gently, Stepped, UpdateRun, Normalize, MayAppend, IsReserved, Minted, NewJournal, HasRecord,
         ArtifactIdOk, RunAt;
    if step.SubmitStep? {
      OpGently(env, s);
    } else if step.SubmitCommit? {
      RunGently(env, s, s.op.run.id, Submit(FrozenInput(s.op.j), s.op.j.submission, step.now), step.fault);
    } else {
      CalmGently(s.fs, after.fs);
    }
  }

  lemma RunGently(env: Env, s: State, id: string, m: Mutation, fault: Fault)
    requires Inv(env, s)
    ensures Gently(s.fs, UpdateRun(s.fs, id, m, fault).0, RunName(id))
  {
    hide DiskInv, PutsOk, OpOk, Records, Answers, Gently, UpdateRun;
    UpdateShape(env, s.fs, id, m, fault, s.used);
  }

  /** Every step but a crash changes its one name gently. */
  lemma StepGently(env: Env, s: State, step: Step, after: State)
    requires Inv(env, s) && Next(env, s, step, after) && !step.Crash?
    ensures Gently(s.fs, after.fs, Changed(s, step))
  {
    hide Inv, Gently, HolderNext, PutNext, UpdateRun, CreateRun, Created, Loaded, Changed;
    if OfHolder(step) {
      HolderGently(env, s, step, after);
    } else if OfUpload(step) {
      PutGently(env, s, step, after);
    } else {
      WorldGently(env, s, step, after);
    }
  }

  lemma WorldGently(env: Env, s: State, step: Step, after: State)
    requires Inv(env, s) && WorldNext(env, s, step, after) && !step.Crash?
    ensures Gently(s.fs, after.fs, Changed(s, step))
  {
    hide DiskInv, PutsOk, OpOk, Records, Answers, Gently, UpdateRun, CreateRun, Loaded, Created;
    match step
    case EnvSync(d) =>
      SyncCalm(s.fs, d);
      CalmGently(s.fs, after.fs);
    case EnvUpdate(id, m, fault) => RunGently(env, s, id, m, fault);
    case EnvCreate(run, fault) => CreateShape(env, s.fs, run, fault, s.used);
    case Boot =>
      EvidenceSyncCalm(s.fs);
      CalmGently(s.fs, after.fs);
    case _ =>
  }

  // ---- What is new after a step ----

  /** The append under way links this record now. */
  ghost predicate Links(op: Op, step: Step, run: string, x: string, e: EvidenceRef) {
    match op
    case Append(stage, _, id, f, _) => step.SubmitStep? && stage == Link && run == id && x == f.id && e == f
    case _ => false
  }

  /** New evidence is the record of the append under way. */
  lemma NewEvidence(env: Env, s: State, step: Step, after: State, run: string, x: string, e: EvidenceRef)
    requires Inv(env, s) && Next(env, s, step, after) && !step.Crash? && HasEvidence(after.fs, run, x, e)
    requires !HasEvidence(s.fs, run, x, e)
    ensures Links(s.op, step, run, x, e) && Changed(s, step) == EvidenceName(run, x)
  {
    hide Inv, Next, Changed, Links;
    StepGently(env, s, step, after);
    assert Changed(s, step) == EvidenceName(run, x);
    LinksItsRecord(env, s, step, after, run, x, e);
  }

  lemma LinksItsRecord(env: Env, s: State, step: Step, after: State, run: string, x: string, e: EvidenceRef)
    requires Next(env, s, step, after) && Changed(s, step) == EvidenceName(run, x)
    requires HasEvidence(after.fs, run, x, e) && !HasEvidence(s.fs, run, x, e)
    ensures Links(s.op, step, run, x, e)
  {
    hide PutNext, WorldNext, ReadJournal, ReadMeta, ReadInput, StepJournal, ReadEvidence, CommitRun, StartSubmit,
         Normalize, Minted, NewJournal;
  }

  predicate AppendsTo(op: Op, run: string) {
    op.Append? && op.id == run
  }

  /** A new evidence folder is the one the append under way makes. */
  lemma NewFolder(env: Env, s: State, step: Step, after: State, run: string)
    requires Inv(env, s) && Next(env, s, step, after) && !step.Crash? && EvidenceFolder(run) in after.fs.visible
    requires EvidenceFolder(run) !in s.fs.visible
    ensures AppendsTo(s.op, run)
  {
    hide Inv, Next;
    StepGently(env, s, step, after);
    assert Lookup(after.fs, EvidenceFolder(run)) != Lookup(s.fs, EvidenceFolder(run));
  }

  // ---- Accepted inputs ----

  lemma CrashIsWorld(env: Env, s: State, after: State)
    requires Next(env, s, Crash, after)
    ensures WorldNext(env, s, Crash, after)
  {
  }

  lemma StepKeepsArtifact(env: Env, s: State, step: Step, after: State, run: string, a: ArtifactRef)
    requires Inv(env, s) && Next(env, s, step, after) && ArtifactSafe(env, s.fs, run, a)
    ensures ArtifactSafe(env, after.fs, run, a)
  {
    hide Inv, HolderNext, PutNext, Gently, Changed, Restart, StoredBytes, UpdateRun, CreateRun, Created, Loaded, Safe;
    if step.Crash? {
      CrashIsWorld(env, s, after);
      LossBytes(env, s.fs, after.fs, run, a);
      SafeSurvives(s.fs, after.fs, MetaName(run, a.id), MetaFile(a));
    } else {
      StepGently(env, s, step, after);
      ArtifactSafeKept(env, s.fs, after.fs, Changed(s, step), run, a);
    }
  }

  lemma {:induction false} ArtifactStays(env: Env, states: seq<State>, steps: seq<Step>, i: nat, j: nat, run: string,
                                         a: ArtifactRef)
    requires Trace(env, states, steps) && i <= j < |states| && ArtifactSafe(env, states[i].fs, run, a)
    ensures ArtifactSafe(env, states[j].fs, run, a)
    decreases j - i
  {
    hide Inv, Next, Sound, ArtifactSafe;
    if i < j {
      ArtifactStays(env, states, steps, i, j - 1, run, a);
      Reachable(env, states, steps);
      assert states[j - 1] in states;
      assert Next(env, states[j - 1], steps[j - 1], states[j - 1 + 1]);
      StepKeepsArtifact(env, states[j - 1], steps[j - 1], states[j], run, a);
    }
  }

  /** The submission under way has just accepted its artifact. */
  ghost predicate Accepts(s: State, step: Step, after: State) {
    s.op.ReadArtifact? && step.SubmitStep? && !after.op.Free?
  }

  lemma AcceptedNow(env: Env, s: State, step: Step, after: State, run: Run, known: Option<Journal>, a: ArtifactRef)
    requires Inv(env, s) && Next(env, s, step, after) && s.op == ReadArtifact(run, known, a) && Accepts(s, step, after)
    ensures ArtifactSafe(env, after.fs, run.id, a) && MatchesManifest(run, a)
  {
    hide DiskInv, PutsOk, Records, Answers, StoredBytes, Safe, SyncArtifact, KeptCopy, JournalSafe, PutNext, WorldNext;
    ArtifactIsSafe(env, s.fs, run.id, a, s.used);
  }

  /** Metadata and bytes of the artifact are durable, and they pass the check of the submission. */
  ghost predicate Accepted(env: Env, fs: Fs, run: Run, a: ArtifactRef) {
    && Safe(fs, MetaName(run.id, a.id), MetaFile(a)) && BytesAt(fs, run.id, a.id).Ok?
    && Safe(fs, BytesName(run.id, a.id), BytesFile(BytesAt(fs, run.id, a.id).value))
    && ValidateArtifact(env, run, a, BytesAt(fs, run.id, a.id)).Ok?
  }

  /** What a submission once accepted is accepted for good: over every later step, failure and crash its metadata
      and bytes are durable and they pass the same check again. */
  lemma AcceptedForGood(env: Env, states: seq<State>, steps: seq<Step>, i: nat, j: nat, run: Run,
                        known: Option<Journal>, a: ArtifactRef)
    requires Trace(env, states, steps) && i < j < |states| && states[i].op == ReadArtifact(run, known, a)
    requires Accepts(states[i], steps[i], states[i + 1])
    ensures Accepted(env, states[j].fs, run, a)
  {
    hide Inv, Next, Sound, Safe;
    Reachable(env, states, steps);
    assert states[i] in states;
    assert Next(env, states[i], steps[i], states[i + 1]);
    AcceptedNow(env, states[i], steps[i], states[i + 1], run, known, a);
    ArtifactStays(env, states, steps, i + 1, j, run.id, a);
  }
}
