/** SubmitRun as one call: its stages in order, any of which may fail, and what it answers. */
module SubmitService {
  import opened Prelude
  import opened Utf8
  import opened Domain
  import opened Runs
  import opened RunUpdates
  import opened Disk
  import opened RunFiles
  import opened Evidence
  import opened InputRules
  import opened SubmissionSystem
  import opened SubmissionSteps
  import opened SubmissionTheorems
  import Creation

  /** Some steps of the submission system lead from `a` to `b`. */
  ghost predicate Reaches(env: Env, a: State, b: State) {
    exists states, steps :: Path(env, states, steps, a, b)
  }

  ghost predicate Path(env: Env, states: seq<State>, steps: seq<Step>, a: State, b: State) {
    && |states| == |steps| + 1 && states[0] == a && states[|steps|] == b
    && forall i :: 0 <= i < |steps| ==> Next(env, states[i], steps[i], states[i + 1])
  }

  lemma Stays(env: Env, a: State)
    ensures Reaches(env, a, a)
  {
    hide Next;
    assert Path(env, [a], [], a, a);
  }

  lemma OneMore(env: Env, a: State, b: State, step: Step, c: State)
    requires Reaches(env, a, b) && Next(env, b, step, c)
    ensures Reaches(env, a, c)
  {
    hide Next;
    var states, steps :| Path(env, states, steps, a, b);
    assert Path(env, states + [c], steps + [step], a, c) by {
      forall i | 0 <= i < |steps| + 1 ensures Next(env, (states + [c])[i], (steps + [step])[i], (states + [c])[i + 1]) {
        assert i < |steps| ==> Next(env, states[i], steps[i], states[i + 1]);
      }
    }
  }

  function StageRank(stage: Stage): nat {
    match stage
    case MakeFolder => 4
    case SyncParent => 3
    case Link => 2
    case SyncFolder => 1
  }

  /** Steps left before the call ends. */
  function StepsLeft(op: Op): nat {
    match op
    case Free => 0
    case Uploading(_) => 0
    case FindJournal(_, _) => 14
    case FindArtifact(_, _, _) => 13
    case ReadArtifact(_, _, _) => 12
    case MintEvidence(_, _) => 11
    case WriteJournal(stage, _, _) => 6 + StageRank(stage)
    case FindEvidence(_, _) => 6
    case Append(stage, _, _, _, _) => 1 + StageRank(stage)
    case Commit(_, _) => 1
  }

  lemma StepsFewer(env: Env, s: State)
    requires Steps(s.op)
    ensures StepsLeft(Stepped(env, s).op) < StepsLeft(s.op) && !Stepped(env, s).op.Uploading?
  {
    hide ValidJournal, ValidateArtifact, NamespaceOk, MayAppend, Normalize, Mkdir, Publish, Sync, SyncArtifact,
         JournalAt, MetaAt, BytesAt, HasRecord, StepJournal, StepAppend;
    match s.op
    case WriteJournal(stage, run, j) => JournalFewer(s, stage, run, j);
    case Append(stage, tenant, id, e, next) => AppendFewer(s, stage, tenant, id, e, next);
    case _ =>
  }

  lemma JournalFewer(s: State, stage: Stage, run: Run, j: Journal)
    ensures StepsLeft(StepJournal(s, stage, run, j).op) < 6 + StageRank(stage)
    ensures !StepJournal(s, stage, run, j).op.Uploading?
  {
    hide Mkdir, Publish, Sync;
  }

  lemma AppendFewer(s: State, stage: Stage, tenant: string, id: string, e: EvidenceRef, next: Then)
    ensures StepsLeft(StepAppend(s, stage, tenant, id, e, next).op) < 1 + StageRank(stage)
    ensures !StepAppend(s, stage, tenant, id, e, next).op.Uploading?
  {
    hide Mkdir, Publish, Sync;
  }

  lemma StepsStayUp(env: Env, s: State)
    requires Steps(s.op)
    ensures Stepped(env, s).up == s.up && Stepped(env, s).used == s.used && Stepped(env, s).puts == s.puts
  {
    hide ValidJournal, ValidateArtifact, NamespaceOk, MayAppend, Normalize, Mkdir, Publish, Sync, SyncArtifact,
         JournalAt, MetaAt, BytesAt, HasRecord;
  }

  // ---- When nothing fails ----

  /** The run can still be submitted. */
  predicate Open(fs: Fs, id: string) {
    match RunAt(fs, id)
    case Some(run) => run.status == Preparing && run.submission.None?
    case None => false
  }

  /** A first submission of `j.artifact` will write `j`. */
  predicate First(env: Env, fs: Fs, run: Run, j: Journal, evidence: string, at: int) {
    && run.terms.manifest.Some? && j == NewJournal(env, run, j.artifact, evidence, at)
    && MetaAt(fs, run.id, j.artifact.id) == Some(j.artifact)
    && ValidateArtifact(env, run, j.artifact, BytesAt(fs, run.id, j.artifact.id)).Ok?
  }

  /** Without a failure the call will commit `j`: the journal found, or the one a first submission writes. */
  predicate Known(env: Env, fs: Fs, run: Run, known: Option<Journal>, j: Journal, evidence: string, at: int) {
    match known
    case Some(k) => k == j
    case None => First(env, fs, run, j, evidence, at)
  }

  predicate OnTrack(env: Env, s: State, id: string, j: Journal, evidence: string, at: int) {
    Open(s.fs, id) &&
    match s.op
    case FindJournal(run, artifact) =>
      run.id == id && artifact == j.artifact.id && Known(env, s.fs, run, JournalAt(s.fs, id), j, evidence, at)
    case FindArtifact(run, artifact, known) =>
      run.id == id && artifact == j.artifact.id && Known(env, s.fs, run, known, j, evidence, at)
    case ReadArtifact(run, known, a) =>
      run.id == id && a == j.artifact && Known(env, s.fs, run, known, j, evidence, at)
    case MintEvidence(run, a) => run.id == id && a == j.artifact && First(env, s.fs, run, j, evidence, at)
    case WriteJournal(_, run, k) => run.id == id && k == j
    case FindEvidence(run, k) => run.id == id && k == j
    case Append(_, _, run, e, ToCommit(r, k)) => run == id && k == j && r.id == id && e == j.evidence
    case Commit(run, k) => run.id == id && k == j
    case _ => false
  }

  lemma CalmOpen(fs: Fs, after: Fs, id: string)
    requires Calm(fs, after)
    ensures Open(fs, id) <==> Open(after, id)
    ensures forall run, a ::
        MetaAt(after, run, a) == MetaAt(fs, run, a) && BytesAt(after, run, a) == BytesAt(fs, run, a)
  {
  }

  lemma PublishOpen(fs: Fs, n: Name, node: Node, id: string)
    requires !n.RunName?
    ensures Open(fs, id) <==> Open(Publish(fs, n, node), id)
    ensures Open(fs, id) <==> Open(Mkdir(fs, n), id)
  {
  }

  lemma JournalTrack(env: Env, s: State, run: Run, artifact: string, id: string, j: Journal, evidence: string, at: int)
    requires Inv(env, s) && s.op == Op.FindJournal(run, artifact) && OnTrack(env, s, id, j, evidence, at)
    ensures OnTrack(env, ReadJournal(env, s, run, artifact), id, j, evidence, at)
  {
    hide Shapes, Layout, Artifacts, Reserves, Submissions, AllUsed, PutsOk, Records, Answers, ArtifactSafe,
         GoodRun, Open, ValidateArtifact, ValidJournal, NewJournal, Sync, History;
    SyncCalm(s.fs, JournalsDir);
    CalmOpen(s.fs, Sync(s.fs, JournalsDir), id);
    if JournalAt(s.fs, id).Some? {
      assert HasJournal(s.fs, id, j) && JournalBacked(env, s.fs, id, j);
      assert Candidate(s.fs, RunName(id), Lookup(s.fs, RunName(id)));
      JournalNeedsTerms(env, RunAt(s.fs, id).value, run, j);
    }
  }

  lemma ArtifactTrack(env: Env, s: State, run: Run, artifact: string, known: Option<Journal>, id: string, j: Journal,
                      evidence: string, at: int)
    requires Inv(env, s) && s.op == Op.FindArtifact(run, artifact, known) && OnTrack(env, s, id, j, evidence, at)
    ensures OnTrack(env, ReadMeta(s, run, artifact, known), id, j, evidence, at)
  {
    hide DiskInv, PutsOk, Records, Answers, ArtifactSafe, GoodRun, Open, ValidateArtifact, ValidJournal,
         NewJournal, JournalSafe, KeptRun;
    if known.Some? {
      JournalFacts(env, s.fs, run, j, s.used);
    }
  }

  /** A stored valid input passes again. */
  lemma ValidAgain(env: Env, fs: Fs, run: Run, j: Journal)
    requires ValidJournal(env, run, j) && ArtifactSafe(env, fs, run.id, j.artifact)
    ensures ValidateArtifact(env, run, j.artifact, BytesAt(fs, run.id, j.artifact.id)).Ok?
  {
    hide Safe;
  }

  lemma InputTrack(env: Env, s: State, run: Run, known: Option<Journal>, a: ArtifactRef, id: string, j: Journal,
                   evidence: string, at: int)
    requires Inv(env, s) && s.op == ReadArtifact(run, known, a) && OnTrack(env, s, id, j, evidence, at)
    ensures OnTrack(env, ReadInput(env, s, run, known, a), id, j, evidence, at)
  {
    hide DiskInv, PutsOk, Records, Answers, ArtifactSafe, GoodRun, Open, ValidateArtifact, ValidJournal,
         NewJournal, JournalSafe, KeptRun, SyncArtifact;
    SyncArtifactCalm(s.fs, id);
    CalmOpen(s.fs, SyncArtifact(s.fs, id), id);
    if known.Some? {
      JournalFacts(env, s.fs, run, j, s.used);
      ValidAgain(env, s.fs, run, j);
    }
  }

  lemma WriteTrack(env: Env, s: State, stage: Stage, run: Run, id: string, j: Journal, evidence: string, at: int)
    requires Inv(env, s) && s.op == WriteJournal(stage, run, j) && OnTrack(env, s, id, j, evidence, at)
    ensures OnTrack(env, StepJournal(s, stage, run, j), id, j, evidence, at)
  {
    hide DiskInv, PutsOk, Records, Answers, ArtifactSafe, GoodRun, Open, ValidJournal, KeptRun, EvidenceFree,
         JournalFree, Sync, Publish, Mkdir;
    SyncCalm(s.fs, StateRoot);
    SyncCalm(s.fs, JournalsDir);
    CalmOpen(s.fs, Sync(s.fs, StateRoot), id);
    CalmOpen(s.fs, Sync(s.fs, JournalsDir), id);
    PublishOpen(s.fs, JournalName(id), JournalFile(j), id);
    PublishOpen(s.fs, JournalsFolder, Folder, id);
  }

  lemma RecordHeld(s: State, x: string, r: Record)
    requires Records(s) && s.up && x in s.recs && s.recs[x] == r
    ensures HasEvidence(s.fs, r.run, x, r.evidence) && BelongsTo(s.fs, r.run, r.tenant)
  {
    assert Candidate(s.fs, EvidenceName(r.run, x), Lookup(s.fs, EvidenceName(r.run, x)));
  }

  /** What memory holds under this id, if anything. */
  function InMemory(s: State, x: string): Option<Record> {
    if x in s.recs then Some(s.recs[x]) else None
  }

  /** Memory either holds the journal's record or no record of that id. */
  lemma RecordIsOurs(env: Env, s: State, run: Run, j: Journal)
    requires Inv(env, s) && s.up && KeptCopy(env, s.fs, run) && JournalSafe(s.fs, run.id, j)
    ensures InMemory(s, j.evidence.id) in {None, Some(Record(run.Tenant(), run.id, j.evidence))}
    ensures forall e :: Lookup(s.fs, EvidenceName(run.id, j.evidence.id)) == Some(EvidenceFile(e)) ==> e == j.evidence
    ensures Normalize(j.evidence) == Ok(j.evidence) && Bound(j.evidence, ArtifactsOf(s.fs, run.id))
    ensures NamespaceOk(run.Tenant(), run.id)
  {
    hide StoreInv, Shapes, Layout, Artifacts, Journals, Submissions, AllUsed, PutsOk, OpOk, Answers, GoodRun,
         NamespaceOk, Normalize, Bound;
    JournalRecordIsNormal(env, s.fs, run, j, s.used);
    SafeIsHeld(s.fs, run.id, j);
    var x := j.evidence.id;
    if x in s.recs {
      RecordHeld(s, x, s.recs[x]);
    }
    assert forall e :: Lookup(s.fs, EvidenceName(run.id, x)) == Some(EvidenceFile(e)) ==>
        HasEvidence(s.fs, run.id, x, e);
  }

  lemma EvidenceTrack(env: Env, s: State, run: Run, id: string, j: Journal, evidence: string, at: int)
    requires Inv(env, s) && s.up && s.op == Op.FindEvidence(run, j) && OnTrack(env, s, id, j, evidence, at)
    ensures OnTrack(env, ReadEvidence(s, run, j), id, j, evidence, at)
  {
    hide DiskInv, PutsOk, Records, Answers, GoodRun, NamespaceOk, Normalize, Bound, JournalSafe;
    RecordIsOurs(env, s, run, j);
  }

  lemma AppendTrack(env: Env, s: State, stage: Stage, tenant: string, run: Run, id: string, j: Journal,
                    evidence: string, at: int)
    requires Inv(env, s) && s.up && s.op == Append(stage, tenant, id, j.evidence, ToCommit(run, j))
    requires OnTrack(env, s, id, j, evidence, at)
    ensures OnTrack(env, StepAppend(s, stage, tenant, id, j.evidence, ToCommit(run, j)), id, j, evidence, at)
  {
    hide DiskInv, PutsOk, Records, Answers, GoodRun, Normalize, JournalSafe, Open, Sync, Publish, Mkdir, KeptRun,
         Bound, NamespaceOk;
    SyncCalm(s.fs, EvidenceRoot);
    SyncCalm(s.fs, EvidenceDir(id));
    CalmOpen(s.fs, Sync(s.fs, EvidenceRoot), id);
    CalmOpen(s.fs, Sync(s.fs, EvidenceDir(id)), id);
    PublishOpen(s.fs, EvidenceName(id, j.evidence.id), EvidenceFile(j.evidence), id);
    PublishOpen(s.fs, EvidenceFolder(id), Folder, id);
    RecordIsOurs(env, s, run, j);
    EvidenceHeld(env, s.fs, id, j.evidence.id, s.used);
  }

  lemma EvidenceHeld(env: Env, fs: Fs, run: string, x: string, used: set<string>)
    requires DiskInv(env, fs, used)
    ensures match Lookup(fs, EvidenceName(run, x)) { case Some(node) => node.EvidenceFile? case None => true }
  {
    hide StoreInv, Layout, Artifacts, Journals, Reserves, Submissions, AllUsed;
    var held := Lookup(fs, EvidenceName(run, x));
    assert held.Some? ==> Candidate(fs, EvidenceName(run, x), Some(held.value));
  }

  /** A step without a failure stays on track. */
  lemma StepTrack(env: Env, s: State, id: string, j: Journal, evidence: string, at: int)
    requires Inv(env, s) && s.up && Steps(s.op) && OnTrack(env, s, id, j, evidence, at)
    ensures OnTrack(env, Stepped(env, s), id, j, evidence, at)
  {
    hide Inv, OnTrack, ReadJournal, ReadMeta, ReadInput, StepJournal, ReadEvidence, StepAppend;
    match s.op
    case FindJournal(run, artifact) => JournalTrack(env, s, run, artifact, id, j, evidence, at);
    case FindArtifact(run, artifact, known) => ArtifactTrack(env, s, run, artifact, known, id, j, evidence, at);
    case ReadArtifact(run, known, a) => InputTrack(env, s, run, known, a, id, j, evidence, at);
    case WriteJournal(stage, run, k) =>
      TrackFixes(env, s, id, j, evidence, at);
      WriteTrack(env, s, stage, run, id, j, evidence, at);
    case FindEvidence(run, k) =>
      TrackFixes(env, s, id, j, evidence, at);
      EvidenceTrack(env, s, run, id, j, evidence, at);
    case Append(stage, tenant, _, e, next) =>
      TrackFixes(env, s, id, j, evidence, at);
      AppendTrack(env, s, stage, tenant, next.run, id, j, evidence, at);
  }

  /** Past the mint the operation carries the very journal. */
  lemma TrackFixes(env: Env, s: State, id: string, j: Journal, evidence: string, at: int)
    requires OnTrack(env, s, id, j, evidence, at)
    ensures match s.op
            case WriteJournal(_, _, k) => k == j
            case FindEvidence(_, k) => k == j
            case Append(_, _, run, e, next) =>
                run == id && next.ToCommit? && next == ToCommit(next.run, j) && e == j.evidence
            case Commit(run, k) => run.id == id && k == j
            case _ => true
  {
  }

  // ---- The call ----

  lemma StartTrack(env: Env, s: State, id: string, run: Run, j: Journal, evidence: string, at: int)
    requires Inv(env, s) && s.op.Free? && Open(s.fs, id) && RunAt(s.fs, id) == Some(run) && run.Manual()
    requires ArtifactIdOk(j.artifact.id)
    requires Known(env, s.fs, run, JournalAt(s.fs, id), j, evidence, at)
    ensures OnTrack(env, StartSubmit(env, s, id, j.artifact.id), id, j, evidence, at)
    ensures StartSubmit(env, s, id, j.artifact.id).op.FindJournal?
  {
    hide DiskInv, PutsOk, Records, Answers, OpOk, ValidateArtifact, NewJournal, Sync, ArtifactIdOk;
    RunIsGood(env, s.fs, id, run, s.used);
    SyncCalm(s.fs, RunsDir);
    CalmOpen(s.fs, Sync(s.fs, RunsDir), id);
  }

  /** A journalled artifact has an id that SubmitRun accepts. */
  lemma JournalArtifactId(env: Env, fs: Fs, id: string, j: Journal, used: set<string>)
    requires DiskInv(env, fs, used) && JournalAt(fs, id) == Some(j)
    ensures ArtifactIdOk(j.artifact.id)
  {
    hide StoreInv, Layout, Artifacts, Reserves, Submissions, AllUsed, ValidIdentifier, ByteLen, ValidJournal,
         StoredBytes, Minted;
    assert HasJournal(fs, id, j) && JournalBacked(env, fs, id, j);
    SafeMeta(fs, id, j.artifact);
    assert Candidate(fs, MetaName(id, j.artifact.id), Some(MetaFile(j.artifact)));
    assert Shape(env, MetaName(id, j.artifact.id), MetaFile(j.artifact));
    MintedIsIdentifier("art", j.artifact.id);
    IdentifierShape(j.artifact.id);
  }

  /** The state after the mint of the journal's evidence id. */
  function Mint(env: Env, s: State, run: Run, a: ArtifactRef, evidence: string, at: int): State {
    s.(used := s.used + {evidence},
       op := if HasRecord(s, run.Tenant(), run.id, evidence) then Free
             else WriteJournal(MakeFolder, run, NewJournal(env, run, a, evidence, at)))
  }

  lemma MintStays(env: Env, s: State, run: Run, a: ArtifactRef, id: string, j: Journal, evidence: string, at: int)
    requires Inv(env, s) && s.up && s.op == MintEvidence(run, a) && OnTrack(env, s, id, j, evidence, at)
    requires evidence !in s.used
    ensures OnTrack(env, Mint(env, s, run, a, evidence, at), id, j, evidence, at)
  {
    hide StoreInv, Shapes, Layout, Artifacts, Journals, Reserves, Submissions, PutsOk, Answers, Open,
         ValidateArtifact, NewJournal, ArtifactSafe, Minted;
    UnusedIsFree(s.fs, s.used, evidence);
    if evidence in s.recs {
      RecordHeld(s, evidence, s.recs[evidence]);
      assert false;
    }
  }

  predicate BeforeMint(op: Op) { op.FindJournal? || op.FindArtifact? || op.ReadArtifact? || op.MintEvidence? }

  predicate ForArtifact(known: Option<Journal>, artifact: string) {
    match known
    case Some(j) => j.artifact.id == artifact
    case None => true
  }

  /** The operation under way is this call's. */
  predicate ForCall(op: Op, id: string, artifact: string) {
    match op
    case Free => true
    case Uploading(_) => false
    case FindJournal(run, x) => run.id == id && x == artifact
    case FindArtifact(run, x, known) => run.id == id && x == artifact && ForArtifact(known, artifact)
    case ReadArtifact(run, known, a) => run.id == id && a.id == artifact && ForArtifact(known, artifact)
    case MintEvidence(run, a) => run.id == id && a.id == artifact
    case WriteJournal(_, run, k) => run.id == id && k.artifact.id == artifact
    case FindEvidence(run, k) => run.id == id && k.artifact.id == artifact
    case Append(_, _, _, _, ToCommit(run, k)) => run.id == id && k.artifact.id == artifact
    case Append(_, _, _, _, ToCaller) => false
    case Commit(run, k) => run.id == id && k.artifact.id == artifact
  }

  /** A journal stands in the way of another artifact. */
  predicate Stray(s: State, id: string, artifact: string, j: Journal) {
    JournalAt(s.fs, id) == Some(j) && Open(s.fs, id) && artifact != j.artifact.id
  }

  predicate StillStray(s: State, id: string, artifact: string, j: Journal) {
    match s.op
    case Free => true
    case FindJournal(run, x) =>
        run.id == id && x == artifact && JournalAt(s.fs, id) == Some(j) && artifact != j.artifact.id
    case _ => false
  }

  /** The call will succeed if nothing fails. */
  predicate Hopeful(env: Env, s: State, id: string, j: Journal, evidence: string, at: int) {
    && Open(s.fs, id)
    && match RunAt(s.fs, id)
       case None => false
       case Some(run) =>
         && run.Manual() && Known(env, s.fs, run, JournalAt(s.fs, id), j, evidence, at)
         && (JournalAt(s.fs, id).None? ==> ArtifactIdOk(j.artifact.id))
  }

  ghost predicate CallInv(env: Env, before: State, s: State, id: string, artifact: string, j: Journal,
                          evidence: string) {
    && Inv(env, s) && s.up && Reaches(env, before, s) && ForCall(s.op, id, artifact)
    && (BeforeMint(s.op) ==> evidence !in s.used)
    && (Stray(before, id, artifact, j) ==> StillStray(s, id, artifact, j))
  }

  lemma CallBegins(env: Env, s: State, id: string, run: Run, artifact: string, j: Journal, evidence: string)
    requires Inv(env, s) && s.up && s.op.Free? && RunAt(s.fs, id) == Some(run) && evidence !in s.used
    ensures CallInv(env, s, StartSubmit(env, s, id, artifact), id, artifact, j, evidence)
  {
    hide Inv, Sync, ArtifactIdOk, Reaches, DiskInv, Stepped, CommitRun, PutNext, WorldNext, IsReserved,
         Normalize, Minted;
    var after, step := StartSubmit(env, s, id, artifact), SubmitStart(run.Tenant(), id, artifact);
    SyncCalm(s.fs, RunsDir);
    RunHasId(env, s, id, run);
    Stays(env, s);
    HolderKeeps(env, s, step, after);
    OneMore(env, s, s, step, after);
  }

  lemma RunHasId(env: Env, s: State, id: string, run: Run)
    requires Inv(env, s) && RunAt(s.fs, id) == Some(run)
    ensures run.id == id
  {
    hide DiskInv, PutsOk, OpOk, Records, Answers;
    RunIsGood(env, s.fs, id, run, s.used);
  }

  lemma CallSteps(env: Env, before: State, s: State, id: string, artifact: string, j: Journal, evidence: string)
    requires CallInv(env, before, s, id, artifact, j, evidence) && Steps(s.op)
    ensures CallInv(env, before, Stepped(env, s), id, artifact, j, evidence)
  {
    hide Inv, Stepped, Reaches, ForCall, StillStray, Stray;
    StepKeeps(env, s);
    OneMore(env, before, s, SubmitStep, Stepped(env, s));
    StepsFewer(env, s);
    StepsStayUp(env, s);
    CallStays(env, s, id, artifact);
    if Stray(before, id, artifact, j) {
      StrayStops(env, s, id, artifact, j);
    }
  }

  lemma CallStays(env: Env, s: State, id: string, artifact: string)
    requires Inv(env, s) && Steps(s.op) && ForCall(s.op, id, artifact)
    ensures ForCall(Stepped(env, s).op, id, artifact)
  {
    hide DiskInv, PutsOk, OpOk, Records, Answers, ValidJournal, ValidateArtifact, NamespaceOk, MayAppend,
         Normalize, Mkdir, Publish, Sync, SyncArtifact, HasRecord, Minted, StoredBytes;
    if s.op.FindArtifact? && MetaAt(s.fs, s.op.run.id, s.op.artifact).Some? {
      MetaIsRegistered(env, s.fs, s.op.run.id, s.op.artifact, MetaAt(s.fs, s.op.run.id, s.op.artifact).value, s.used);
    }
  }

  lemma StrayStops(env: Env, s: State, id: string, artifact: string, j: Journal)
    requires StillStray(s, id, artifact, j) && Steps(s.op)
    ensures StillStray(Stepped(env, s), id, artifact, j)
  {
  }

  lemma CallMints(env: Env, before: State, s: State, run: Run, a: ArtifactRef, id: string, artifact: string,
                  j: Journal, evidence: string, at: int)
    requires CallInv(env, before, s, id, artifact, j, evidence) && s.op == MintEvidence(run, a)
    requires Minted("input", evidence) && at != 0
    ensures CallInv(env, before, Mint(env, s, run, a, evidence, at), id, artifact, j, evidence)
  {
    hide Reaches, Stray, Minted, HasRecord, DiskInv, PutsOk, Records, Answers, ArtifactSafe, KeptRun, GoodRun,
         Stepped, StartSubmit, CommitRun, PutNext, WorldNext, IsReserved, RunAt, Normalize;
    var after, step := Mint(env, s, run, a, evidence, at), SubmitMint(evidence, at);
    assert Next(env, s, step, after);
    HolderKeeps(env, s, step, after);
    OneMore(env, before, s, step, after);
  }

  lemma CallGivesUp(env: Env, before: State, s: State)
    requires Inv(env, s) && s.up && Reaches(env, before, s) && !s.op.Uploading?
    ensures Inv(env, s.(op := Free)) && Reaches(env, before, s.(op := Free))
  {
    hide Inv, Reaches;
    HolderOnly(env, s, Free);
    if !s.op.Free? {
      OneMore(env, before, s, Abort, s.(op := Free));
    }
  }

  /** The write of the submission succeeds. */
  predicate CommitsRun(s: State, run: Run, j: Journal, now: int, fault: Fault) {
    UpdateRun(s.fs, run.id, Submit(FrozenInput(j), j.submission, now), fault).1.Ok?
  }

  /** What the commit answers, and that without a failure it succeeds. */
  lemma CallCommits(env: Env, before: State, s: State, run: Run, k: Journal, id: string, artifact: string, j: Journal,
                    evidence: string, now: int, fault: Fault,
                    after: State)
    requires CallInv(env, before, s, id, artifact, j, evidence) && s.op == Commit(run, k)
    requires after == CommitRun(s, run, k, now, fault)
    ensures Inv(env, after) && Reaches(env, before, after) && after.op.Free?
    ensures CommitsRun(s, run, k, now, fault) ==> Ack(id, artifact, k.submission) in after.acks
    ensures !Stray(before, id, artifact, j)
  {
    hide Inv, Reaches, UpdateRun, Stray, Stepped, StartSubmit, PutNext, WorldNext, IsReserved, Normalize, Minted, RunAt;
    assert Next(env, s, SubmitCommit(now, fault), after);
    HolderKeeps(env, s, SubmitCommit(now, fault), after);
    OneMore(env, before, s, SubmitCommit(now, fault), after);
  }

  lemma OpenCommits(fs: Fs, id: string, inputs: seq<InputRef>, submission: Submission, now: int)
    requires Open(fs, id)
    ensures UpdateRun(fs, id, Submit(inputs, submission, now), NoFault).1.Ok?
  {
    hide PutRun;
  }

  predicate Accepts(env: Env, run: Run, artifact: string) {
    ArtifactIdOk(artifact) && run.Manual() && Creation.ValidCreation(env.lib, run)
  }

  /** What a run that was submitted before answers. */
  function Earlier(env: Env, run: Run, artifact: string): Option<Submission> {
    match run.submission
    case Some(submission) =>
        if Accepts(env, run, artifact) && submission.artifactId == artifact then Some(submission) else None
    case None => None
  }

  lemma HopefulStarts(env: Env, s: State, id: string, j: Journal, evidence: string, at: int)
    requires Inv(env, s) && s.op.Free? && Hopeful(env, s, id, j, evidence, at)
    ensures RunAt(s.fs, id).Some?
    ensures OnTrack(env, StartSubmit(env, s, id, j.artifact.id), id, j, evidence, at)
    ensures StartSubmit(env, s, id, j.artifact.id).op.FindJournal?
  {
    hide DiskInv, PutsOk, OpOk, Records, Answers, First, OnTrack, ArtifactIdOk;
    if JournalAt(s.fs, id).Some? {
      JournalArtifactId(env, s.fs, id, j, s.used);
    }
    StartTrack(env, s, id, RunAt(s.fs, id).value, j, evidence, at);
  }

  lemma CallState(env: Env, before: State, s: State, id: string, artifact: string, j: Journal, evidence: string)
    requires CallInv(env, before, s, id, artifact, j, evidence)
    ensures Inv(env, s) && s.up && Reaches(env, before, s) && (BeforeMint(s.op) ==> evidence !in s.used)
    ensures s.op.Free? || s.op.MintEvidence? || s.op.Commit? || Steps(s.op)
  {
    hide Inv, Reaches, Stray, StillStray;
  }

  lemma StartAnswers(env: Env, s: State, id: string, run: Run, artifact: string, submission: Submission)
    requires RunAt(s.fs, id) == Some(run) && s.op.Free? && Earlier(env, run, artifact) == Some(submission)
    ensures Ack(id, artifact, submission) in StartSubmit(env, s, id, artifact).acks
  {
    hide ArtifactIdOk, Sync;
  }

  /** A run that was submitted is not one that a journal for another artifact still keeps waiting. */
  lemma EarlierIsSubmitted(env: Env, s: State, id: string, run: Run, artifact: string, j: Journal)
    requires RunAt(s.fs, id) == Some(run) && Earlier(env, run, artifact).Some?
    ensures !Stray(s, id, artifact, j)
  {
  }

  lemma MintFewer(env: Env, s: State, run: Run, a: ArtifactRef, evidence: string, at: int)
    requires s.op == MintEvidence(run, a)
    ensures StepsLeft(Mint(env, s, run, a, evidence, at).op) < StepsLeft(s.op)
  {
  }

  lemma FreeIsOff(env: Env, s: State, id: string, j: Journal, evidence: string, at: int)
    requires s.op.Free?
    ensures !OnTrack(env, s, id, j, evidence, at)
  {
  }

  lemma CommitTrack(env: Env, s: State, run: Run, k: Journal, id: string, j: Journal, evidence: string, at: int,
                    now: int)
    requires s.op == Commit(run, k) && OnTrack(env, s, id, j, evidence, at)
    ensures k == j && run.id == id && CommitsRun(s, run, k, now, NoFault)
  {
    hide UpdateRun;
    OpenCommits(s.fs, id, FrozenInput(j), j.submission, now);
  }

  /** The service's side of SubmitRun. `budget` counts the store operations that still succeed; the next one fails. */
  class InputService {
    const env: Env
    var s: State
    var budget: nat

    method Io() returns (ok: bool)
      modifies this`budget
      ensures ok == (old(budget) > 0) && budget == if ok then old(budget) - 1 else 0
    {
      ok := budget > 0;
      if ok {
        budget := budget - 1;
      }
    }

    /** Submits `artifact` for run `id`; `evidence`, `at` and `now` are what id.New and the clock return if they
        are asked, and `broken` is where the write of the run goes wrong if it is the operation that fails. */
    method SubmitRun(tenant: string, id: string, artifact: string, evidence: string, at: int, now: int, broken: Fault,
                     ghost j: Journal)
      returns (r: Option<Submission>)
      requires Inv(env, s) && s.up && s.op.Free?
      requires Minted("input", evidence) && evidence !in s.used && at != 0
      modifies this
      ensures Inv(env, s) && Reaches(env, old(s), s) && s.op.Free?
      ensures r.Some? ==> Ack(id, artifact, r.value) in s.acks
      // The run was the tenant's, and now carries the answered submission, of this artifact, and the input that names
      // it.
      ensures r.Some? ==> RunAt(old(s).fs, id).Some? && RunAt(old(s).fs, id).value.terms.scope.tenantId == tenant
      ensures r.Some? ==> r.value.artifactId == artifact && Carries(env, s, id, r.value)
      // A journalled run is submitted with its journal's artifact or not at all, whatever fails.
      ensures Stray(old(s), id, artifact, j) ==> r == None
      // If nothing fails, the answer is the journal's submission, or that of the journal a first submission writes.
      ensures (artifact == j.artifact.id && Hopeful(env, old(s), id, j, evidence, at)
               && BelongsTo(old(s).fs, id, tenant) && old(budget) >= 16) ==>
                r == Some(j.submission)
    {
      hide Inv, Next, Stepped, StartSubmit, CommitRun, OnTrack, Minted, NewJournal, Reaches, Stray, Hopeful,
           CallInv, UpdateRun, Mint, ForCall, Earlier, CommitsRun, Carries;
      ghost var before := s;
      ghost var hopeful := artifact == j.artifact.id && Hopeful(env, s, id, j, evidence, at) && budget >= 16;
      Stays(env, s);
      if hopeful {
        HopefulStarts(env, s, id, j, evidence, at);
      }
      if !BelongsTo(s.fs, id, tenant) {
        return None;
      }
      var ok := Io();
      if !ok {
        return None;
      }
      var run := RunAt(s.fs, id).value;
      CallBegins(env, s, id, run, artifact, j, evidence);
      CallState(env, before, StartSubmit(env, s, id, artifact), id, artifact, j, evidence);
      var earlier := Earlier(env, run, artifact);
      if earlier.Some? {
        StartAnswers(env, s, id, run, artifact, earlier.value);
        EarlierIsSubmitted(env, s, id, run, artifact, j);
      }
      s := StartSubmit(env, s, id, artifact);
      if s.op.Free? {
        if earlier.Some? {
          AnsweredInput(env, s, id, artifact, earlier.value);
        }
        return earlier;
      }
      while Steps(s.op) || s.op.MintEvidence?
        invariant CallInv(env, before, s, id, artifact, j, evidence)
        invariant hopeful ==> OnTrack(env, s, id, j, evidence, at) && budget >= StepsLeft(s.op)
        decreases StepsLeft(s.op)
      {
        CallState(env, before, s, id, artifact, j, evidence);
        ok := Io();
        if !ok {
          CallGivesUp(env, before, s);
          s := s.(op := Free);
          return None;
        }
        if s.op.MintEvidence? {
          var input, a := s.op.run, s.op.a;
          CallMints(env, before, s, input, a, id, artifact, j, evidence, at);
          if hopeful {
            MintStays(env, s, input, a, id, j, evidence, at);
          }
          MintFewer(env, s, input, a, evidence, at);
          s := Mint(env, s, input, a, evidence, at);
        } else {
          CallSteps(env, before, s, id, artifact, j, evidence);
          if hopeful {
            StepTrack(env, s, id, j, evidence, at);
          }
          StepsFewer(env, s);
          s := Stepped(env, s);
        }
      }
      CallState(env, before, s, id, artifact, j, evidence);
      if s.op.Free? {
        FreeIsOff(env, s, id, j, evidence, at);
        return None;
      }
      ok := Io();
      var copy, journal := s.op.run, s.op.j;
      var fault := if ok then NoFault else broken;
      var after := CommitRun(s, copy, journal, now, fault);
      if hopeful {
        CommitTrack(env, s, copy, journal, id, j, evidence, at, now);
      }
      CallCommits(env, before, s, copy, journal, id, artifact, j, evidence, now, fault, after);
      var committed := CommitsRun(s, copy, journal, now, fault);
      s := after;
      if committed {
        AnsweredInput(env, s, id, artifact, journal.submission);
        return Some(journal.submission);
      }
      return None;
    }
  }
}
