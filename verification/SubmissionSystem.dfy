/** The manual submission as a step system over a crash-prone disk. Whoever holds inputMu is at one
    point of an upload, a submission or an evidence append; artifact uploads run beside it; every
    step is one visible change or one sync; an operation may fail before any of its steps, and the
    process or the machine may stop at any time. */
module SubmissionSystem {
  import opened Prelude
  import opened Utf8
  import opened Domain
  import opened Strings
  import opened Runs
  import opened RunUpdates
  import opened Disk
  import opened RunFiles
  import opened Evidence
  import opened InputRules
  import Creation

  /** An entry of the evidence store's memory. */
  datatype Record = Record(tenant: string, run: string, evidence: EvidenceRef)

  datatype Stage = MakeFolder | SyncParent | Link | SyncFolder

  datatype Then = ToCaller | ToCommit(run: Run, j: Journal)

  /** Where the holder of inputMu is. */
  datatype Op =
    | Free
    | Uploading(put: nat)
    | FindJournal(run: Run, artifact: string)
    | FindArtifact(run: Run, artifact: string, known: Option<Journal>)
    | ReadArtifact(run: Run, known: Option<Journal>, a: ArtifactRef)
    | MintEvidence(run: Run, a: ArtifactRef)
    | WriteJournal(stage: Stage, run: Run, j: Journal)
    | FindEvidence(run: Run, j: Journal)
    | Append(stage: Stage, tenant: string, id: string, e: EvidenceRef, next: Then)
    | Commit(run: Run, j: Journal)

  datatype PutStage =
    | PutFolder | PutCreate | PutWrite | PutSyncRoot | PutSyncRun | PutMetaFolder | PutMeta | PutSyncMeta | PutSyncAgain
  {
    /** Before the metadata is published the bytes may still be removed. */
    predicate Unpublished() { !PutSyncMeta? && !PutSyncAgain? }
    predicate Written() { PutSyncRoot? || PutSyncRun? || PutMetaFolder? || PutMeta? }
  }

  /** What an upload must match; empty, 0 and 0 when the caller promised nothing. */
  datatype Promise = Promise(sha256: string, size: int, limit: int)

  datatype Put = Put(stage: PutStage, run: string, id: string, promise: Promise, ref: Option<ArtifactRef>)

  datatype Ack = Ack(run: string, artifact: string, submission: Submission)

  /** `used` holds every id minted or chosen so far; `acks` and `registered` record what SubmitRun answered
      and which evidence it published. */
  datatype State = State(
    fs: Fs, up: bool, recs: map<string, Record>, op: Op, puts: map<nat, Put>, used: set<string>,
    acks: set<Ack>, registered: set<(string, string)>)

  datatype Step =
    | SubmitStart(tenant: string, id: string, artifact: string)
    | SubmitStep
    | SubmitMint(evidence: string, at: int)
    | SubmitCommit(now: int, fault: Fault)
    | AppendStart(tenant: string, id: string, e: EvidenceRef)
    | Abort
    | UploadStart(put: nat, tenant: string, id: string, artifact: string)
    | UploadEnd
    | PutStart(put: nat, id: string, artifact: string, promise: Promise)
    | PutData(put: nat, data: Bytes, name: string, mediaType: string, now: int)
    | PutStep(put: nat)
    | PutFail(put: nat, removed: bool)
    | EnvSync(d: Dir)
    | EnvUpdate(id: string, m: Mutation, fault: Fault)
    | EnvCreate(run: Run, fault: Fault)
    | Crash
    | Boot

  // ---- Reading the disk ----

  function JournalAt(fs: Fs, id: string): Option<Journal> {
    match Lookup(fs, JournalName(id))
    case Some(JournalFile(j)) => Some(j)
    case _ => None
  }

  function MetaAt(fs: Fs, run: string, artifact: string): Option<ArtifactRef> {
    match Lookup(fs, MetaName(run, artifact))
    case Some(MetaFile(a)) => Some(a)
    case _ => None
  }

  function BytesAt(fs: Fs, run: string, artifact: string): Result<Bytes, Error> {
    match Lookup(fs, BytesName(run, artifact))
    case Some(BytesFile(data)) => Ok(data)
    case _ => Err(NotFound)
  }

  function ArtifactsOf(fs: Fs, run: string): ArtifactReader {
    (id: string) => if MetaAt(fs, run, id).Some? then Ok(MetaAt(fs, run, id).value) else Err(NotFound)
  }

  predicate BelongsTo(fs: Fs, run: string, tenant: string) {
    RunAt(fs, run).Some? && RunAt(fs, run).value.Tenant() == tenant
  }

  predicate NamespaceOk(tenant: string, run: string) {
    TrimSpace(tenant) == tenant && tenant != "" && ByteLen(tenant) <= 128 && ValidIdentifier(run)
  }

  /** The evidence ids that journals of visible manual runs have reserved. */
  ghost predicate IsReserved(fs: Fs, evidence: string) {
    exists id ::
        RunAt(fs, id).Some? && RunAt(fs, id).value.Manual() && JournalAt(fs, id).Some? &&
            JournalAt(fs, id).value.evidence.id == evidence
  }

  /** The store accepts a normalised record. */
  predicate MayAppend(s: State, tenant: string, run: string, e: EvidenceRef) {
    && NamespaceOk(tenant, run)
    && BelongsTo(s.fs, run, tenant)
    && Bound(e, ArtifactsOf(s.fs, run)) && e.id !in s.recs
  }

  // ---- SubmitRun ----

  predicate ArtifactIdOk(artifact: string) { ValidIdentifier(artifact) && ByteLen(artifact) <= 128 }

  /** Reading the run: refuse, answer from the run, or go on. */
  function StartSubmit(env: Env, s: State, id: string, artifact: string): State {
    match RunAt(s.fs, id)
    case None => s
    case Some(run) =>
      var read := s.(fs := Sync(s.fs, RunsDir));
      if !ArtifactIdOk(artifact) || !run.Manual() || !Creation.ValidCreation(env.lib, run) then read
      else if run.submission.Some? then
        if run.submission.value.artifactId != artifact then read
        else read.(acks := s.acks + {Ack(id, artifact, run.submission.value)})
      else if run.status != Preparing then read
      else read.(op := Op.FindJournal(run, artifact))
  }

  function ReadJournal(env: Env, s: State, run: Run, artifact: string): State {
    match JournalAt(s.fs, run.id)
    case None => s.(op := Op.FindArtifact(run, artifact, None))
    case Some(j) =>
      s.(fs := Sync(s.fs, JournalsDir),
         op := if ValidJournal(env, run, j) && j.artifact.id == artifact then Op.FindArtifact(run, artifact, Some(j))
             else Free)
  }

  function ReadMeta(s: State, run: Run, artifact: string, known: Option<Journal>): State {
    match MetaAt(s.fs, run.id, artifact)
    case None => s.(op := Free)
    case Some(a) => s.(op := ReadArtifact(run, known, a))
  }

  function SyncArtifact(fs: Fs, run: string): Fs {
    Sync(Sync(Sync(fs, ArtifactRoot), ArtifactDir(run)), MetaDir(run))
  }

  function ReadInput(env: Env, s: State, run: Run, known: Option<Journal>, a: ArtifactRef): State {
    if ValidateArtifact(env, run, a, BytesAt(s.fs, run.id, a.id)).Err? then s.(op := Free)
    else s.(fs := SyncArtifact(s.fs, run.id),
            op := match known
                  case None => MintEvidence(run, a)
                  case Some(j) => if j.artifact == a then Op.FindEvidence(run, j) else Free)
  }

  function StepJournal(s: State, stage: Stage, run: Run, j: Journal): State {
    match stage
    case MakeFolder => s.(fs := Mkdir(s.fs, JournalsFolder), op := WriteJournal(SyncParent, run, j))
    case SyncParent => s.(fs := Sync(s.fs, StateRoot), op := WriteJournal(Link, run, j))
    case Link =>
      if JournalName(run.id) in s.fs.visible then s.(op := Free)
      else s.(fs := Publish(s.fs, JournalName(run.id), JournalFile(j)), op := WriteJournal(SyncFolder, run, j))
    case SyncFolder => s.(fs := Sync(s.fs, JournalsDir), op := Op.FindEvidence(run, j))
  }

  predicate HasRecord(s: State, tenant: string, run: string, evidence: string) {
    evidence in s.recs && s.recs[evidence].run == run && s.recs[evidence].tenant == tenant
  }

  function ReadEvidence(s: State, run: Run, j: Journal): State {
    var e := j.evidence;
    if !NamespaceOk(run.Tenant(), run.id) then s.(op := Free)
    else if HasRecord(s, run.Tenant(), run.id, e.id) then
        s.(op := if s.recs[e.id].evidence == e then Commit(run, j) else Free)
    else match Normalize(e)
      case Err(_) => s.(op := Free)
      case Ok(n) =>
        if MayAppend(s, run.Tenant(), run.id, n) then
            s.(op := Append(MakeFolder, run.Tenant(), run.id, n, ToCommit(run, j)))
        else s.(op := Free)
  }

  function StepAppend(s: State, stage: Stage, tenant: string, id: string, e: EvidenceRef, next: Then): State {
    var n := EvidenceName(id, e.id);
    match stage
    case MakeFolder => s.(fs := Mkdir(s.fs, EvidenceFolder(id)), op := Append(SyncParent, tenant, id, e, next))
    case SyncParent => s.(fs := Sync(s.fs, EvidenceRoot), op := Append(Link, tenant, id, e, next))
    case Link =>
      if n in s.fs.visible then
          s.(op := if s.fs.visible[n] == EvidenceFile(e) then Append(SyncFolder, tenant, id, e, next) else Free)
      else s.(fs := Publish(s.fs, n, EvidenceFile(e)), op := Append(SyncFolder, tenant, id, e, next),
              registered := if next.ToCommit? then s.registered + {(id, e.id)} else s.registered)
    case SyncFolder =>
      s.(fs := Sync(s.fs, EvidenceDir(id)), recs := s.recs[e.id := Record(tenant, id, e)],
         op := match next case ToCaller => Free case ToCommit(run, j) => Commit(run, j))
  }

  function CommitRun(s: State, run: Run, j: Journal, now: int, fault: Fault): State {
    var (fs, r) := UpdateRun(s.fs, run.id, Submit(FrozenInput(j), j.submission, now), fault);
    s.(fs := fs, op := Free, acks := if r.Ok? then s.acks + {Ack(run.id, j.artifact.id, j.submission)} else s.acks)
  }

  predicate Steps(op: Op) {
    op.FindJournal? || op.FindArtifact? || op.ReadArtifact? || op.WriteJournal? || op.FindEvidence? || op.Append?
  }

  /** The next step of the operation under way. */
  function Stepped(env: Env, s: State): State {
    match s.op
    case FindJournal(run, artifact) => ReadJournal(env, s, run, artifact)
    case FindArtifact(run, artifact, known) => ReadMeta(s, run, artifact, known)
    case ReadArtifact(run, known, a) => ReadInput(env, s, run, known, a)
    case WriteJournal(stage, run, j) => StepJournal(s, stage, run, j)
    case FindEvidence(run, j) => ReadEvidence(s, run, j)
    case Append(stage, tenant, id, e, next) => StepAppend(s, stage, tenant, id, e, next)
    case _ => s
  }

  ghost predicate HolderNext(env: Env, s: State, step: Step, after: State) {
    s.up &&
    match step
    case SubmitStart(tenant, id, artifact) =>
      && s.op.Free? && BelongsTo(s.fs, id, tenant)
      && after == StartSubmit(env, s, id, artifact)
    case SubmitStep =>
      Steps(s.op) && after == Stepped(env, s)
    case SubmitMint(evidence, at) =>
      && s.op.MintEvidence? && Minted("input", evidence) && evidence !in s.used && at != 0
      && var run, a := s.op.run, s.op.a;
         run.terms.manifest.Some? &&
         after == s.(used := s.used + {evidence},
                     op := if HasRecord(s, run.Tenant(), run.id, evidence) then Free
                           else WriteJournal(MakeFolder, run, NewJournal(env, run, a, evidence, at)))
    case SubmitCommit(now, fault) =>
      s.op.Commit? && after == CommitRun(s, s.op.run, s.op.j, now, fault)
    case AppendStart(tenant, id, e) =>
      && s.op.Free? && Normalize(e).Ok?
      && var n := Normalize(e).value;
         && !IsReserved(s.fs, n.id) && MayAppend(s, tenant, id, n)
         && after ==
             s.(fs := Sync(Sync(s.fs, RunsDir), JournalsDir), used := s.used + {n.id},
                op := Append(MakeFolder, tenant, id, n, ToCaller))
    case Abort =>
      !s.op.Free? && !s.op.Uploading? && after == s.(op := Free)
    case UploadStart(k, tenant, id, artifact) =>
      && s.op.Free? && k !in s.puts && RunAt(s.fs, id).Some? && Minted("art", artifact) && artifact !in s.used
      && var run := RunAt(s.fs, id).value;
         && run.Tenant() == tenant && run.Manual() && run.status == Preparing && run.submission.None?
         && run.terms.manifest.Some?
         && var m := run.terms.manifest.value;
            after == s.(op := Uploading(k), used := s.used + {artifact},
                        puts := s.puts[k := Put(PutFolder, id, artifact,
                                                Promise(m.sha256, m.sizeBytes, Creation.InputLimit(env.limit)), None)])
    case UploadEnd =>
      s.op.Uploading? && s.op.put !in s.puts && after == s.(op := Free)
    case _ => false
  }

  // ---- Artifact uploads ----

  predicate Kept(p: Promise, env: Env, data: Bytes) {
    && data != [] && (p.limit > 0 ==> |data| <= p.limit) && (p.size > 0 ==> |data| == p.size)
    && (p.sha256 != "" ==> env.hash(data) == p.sha256)
  }

  function WithPut(s: State, k: nat, p: Put, fs: Fs): State { s.(fs := fs, puts := s.puts[k := p]) }
  function WithoutPut(s: State, k: nat, fs: Fs): State { s.(fs := fs, puts := s.puts - {k}) }

  function PutAt(s: State, k: nat): Option<Put> {
    if k in s.puts then Some(s.puts[k]) else None
  }

  /** An upload moves by itself except where it waits for its data. */
  predicate Moves(p: Put) {
    p.stage != PutWrite && (p.stage == PutMeta ==> p.ref.Some?)
  }

  function StepPut(s: State, k: nat, p: Put): State {
    match p.stage
    case PutFolder => WithPut(s, k, p.(stage := PutCreate), Mkdir(s.fs, ArtifactFolder(p.run)))
    case PutCreate =>
      if BytesName(p.run, p.id) in s.fs.visible then WithoutPut(s, k, s.fs)
      else WithPut(s, k, p.(stage := PutWrite), Publish(s.fs, BytesName(p.run, p.id), BytesFile([])))
    case PutSyncRoot => WithPut(s, k, p.(stage := PutSyncRun), Sync(s.fs, ArtifactRoot))
    case PutSyncRun => WithPut(s, k, p.(stage := PutMetaFolder), Sync(s.fs, ArtifactDir(p.run)))
    case PutMetaFolder => WithPut(s, k, p.(stage := PutMeta), Mkdir(s.fs, MetaFolder(p.run)))
    case PutMeta =>
      if MetaName(p.run, p.id) in s.fs.visible || p.ref.None? then WithoutPut(s, k, s.fs)
      else WithPut(s, k, p.(stage := PutSyncMeta), Publish(s.fs, MetaName(p.run, p.id), MetaFile(p.ref.value)))
    case PutSyncMeta => WithPut(s, k, p.(stage := PutSyncAgain), Sync(s.fs, MetaDir(p.run)))
    case PutSyncAgain => WithoutPut(s, k, Sync(s.fs, ArtifactDir(p.run)))
    case PutWrite => s
  }

  ghost predicate PutNext(env: Env, s: State, step: Step, after: State) {
    s.up &&
    match step
    case PutStart(k, id, artifact, promise) =>
      && k !in s.puts && RunAt(s.fs, id).Some? && Minted("art", artifact) && artifact !in s.used
      && after == s.(used := s.used + {artifact}, puts := s.puts[k := Put(PutFolder, id, artifact, promise, None)])
    case PutData(k, data, name, mediaType, now) =>
      && k in s.puts && s.puts[k].stage == PutWrite && name != "" && mediaType != "" && now != 0
      && var p := s.puts[k];
         var ref := ArtifactRef(p.id, name, Uri(p.run, p.id), mediaType, env.hash(data), |data|, now);
         && Kept(p.promise, env, data)
         && after ==
             WithPut(s, k, p.(stage := PutSyncRoot, ref := Some(ref)),
                     Publish(s.fs, BytesName(p.run, p.id), BytesFile(data)))
    case PutStep(k) =>
      k in s.puts && Moves(s.puts[k]) && after == StepPut(s, k, s.puts[k])
    case PutFail(k, removed) =>
      && k in s.puts
      && var p := s.puts[k];
         && (removed ==> p.stage.Unpublished() && p.stage != PutFolder && p.stage != PutCreate)
         && after == WithoutPut(s, k, if removed then Remove(s.fs, BytesName(p.run, p.id)) else s.fs)
    case _ => false
  }

  // ---- Everything else ----

  /** A run as CreateRun stores it. */
  ghost predicate Created(env: Env, r: Run) {
    && History(r) && Minted("run", r.id) && r.submission.None? && r.approval.None? && NamespaceOk(r.Tenant(), r.id)
    && (if r.Manual() then r.status == Preparing && Creation.ValidCreation(env.lib, r)
        else r.status == Queued || r.status == WaitingApproval)
  }

  /** The evidence store syncs every run directory it reads. */
  function SyncEvidence(fs: Fs): Fs {
    fs.(past := set p | p in fs.past && !(Home(p.0).EvidenceDir? && EvidenceFolder(Home(p.0).run) in fs.visible))
  }

  /** The evidence store loads: every directory belongs to a run, every record is normal and bound, no id twice. */
  ghost predicate Loaded(fs: Fs, recs: map<string, Record>) {
    && (forall r :: EvidenceFolder(r) in fs.visible ==> RunAt(fs, r).Some?)
    && (forall e :: e in recs ==> EvidenceName(recs[e].run, e) in fs.visible)
    && (forall r, e :: EvidenceName(r, e) in fs.visible ==>
          var node := fs.visible[EvidenceName(r, e)];
          && RunAt(fs, r).Some? && node.EvidenceFile? && Normalize(node.evidence).Ok?
          && Bound(Normalize(node.evidence).value, ArtifactsOf(fs, r))
          && e in recs && recs[e] == Record(RunAt(fs, r).value.Tenant(), r, Normalize(node.evidence).value))
  }

  ghost predicate WorldNext(env: Env, s: State, step: Step, after: State) {
    match step
    case EnvSync(d) => after == s.(fs := Sync(s.fs, d))
    case EnvUpdate(id, m, fault) => s.up && !m.Submit? && after == s.(fs := UpdateRun(s.fs, id, m, fault).0)
    case EnvCreate(run, fault) =>
      s.up && Created(env, run) && run.id !in s.used &&
          after == s.(fs := CreateRun(s.fs, run, fault).0, used := s.used + {run.id})
    case Crash =>
      Restart(s.fs, after.fs) && after == State(after.fs, false, map[], Free, map[], s.used, s.acks, s.registered)
    case Boot =>
      !s.up && after == s.(up := true, fs := SyncEvidence(s.fs), recs := after.recs) && Loaded(s.fs, after.recs)
    case _ => false
  }

  predicate OfHolder(step: Step) {
    || step.SubmitStart? || step.SubmitStep? || step.SubmitMint? || step.SubmitCommit? || step.AppendStart? ||
        step.Abort?
    || step.UploadStart? || step.UploadEnd?
  }

  predicate OfUpload(step: Step) {
    step.PutStart? || step.PutData? || step.PutStep? || step.PutFail?
  }

  ghost predicate Next(env: Env, s: State, step: Step, after: State) {
    if OfHolder(step) then HolderNext(env, s, step, after)
    else if OfUpload(step) then PutNext(env, s, step, after)
    else WorldNext(env, s, step, after)
  }

  const INIT := State(EMPTY, false, map[], Free, map[], {}, {}, {})

  // ---- What holds of the disk in every reachable state ----

  ghost predicate GoodRun(env: Env, r: Run) {
    && Minted("run", r.id) && NamespaceOk(r.Tenant(), r.id)
    && (if r.Manual() then Creation.ValidCreation(env.lib, r) &&
        (r.submission.None? ==> r.status == Preparing || r.status == Cancelled)
        else r.submission.None?)
  }

  /** What a name may hold. */
  ghost predicate Shape(env: Env, n: Name, v: Node) {
    match n
    case RunName(id) => v.RunFile? && v.record.id == id && GoodRun(env, v.record)
    case JournalName(id) => v.JournalFile? && v.journal.runId == id
    case EvidenceName(_, e) => v.EvidenceFile? && v.evidence.id == e && Normalize(v.evidence) == Ok(v.evidence)
    case BytesName(_, _) => v.BytesFile?
    case MetaName(r, a) => v.MetaFile? && Registered(r, a, v.ref)
    case _ => v.Folder?
  }

  predicate WriteOnce(n: Name) { !n.RunName? && !n.BytesName? }

  /** Names hold what they may hold, and all but run files and bytes never change once visible. */
  ghost predicate Shapes(env: Env, fs: Fs) {
    forall n, v :: Candidate(fs, n, Some(v)) ==> Shape(env, n, v) && (WriteOnce(n) ==> Lookup(fs, n) == Some(v))
  }

  predicate Stable(fs: Fs, f: Name) { f in fs.visible && (f, None) !in fs.past }

  /** Records lie in durable folders, and everything visible lies in visible folders. */
  ghost predicate Layout(fs: Fs) {
    && Nested(fs)
    && (forall id :: JournalName(id) in fs.visible ==> Stable(fs, JournalsFolder))
    && (forall r, e :: EvidenceName(r, e) in fs.visible ==> Stable(fs, EvidenceFolder(r)))
  }

  /** The bytes an artifact describes are durable. */
  ghost predicate StoredBytes(env: Env, fs: Fs, run: string, a: ArtifactRef) {
    && BytesAt(fs, run, a.id).Ok?
    && Safe(fs, BytesName(run, a.id), BytesFile(BytesAt(fs, run, a.id).value))
    && Describes(env, a, BytesAt(fs, run, a.id).value)
  }

  ghost predicate Artifacts(env: Env, fs: Fs) {
    forall r, a, ref :: Candidate(fs, MetaName(r, a), Some(MetaFile(ref))) ==> StoredBytes(env, fs, r, ref)
  }

  /** The artifact is registered for good and is a valid input. */
  ghost predicate ArtifactSafe(env: Env, fs: Fs, run: string, a: ArtifactRef) {
    && Safe(fs, MetaName(run, a.id), MetaFile(a)) && StoredBytes(env, fs, run, a)
    && env.validInput(BytesAt(fs, run, a.id).value) && a.sizeBytes <= Creation.InputLimit(env.limit)
  }

  ghost predicate KeptRun(fs: Fs, id: string) {
    RunAt(fs, id).Some? && !Candidate(fs, RunName(id), None)
  }

  ghost predicate HasJournal(fs: Fs, id: string, j: Journal) {
    Candidate(fs, JournalName(id), Some(JournalFile(j)))
  }

  ghost predicate JournalSafe(fs: Fs, id: string, j: Journal) {
    Safe(fs, JournalName(id), JournalFile(j))
  }

  ghost predicate JournalBacked(env: Env, fs: Fs, id: string, j: Journal) {
    && KeptRun(fs, id) && RunAt(fs, id).value.Manual() && ValidJournal(env, RunAt(fs, id).value, j)
    && Minted("input", j.evidence.id) && ArtifactSafe(env, fs, id, j.artifact)
  }

  /** A journal, durable or not, comes after its run and its artifact. */
  ghost predicate Journals(env: Env, fs: Fs) {
    forall id, j :: HasJournal(fs, id, j) ==> JournalBacked(env, fs, id, j)
  }

  ghost predicate HasEvidence(fs: Fs, run: string, id: string, e: EvidenceRef) {
    Candidate(fs, EvidenceName(run, id), Some(EvidenceFile(e)))
  }

  /** The id a journal reserves names nothing but the journal's record under the journal's run. */
  ghost predicate Reserves(fs: Fs) {
    && (forall id, j, r, e :: HasJournal(fs, id, j) && HasEvidence(fs, r, j.evidence.id, e) ==>
        r == id && e == j.evidence)
    && (forall a, b, j, k :: HasJournal(fs, a, j) && HasJournal(fs, b, k) && j.evidence.id == k.evidence.id ==> a == b)
  }

  /** The record of the run's journal is durable, and the run carries the journal's submission. */
  ghost predicate Backed(fs: Fs, id: string, r: Run) {
    && JournalAt(fs, id).Some?
    && var j := JournalAt(fs, id).value;
       && JournalSafe(fs, id, j) && Safe(fs, EvidenceName(id, j.evidence.id), EvidenceFile(j.evidence))
       && r.submission == Some(j.submission) && r.inputs == FrozenInput(j)
  }

  ghost predicate Submissions(fs: Fs) {
    forall id, r :: HasRun(fs, id, r) && r.submission.Some? ==> Backed(fs, id, r)
  }

  function IdsIn(n: Name, v: Node): set<string> {
    match n
    case RunName(id) => {id}
    case EvidenceName(_, e) => {e}
    case BytesName(_, a) => {a}
    case MetaName(_, a) => {a}
    case JournalName(_) => if v.JournalFile? then {v.journal.evidence.id} else {}
    case _ => {}
  }

  ghost predicate AllUsed(fs: Fs, used: set<string>) {
    forall n, v :: Candidate(fs, n, Some(v)) ==> IdsIn(n, v) <= used
  }

  ghost predicate DiskInv(env: Env, fs: Fs, used: set<string>) {
    && StoreInv(fs) && Shapes(env, fs) && Layout(fs) && Artifacts(env, fs) && Journals(env, fs) && Reserves(fs)
    && Submissions(fs) && AllUsed(fs, used)
  }

  // ---- What holds of the process ----

  ghost predicate MetaFree(fs: Fs, id: string) {
    forall r, ref :: !Candidate(fs, MetaName(r, id), Some(MetaFile(ref)))
  }

  ghost predicate PutFacts(env: Env, fs: Fs, used: set<string>, p: Put) {
    && p.id in used && Minted("art", p.id)
    && (p.stage.Unpublished() ==> MetaFree(fs, p.id))
    && (p.stage == PutCreate ==> ArtifactFolder(p.run) in fs.visible)
    && (p.stage == PutWrite ==> BytesName(p.run, p.id) in fs.visible)
    && (p.stage.Written() ==>
          && p.ref.Some? && Registered(p.run, p.id, p.ref.value)
          && BytesAt(fs, p.run, p.id).Ok? && Describes(env, p.ref.value, BytesAt(fs, p.run, p.id).value))
    && (p.stage == PutSyncRun ==> Stable(fs, ArtifactFolder(p.run)))
    && (p.stage == PutMetaFolder || p.stage == PutMeta ==> StoredBytes(env, fs, p.run, p.ref.value))
    && (p.stage == PutMeta ==> MetaFolder(p.run) in fs.visible)
  }

  ghost predicate PutsOk(env: Env, s: State) {
    && (forall k :: k in s.puts ==> PutFacts(env, s.fs, s.used, s.puts[k]))
    && (forall k, l :: k in s.puts && l in s.puts && s.puts[k].id == s.puts[l].id ==> k == l)
  }

  /** The copy of the run a submission works with is still good for all that never changes. */
  ghost predicate KeptCopy(env: Env, fs: Fs, run: Run) {
    KeptRun(fs, run.id) && RunAt(fs, run.id).value.terms == run.terms && run.Manual() && GoodRun(env, run) &&
        run.terms.manifest.Some?
  }

  predicate MatchesManifest(run: Run, a: ArtifactRef) {
    && run.terms.manifest.Some?
    && a.sha256 == run.terms.manifest.value.sha256 && a.sizeBytes == run.terms.manifest.value.sizeBytes
    && a.mediaType == run.terms.manifest.value.mediaType
  }

  ghost predicate EvidenceFree(fs: Fs, id: string) {
    forall r, e :: !HasEvidence(fs, r, id, e)
  }

  ghost predicate JournalFree(fs: Fs, evidence: string) {
    forall id, j :: HasJournal(fs, id, j) ==> j.evidence.id != evidence
  }

  ghost predicate OldJournal(fs: Fs, run: Run, known: Option<Journal>, artifact: string) {
    match known
    case None => JournalName(run.id) !in fs.visible
    case Some(j) => JournalSafe(fs, run.id, j) && j.artifact.id == artifact
  }

  ghost predicate WritingJournal(env: Env, fs: Fs, used: set<string>, stage: Stage, run: Run, j: Journal) {
    && KeptCopy(env, fs, run) && ValidJournal(env, run, j) && Minted("input", j.evidence.id) && j.evidence.id in used
    && ArtifactSafe(env, fs, run.id, j.artifact) && EvidenceFree(fs, j.evidence.id)
    && (stage == SyncParent ==> JournalsFolder in fs.visible)
    && (stage == Link ==> Stable(fs, JournalsFolder))
    && if stage == SyncFolder then JournalAt(fs, run.id) == Some(j)
       else JournalName(run.id) !in fs.visible && JournalFree(fs, j.evidence.id)
  }

  ghost predicate Appending(env: Env, s: State, stage: Stage, tenant: string, id: string, e: EvidenceRef, next: Then) {
    && Normalize(e) == Ok(e) && e.id in s.used && e.id !in s.recs
    && BelongsTo(s.fs, id, tenant)
    && (stage == SyncParent ==> EvidenceFolder(id) in s.fs.visible)
    && (stage == Link ==> Stable(s.fs, EvidenceFolder(id)))
    && (stage == SyncFolder ==> Lookup(s.fs, EvidenceName(id, e.id)) == Some(EvidenceFile(e)))
    && match next
       case ToCaller => JournalFree(s.fs, e.id)
       case ToCommit(run, j) =>
         KeptCopy(env, s.fs, run) && run.id == id && run.Tenant() == tenant && e == j.evidence &&
             JournalSafe(s.fs, id, j)
  }

  ghost predicate OpOk(env: Env, s: State) {
    match s.op
    case Free => true
    case Uploading(_) => true
    case FindJournal(run, _) => KeptCopy(env, s.fs, run)
    case FindArtifact(run, artifact, known) => KeptCopy(env, s.fs, run) && OldJournal(s.fs, run, known, artifact)
    case ReadArtifact(run, known, a) =>
        KeptCopy(env, s.fs, run) && OldJournal(s.fs, run, known, a.id) && MetaAt(s.fs, run.id, a.id) == Some(a)
    case MintEvidence(run, a) =>
      KeptCopy(env, s.fs, run) && JournalName(run.id) !in s.fs.visible && MatchesManifest(run, a) &&
          ArtifactSafe(env, s.fs, run.id, a)
    case WriteJournal(stage, run, j) => WritingJournal(env, s.fs, s.used, stage, run, j)
    case FindEvidence(run, j) => KeptCopy(env, s.fs, run) && JournalSafe(s.fs, run.id, j)
    case Append(stage, tenant, id, e, next) => Appending(env, s, stage, tenant, id, e, next)
    case Commit(run, j) =>
      && KeptCopy(env, s.fs, run) && JournalSafe(s.fs, run.id, j)
      && j.evidence.id in s.recs && s.recs[j.evidence.id] == Record(run.Tenant(), run.id, j.evidence)
  }

  /** The journal's record is in memory. */
  ghost predicate RecordThere(fs: Fs, id: string, tenant: string, recs: map<string, Record>) {
    && JournalAt(fs, id).Some?
    && var e := JournalAt(fs, id).value.evidence; e.id in recs && recs[e.id] == Record(tenant, id, e)
  }

  /** Memory holds durable records only, and the record of every submitted run. */
  ghost predicate Records(s: State) {
    s.up ==>
      && (forall e :: e in s.recs ==>
            && Safe(s.fs, EvidenceName(s.recs[e].run, e), EvidenceFile(s.recs[e].evidence))
            && BelongsTo(s.fs, s.recs[e].run, s.recs[e].tenant))
      && (forall id, r :: HasRun(s.fs, id, r) && r.submission.Some? ==>
            RecordThere(s.fs, id, r.Tenant(), s.recs))
  }

  /** What was answered is on disk for good. */
  ghost predicate Answers(s: State) {
    && (forall a :: a in s.acks ==>
          && a.submission.artifactId == a.artifact && KeptRun(s.fs, a.run)
          && forall r :: HasRun(s.fs, a.run, r) ==> r.submission == Some(a.submission))
    && (forall p :: p in s.registered ==>
          JournalAt(s.fs, p.0).Some? && JournalSafe(s.fs, p.0, JournalAt(s.fs, p.0).value) &&
              JournalAt(s.fs, p.0).value.evidence.id == p.1)
  }

  ghost predicate Inv(env: Env, s: State) {
    && DiskInv(env, s.fs, s.used) && PutsOk(env, s) && OpOk(env, s) && Records(s) && Answers(s)
    && (!s.up ==> s.op.Free? && s.puts == map[] && s.recs == map[])
  }
}
