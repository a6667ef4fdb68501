/** Every step of the submission system keeps its invariant. */
module SubmissionSteps {
  import opened Prelude
  import opened Utf8
  import opened Domain
  import opened Runs
  import opened RunUpdates
  import opened Disk
  import opened RunFiles
  import opened Evidence
  import opened InputRules
  import opened SubmissionSystem
  import opened SubmissionFrames
  import Creation

  // ---- Syncs ----

  /** Nothing visible changes and old values are only forgotten. */
  ghost predicate Calm(fs: Fs, after: Fs) {
    after.visible == fs.visible && after.past <= fs.past
  }

  const NOWHERE := RunName("")

  lemma CalmGently(fs: Fs, after: Fs)
    requires Calm(fs, after)
    ensures Gently(fs, after, NOWHERE)
    ensures forall n, v :: Candidate(after, n, v) ==> Candidate(fs, n, v)
    ensures forall n :: Lookup(after, n) == Lookup(fs, n)
  {
  }

  lemma CalmStore(fs: Fs, after: Fs)
    requires Calm(fs, after) && StoreInv(fs)
    ensures StoreInv(after)
  {
    CalmGently(fs, after);
    hide Calm, History, Candidate;
    assert forall id :: RunAt(after, id) == RunAt(fs, id);
  }

  lemma CalmDisk(env: Env, fs: Fs, after: Fs, used: set<string>, more: set<string>)
    requires DiskInv(env, fs, used) && Calm(fs, after) && used <= more
    ensures DiskInv(env, after, more)
  {
    hide Shapes, Layout, Artifacts, Journals, Reserves, Submissions, AllUsed, GoodRun, Backed, Gently, StoreInv;
    CalmStore(fs, after);
    CalmGently(fs, after);
    DiskKept(env, fs, after, NOWHERE, used, more);
  }

  /** A sync, or no change of the disk at all, between steps of an upload or of nobody. */
  lemma CalmKeeps(env: Env, s: State, after: State, k: nat)
    requires Inv(env, s) && Calm(s.fs, after.fs) && s.used <= after.used && OthersPut(s, after, k)
    requires after.op == s.op && after.recs == s.recs && after.up == s.up && s.up && after.acks == s.acks
    requires after.registered == s.registered
    requires PutGoesOn(env, s, after, k)
    ensures Inv(env, after)
  {
    hide DiskInv, PutsOk, OpOk, Records, Answers, Gently, PutFacts, OthersPut;
    CalmGently(s.fs, after.fs);
    CalmDisk(env, s.fs, after.fs, s.used, after.used);
    PutsKept(env, s, after, NOWHERE, k);
    CalmProcess(env, s, after);
    OpKept(env, s, after, NOWHERE);
  }

  lemma CalmProcess(env: Env, s: State, after: State)
    requires Inv(env, s) && Calm(s.fs, after.fs) && after.recs == s.recs && after.up == s.up
    requires after.acks == s.acks && after.registered == s.registered
    ensures Records(after) && Answers(after)
  {
    hide StoreInv, Shapes, Layout, Artifacts, Journals, Reserves, AllUsed, Submissions, Records, Answers, PutsOk,
         OpOk, Gently, Candidate;
    CalmGently(s.fs, after.fs);
    RecordsKept(env, s, after, NOWHERE);
    AnswersKept(s, after, NOWHERE);
  }

  /** Uploads while the holder of inputMu moves. */
  lemma PutsStay(env: Env, s: State, after: State, n: Name)
    requires PutsOk(env, s) && Gently(s.fs, after.fs, n) && s.used <= after.used && after.puts == s.puts
    requires !n.BytesName? && !n.MetaName?
    ensures PutsOk(env, after)
  {
    hide Gently, PutFacts;
    forall l | l in after.puts ensures PutFacts(env, after.fs, after.used, after.puts[l]) {
      PutKept(env, s.fs, after.fs, n, s.used, after.used, s.puts[l]);
    }
  }

  /** The holder of inputMu moves without changing what is visible. */
  lemma HolderCalm(env: Env, s: State, after: State)
    requires Inv(env, s) && s.up && Calm(s.fs, after.fs) && s.used <= after.used
    requires after.puts == s.puts && after.recs == s.recs && after.up == s.up && after.acks == s.acks
    requires after.registered == s.registered
    ensures DiskInv(env, after.fs, after.used) && PutsOk(env, after) && Records(after) && Answers(after)
  {
    hide DiskInv, PutsOk, OpOk, Records, Answers, Gently;
    CalmGently(s.fs, after.fs);
    CalmDisk(env, s.fs, after.fs, s.used, after.used);
    PutsStay(env, s, after, NOWHERE);
    CalmProcess(env, s, after);
  }

  lemma SyncCalm(fs: Fs, d: Dir)
    ensures Calm(fs, Sync(fs, d))
    ensures forall n, v :: Home(n) == d && Candidate(Sync(fs, d), n, v) ==> v == Lookup(fs, n)
  {
  }

  // ---- SubmitRun ----

  /** A run just read is on disk for good. */
  ghost predicate ReadForGood(env: Env, fs: Fs, id: string, run: Run) {
    && KeptRun(fs, id) && RunAt(fs, id) == Some(run) && run.id == id && GoodRun(env, run)
    && forall r :: HasRun(fs, id, r) ==> r == run
  }

  lemma ReadRunKept(env: Env, fs: Fs, id: string, run: Run, used: set<string>)
    requires DiskInv(env, fs, used) && RunAt(fs, id) == Some(run)
    ensures ReadForGood(env, Sync(fs, RunsDir), id, run)
  {
    hide StoreInv, Layout, Artifacts, Journals, Reserves, Submissions, AllUsed, GoodRun;
    assert Candidate(fs, RunName(id), Lookup(fs, RunName(id)));
    assert Shape(env, RunName(id), fs.visible[RunName(id)]);
  }

  lemma StartKeeps(env: Env, s: State, tenant: string, id: string, artifact: string, after: State)
    requires Inv(env, s) && HolderNext(env, s, SubmitStart(tenant, id, artifact), after)
    ensures Inv(env, after)
  {
    hide DiskInv, PutsOk, Records, Answers, ReadForGood, ArtifactIdOk, StartSubmit;
    var run := RunAt(s.fs, id).value;
    SyncCalm(s.fs, RunsDir);
    var read := s.(fs := Sync(s.fs, RunsDir));
    HolderCalm(env, s, read);
    ReadRunKept(env, s.fs, id, run, s.used);
    StartOp(env, s, read, id, run, artifact);
  }

  lemma StartOp(env: Env, s: State, read: State, id: string, run: Run, artifact: string)
    requires s.op.Free? && s.up && read == s.(fs := Sync(s.fs, RunsDir)) && RunAt(s.fs, id) == Some(run)
    requires ReadForGood(env, read.fs, id, run)
    requires DiskInv(env, read.fs, read.used) && PutsOk(env, read) && Answers(read) && Records(read)
    ensures Inv(env, StartSubmit(env, s, id, artifact))
  {
    hide DiskInv, PutFacts, JournalSafe, ArtifactIdOk, Sync, Candidate;
  }

  lemma JournalIsSafe(env: Env, fs: Fs, id: string, j: Journal, used: set<string>)
    requires DiskInv(env, fs, used) && JournalAt(fs, id) == Some(j)
    ensures JournalSafe(Sync(fs, JournalsDir), id, j)
  {
    hide StoreInv, Shapes, Artifacts, Journals, Reserves, Submissions, AllUsed;
  }

  lemma ReadJournalKeeps(env: Env, s: State, run: Run, artifact: string)
    requires Inv(env, s) && s.up && s.op == FindJournal(run, artifact)
    ensures Inv(env, ReadJournal(env, s, run, artifact))
  {
    hide DiskInv, PutsOk, Records, Answers, KeptCopy, JournalSafe, Gently, ValidJournal;
    var after := ReadJournal(env, s, run, artifact);
    SyncCalm(s.fs, JournalsDir);
    HolderCalm(env, s, after);
    CalmGently(s.fs, after.fs);
    CopyKept(env, s.fs, after.fs, NOWHERE, run);
    if JournalAt(s.fs, run.id).Some? {
      JournalIsSafe(env, s.fs, run.id, JournalAt(s.fs, run.id).value, s.used);
    } else {
      NoJournal(env, s.fs, run.id, s.used);
    }
  }

  lemma NoJournal(env: Env, fs: Fs, id: string, used: set<string>)
    requires DiskInv(env, fs, used) && JournalAt(fs, id).None?
    ensures JournalName(id) !in fs.visible
  {
    hide StoreInv, Layout, Artifacts, Journals, Reserves, Submissions, AllUsed;
    var held := Lookup(fs, JournalName(id));
    assert held.Some? ==> Candidate(fs, JournalName(id), Some(held.value));
  }

  lemma MetaIsRegistered(env: Env, fs: Fs, run: string, artifact: string, a: ArtifactRef, used: set<string>)
    requires DiskInv(env, fs, used) && MetaAt(fs, run, artifact) == Some(a)
    ensures Registered(run, artifact, a) && StoredBytes(env, fs, run, a)
  {
    hide StoreInv, Layout, Journals, Reserves, Submissions, AllUsed, StoredBytes;
    assert Candidate(fs, MetaName(run, artifact), Some(fs.visible[MetaName(run, artifact)]));
    assert Shape(env, MetaName(run, artifact), fs.visible[MetaName(run, artifact)]);
  }

  lemma ReadMetaKeeps(env: Env, s: State, run: Run, artifact: string, known: Option<Journal>)
    requires Inv(env, s) && s.up && s.op == FindArtifact(run, artifact, known)
    ensures Inv(env, ReadMeta(s, run, artifact, known))
  {
    hide DiskInv, PutsOk, Records, Answers, KeptCopy, JournalSafe, StoredBytes, Minted;
    HolderCalm(env, s, ReadMeta(s, run, artifact, known));
    if MetaAt(s.fs, run.id, artifact).Some? {
      MetaIsRegistered(env, s.fs, run.id, artifact, MetaAt(s.fs, run.id, artifact).value, s.used);
    }
  }

  lemma SyncArtifactCalm(fs: Fs, run: string)
    ensures Calm(fs, SyncArtifact(fs, run))
    ensures forall n, v ::
        (Home(n) == ArtifactRoot || Home(n) == ArtifactDir(run) || Home(n) == MetaDir(run)) &&
            Candidate(SyncArtifact(fs, run), n, v) ==>
              v == Lookup(fs, n)
  {
  }

  /** After its three syncs a registered artifact is durable. */
  lemma ArtifactIsSafe(env: Env, fs: Fs, run: string, a: ArtifactRef, used: set<string>)
    requires DiskInv(env, fs, used) && MetaAt(fs, run, a.id) == Some(a)
    ensures Safe(SyncArtifact(fs, run), MetaName(run, a.id), MetaFile(a))
    ensures StoredBytes(env, SyncArtifact(fs, run), run, a)
    ensures BytesAt(SyncArtifact(fs, run), run, a.id) == BytesAt(fs, run, a.id)
  {
    hide StoreInv, Shapes, Artifacts, Journals, Reserves, Submissions, AllUsed, StoredBytes, SyncArtifact;
    var after := SyncArtifact(fs, run);
    SyncArtifactCalm(fs, run);
    CalmGently(fs, after);
    MetaIsRegistered(env, fs, run, a.id, a, used);
    StoredBytesKept(env, fs, after, NOWHERE, run, a);
    var n := MetaName(run, a.id);
    assert n in fs.visible;
    assert Settled(after, n, MetaFile(a)) by {
      assert forall v :: Candidate(after, n, v) ==> v == Lookup(fs, n);
    }
    forall f | f in Above(n) ensures f in after.visible && (f, None) !in after.past {
      assert Candidate(after, f, None) ==> Lookup(fs, f) == None;
    }
  }

  lemma ReadInputKeeps(env: Env, s: State, run: Run, known: Option<Journal>, a: ArtifactRef)
    requires Inv(env, s) && s.up && s.op == ReadArtifact(run, known, a)
    ensures Inv(env, ReadInput(env, s, run, known, a))
  {
    hide DiskInv, PutsOk, Records, Answers, KeptCopy, JournalSafe, StoredBytes, Gently, SyncArtifact;
    var after := ReadInput(env, s, run, known, a);
    SyncArtifactCalm(s.fs, run.id);
    HolderCalm(env, s, after);
    CalmGently(s.fs, after.fs);
    CopyKept(env, s.fs, after.fs, NOWHERE, run);
    KnownKept(s.fs, after.fs, NOWHERE, run, known, a.id);
    ArtifactIsSafe(env, s.fs, run.id, a, s.used);
  }

  lemma UnusedIsFree(fs: Fs, used: set<string>, x: string)
    requires AllUsed(fs, used) && x !in used
    ensures EvidenceFree(fs, x) && JournalFree(fs, x)
  {
    forall id, j | HasJournal(fs, id, j) ensures j.evidence.id != x {
      assert Candidate(fs, JournalName(id), Some(JournalFile(j))) && IdsIn(JournalName(id), JournalFile(j)) <= used;
    }
    forall r, e ensures !HasEvidence(fs, r, x, e) {
      assert Candidate(fs, EvidenceName(r, x), Some(EvidenceFile(e))) ==>
          IdsIn(EvidenceName(r, x), EvidenceFile(e)) <= used;
    }
  }

  lemma MintKeeps(env: Env, s: State, evidence: string, at: int, after: State)
    requires Inv(env, s) && HolderNext(env, s, SubmitMint(evidence, at), after)
    ensures Inv(env, after)
  {
    hide StoreInv, Shapes, Layout, Artifacts, Journals, Reserves, Submissions, AllUsed, PutsOk, Records, Answers,
         KeptCopy, JournalSafe, ArtifactSafe, Minted;
    HolderCalm(env, s, after);
    UnusedIsFree(s.fs, s.used, evidence);
    MintedIsIdentifier("input", evidence);
  }

  // ---- Publishing ----

  lemma PublishShape(env: Env, fs: Fs, n: Name, node: Node)
    requires Shapes(env, fs) && n !in fs.visible && WriteOnce(n)
    ensures Gently(fs, Publish(fs, n, node), n)
    ensures forall v :: Candidate(Publish(fs, n, node), n, Some(v)) ==> v == node
    ensures Lookup(Publish(fs, n, node), n) == Some(node)
  {
    hide Shape;
    var after := Publish(fs, n, node);
    forall v | Candidate(after, n, Some(v)) ensures v == node {
      assert Candidate(fs, n, Some(v)) ==> Lookup(fs, n) == Some(v);
    }
  }

  lemma PublishStore(fs: Fs, n: Name, node: Node)
    requires StoreInv(fs) && !n.RunName?
    ensures StoreInv(Publish(fs, n, node)) && StoreInv(Remove(fs, n))
  {
    UntouchedKeeps(fs, Publish(fs, n, node));
    UntouchedKeeps(fs, Remove(fs, n));
  }

  /** A folder is made, or was there. */
  lemma MkdirKeeps(env: Env, fs: Fs, f: Name, used: set<string>)
    requires DiskInv(env, fs, used) && IsFolder(f) && Above(f) <= fs.visible.Keys
    ensures DiskInv(env, Mkdir(fs, f), used) && f in Mkdir(fs, f).visible
    ensures exists n :: Gently(fs, Mkdir(fs, f), n) && (n == f || n == NOWHERE)
  {
    hide StoreInv, Layout, Artifacts, Journals, Reserves, Submissions, AllUsed, Gently, Shape;
    var after := Mkdir(fs, f);
    if f in fs.visible {
      assert Calm(fs, after);
      CalmGently(fs, after);
    } else {
      PublishShape(env, fs, f, Folder);
      PublishStore(fs, f, Folder);
      assert Fits(env, fs, after, f, used);
      DiskKept(env, fs, after, f, used, used);
    }
  }

  /** What a step that only makes a folder leaves alone. */
  lemma FolderProcess(env: Env, s: State, after: State, n: Name)
    requires Inv(env, s) && Gently(s.fs, after.fs, n) && (IsFolder(n) || n == NOWHERE)
    requires (n == NOWHERE ==> Calm(s.fs, after.fs))
    requires after.recs == s.recs && after.up == s.up && after.acks == s.acks && after.registered == s.registered
    ensures Records(after) && Answers(after)
  {
    hide Shapes, Layout, Artifacts, Journals, Reserves, AllUsed, Records, Answers, Gently, PutsOk, OpOk,
         StoreInv, Submissions;
    if n == NOWHERE {
      CalmProcess(env, s, after);
    } else {
      RecordsKept(env, s, after, n);
      AnswersKept(s, after, n);
    }
  }

  lemma MkdirCalm(fs: Fs, f: Name, n: Name)
    requires Gently(fs, Mkdir(fs, f), n) && n == NOWHERE && !f.RunName?
    ensures Calm(fs, Mkdir(fs, f))
  {
    assert Lookup(Mkdir(fs, f), f) == Lookup(fs, f);
  }

  lemma JournalFolderKeeps(env: Env, s: State, run: Run, j: Journal)
    requires Inv(env, s) && s.up && s.op == WriteJournal(MakeFolder, run, j)
    ensures Inv(env, StepJournal(s, MakeFolder, run, j))
  {
    hide DiskInv, PutsOk, Records, Answers, Gently, WritingJournal;
    var after := StepJournal(s, MakeFolder, run, j);
    MkdirKeeps(env, s.fs, JournalsFolder, s.used);
    var n :| Gently(s.fs, after.fs, n) && (n == JournalsFolder || n == NOWHERE);
    if n == NOWHERE {
      MkdirCalm(s.fs, JournalsFolder, n);
    }
    PutsStay(env, s, after, n);
    FolderProcess(env, s, after, n);
    WritingKept(env, s.fs, after.fs, n, s.used, s.used, MakeFolder, run, j);
    WritingNext(env, after.fs, s.used, MakeFolder, SyncParent, run, j);
  }

  lemma WritingNext(env: Env, fs: Fs, used: set<string>, stage: Stage, next: Stage, run: Run, j: Journal)
    requires WritingJournal(env, fs, used, stage, run, j) && stage != SyncFolder && next != SyncFolder
    requires next == SyncParent ==> JournalsFolder in fs.visible
    requires next == Link ==> Stable(fs, JournalsFolder)
    ensures WritingJournal(env, fs, used, next, run, j)
  {
  }

  lemma JournalRootKeeps(env: Env, s: State, run: Run, j: Journal)
    requires Inv(env, s) && s.up && s.op == WriteJournal(SyncParent, run, j)
    ensures Inv(env, StepJournal(s, SyncParent, run, j))
  {
    hide DiskInv, PutsOk, Records, Answers, Gently, Calm, Sync;
    var after := StepJournal(s, SyncParent, run, j);
    SyncCalm(s.fs, StateRoot);
    HolderCalm(env, s, after);
    CalmGently(s.fs, after.fs);
    assert JournalsFolder in s.fs.visible;
    hide WritingJournal;
    WritingKept(env, s.fs, after.fs, NOWHERE, s.used, s.used, SyncParent, run, j);
    FolderIsStable(s.fs, JournalsFolder, StateRoot);
    WritingNext(env, after.fs, s.used, SyncParent, Link, run, j);
  }

  lemma FolderIsStable(fs: Fs, f: Name, d: Dir)
    requires Home(f) == d
    ensures f in fs.visible ==> Stable(Sync(fs, d), f)
  {
  }

  lemma JournalLinkKeeps(env: Env, s: State, run: Run, j: Journal)
    requires Inv(env, s) && s.up && s.op == WriteJournal(Link, run, j) && JournalName(run.id) !in s.fs.visible
    ensures Inv(env, StepJournal(s, Link, run, j))
  {
    hide StoreInv, Layout, Artifacts, Journals, Reserves, Submissions, AllUsed, PutsOk, Records, Answers, Gently,
         KeptCopy, ArtifactSafe, Shape, Minted, EvidenceFree, JournalFree, ValidJournal;
    var after := StepJournal(s, Link, run, j);
    var n, node := JournalName(run.id), JournalFile(j);
    PublishShape(env, s.fs, n, node);
    PublishStore(s.fs, n, node);
    JournalIsBacked(env, s.fs, run, j, s.used);
    DiskKept(env, s.fs, after.fs, n, s.used, s.used);
    PutsStay(env, s, after, n);
    RecordsKept(env, s, after, n);
    AnswersKept(s, after, n);
    CopyKept(env, s.fs, after.fs, n, run);
    ArtifactSafeKept(env, s.fs, after.fs, n, run.id, j.artifact);
    EvidenceStaysFree(s.fs, after.fs, n, j.evidence.id);
  }

  lemma EvidenceStaysFree(fs: Fs, after: Fs, n: Name, x: string)
    requires Gently(fs, after, n) && !n.EvidenceName? && EvidenceFree(fs, x)
    ensures EvidenceFree(after, x)
  {
    FreeKept(fs, after, n, x);
  }

  lemma JournalIsBacked(env: Env, fs: Fs, run: Run, j: Journal, used: set<string>)
    requires DiskInv(env, fs, used) && KeptCopy(env, fs, run) && ValidJournal(env, run, j)
    requires Minted("input", j.evidence.id)
    requires ArtifactSafe(env, fs, run.id, j.artifact)
    ensures JournalBacked(env, fs, run.id, j) && j.runId == run.id
  {
    hide Shapes, Layout, Artifacts, Journals, Reserves, Submissions, AllUsed, ArtifactSafe, GoodRun, Minted, History;
    assert Candidate(fs, RunName(run.id), Lookup(fs, RunName(run.id)));
    JournalNeedsTerms(env, run, RunAt(fs, run.id).value, j);
  }

  lemma JournalSyncKeeps(env: Env, s: State, run: Run, j: Journal)
    requires Inv(env, s) && s.up && s.op == WriteJournal(SyncFolder, run, j)
    ensures Inv(env, StepJournal(s, SyncFolder, run, j))
  {
    hide DiskInv, PutsOk, Records, Answers, Gently, KeptCopy, ArtifactSafe, ValidJournal, JournalSafe, Minted,
         EvidenceFree;
    var after := StepJournal(s, SyncFolder, run, j);
    SyncCalm(s.fs, JournalsDir);
    HolderCalm(env, s, after);
    CalmGently(s.fs, after.fs);
    CopyKept(env, s.fs, after.fs, NOWHERE, run);
    JournalIsSafe(env, s.fs, run.id, j, s.used);
  }

  lemma JournalKeeps(env: Env, s: State, stage: Stage, run: Run, j: Journal)
    requires Inv(env, s) && s.up && s.op == WriteJournal(stage, run, j)
    ensures Inv(env, StepJournal(s, stage, run, j))
  {
    hide DiskInv, PutsOk, OpOk, Records, Answers;
    match stage
    case MakeFolder => JournalFolderKeeps(env, s, run, j);
    case SyncParent => JournalRootKeeps(env, s, run, j);
    case SyncFolder => JournalSyncKeeps(env, s, run, j);
    case Link =>
      if JournalName(run.id) in s.fs.visible {
        FreeKeeps(env, s);
      } else {
        JournalLinkKeeps(env, s, run, j);
      }
  }

  lemma FreeKeeps(env: Env, s: State)
    requires Inv(env, s)
    ensures Inv(env, s.(op := Free))
  {
    hide DiskInv, PutFacts, JournalSafe;
  }

  // ---- Appending evidence ----

  lemma JournalFacts(env: Env, fs: Fs, run: Run, j: Journal, used: set<string>)
    requires DiskInv(env, fs, used) && KeptCopy(env, fs, run) && JournalSafe(fs, run.id, j)
    ensures HasJournal(fs, run.id, j) && JournalAt(fs, run.id) == Some(j)
    ensures ValidJournal(env, run, j) && Minted("input", j.evidence.id) && ArtifactSafe(env, fs, run.id, j.artifact)
    ensures j.evidence.id in used && j.evidence == InputEvidence(j.artifact, j.evidence.id, j.evidence.collectedAt)
    ensures j.evidence.collectedAt != 0
    ensures MetaAt(fs, run.id, j.artifact.id) == Some(j.artifact)
  {
    hide Shapes, Layout, Artifacts, Reserves, Submissions, GoodRun, Minted, History, StoredBytes;
    assert Candidate(fs, JournalName(run.id), Lookup(fs, JournalName(run.id)));
    assert HasJournal(fs, run.id, j) && JournalBacked(env, fs, run.id, j);
    assert Candidate(fs, RunName(run.id), Lookup(fs, RunName(run.id)));
    JournalNeedsTerms(env, run, RunAt(fs, run.id).value, j);
    assert IdsIn(JournalName(run.id), JournalFile(j)) <= used;
    assert Candidate(fs, MetaName(run.id, j.artifact.id), Lookup(fs, MetaName(run.id, j.artifact.id)));
  }

  /** The store keeps the journal's record as it is. */
  lemma JournalRecordIsNormal(env: Env, fs: Fs, run: Run, j: Journal, used: set<string>)
    requires DiskInv(env, fs, used) && KeptCopy(env, fs, run) && JournalSafe(fs, run.id, j)
    ensures Normalize(j.evidence) == Ok(j.evidence) && Bound(j.evidence, ArtifactsOf(fs, run.id))
    ensures NamespaceOk(run.Tenant(), run.id)
  {
    hide DiskInv, Normalize, Bound, JournalSafe, ArtifactSafe, ValidJournal, InputEvidence, Minted, Registered,
         StoredBytes, ByteLen, ValidIdentifier;
    JournalFacts(env, fs, run, j, used);
    MetaIsRegistered(env, fs, run.id, j.artifact.id, j.artifact, used);
    SubmitterRecordIsNormal(run.id, j.artifact, j.evidence.id, j.evidence.collectedAt);
    assert ArtifactsOf(fs, run.id)(j.artifact.id) == Ok(j.artifact);
  }

  lemma ReadEvidenceKeeps(env: Env, s: State, run: Run, j: Journal)
    requires Inv(env, s) && s.up && s.op == FindEvidence(run, j)
    ensures Inv(env, ReadEvidence(s, run, j))
  {
    hide DiskInv, PutsOk, Records, Answers, KeptCopy, JournalSafe, Normalize, Bound, NamespaceOk, ValidJournal,
         ArtifactSafe, InputEvidence;
    HolderCalm(env, s, ReadEvidence(s, run, j));
    JournalRecordIsNormal(env, s.fs, run, j, s.used);
    JournalFacts(env, s.fs, run, j, s.used);
  }

  lemma AppendFolderKeeps(env: Env, s: State, tenant: string, id: string, e: EvidenceRef, next: Then)
    requires Inv(env, s) && s.up && s.op == Append(MakeFolder, tenant, id, e, next)
    ensures Inv(env, StepAppend(s, MakeFolder, tenant, id, e, next))
  {
    hide DiskInv, PutsOk, Records, Answers, Gently, Appending;
    var after := StepAppend(s, MakeFolder, tenant, id, e, next);
    MkdirKeeps(env, s.fs, EvidenceFolder(id), s.used);
    var n :| Gently(s.fs, after.fs, n) && (n == EvidenceFolder(id) || n == NOWHERE);
    if n == NOWHERE {
      MkdirCalm(s.fs, EvidenceFolder(id), n);
    }
    PutsStay(env, s, after, n);
    FolderProcess(env, s, after, n);
    AppendingKept(env, s, after, n, MakeFolder, tenant, id, e, next);
    AppendingNext(env, after, MakeFolder, SyncParent, tenant, id, e, next);
  }

  lemma AppendingNext(env: Env, s: State, stage: Stage, next: Stage, tenant: string, id: string, e: EvidenceRef,
                      then_: Then)
    requires Appending(env, s, stage, tenant, id, e, then_)
    requires next == SyncParent ==> EvidenceFolder(id) in s.fs.visible
    requires next == Link ==> Stable(s.fs, EvidenceFolder(id))
    requires next == SyncFolder ==> Lookup(s.fs, EvidenceName(id, e.id)) == Some(EvidenceFile(e))
    ensures Appending(env, s, next, tenant, id, e, then_)
  {
  }

  lemma AppendRootKeeps(env: Env, s: State, tenant: string, id: string, e: EvidenceRef, next: Then)
    requires Inv(env, s) && s.up && s.op == Append(SyncParent, tenant, id, e, next)
    ensures Inv(env, StepAppend(s, SyncParent, tenant, id, e, next))
  {
    hide DiskInv, PutsOk, Records, Answers, Gently, Calm, Stable, Sync, KeptCopy, JournalSafe, JournalFree, Normalize;
    var after := StepAppend(s, SyncParent, tenant, id, e, next);
    SyncCalm(s.fs, EvidenceRoot);
    HolderCalm(env, s, after);
    CalmGently(s.fs, after.fs);
    assert EvidenceFolder(id) in s.fs.visible;
    hide Appending;
    AppendingKept(env, s, after, NOWHERE, SyncParent, tenant, id, e, next);
    FolderIsStable(s.fs, EvidenceFolder(id), EvidenceRoot);
    AppendingNext(env, after, SyncParent, Link, tenant, id, e, next);
  }

  /** The new record fits in, and changes nothing but its own name. */
  ghost predicate FitsIn(env: Env, fs: Fs, n: Name, node: Node, used: set<string>) {
    Fits(env, fs, Publish(fs, n, node), n, used) && Gently(fs, Publish(fs, n, node), n)
  }

  lemma AppendFits(env: Env, s: State, tenant: string, id: string, e: EvidenceRef, next: Then)
    requires DiskInv(env, s.fs, s.used) && Appending(env, s, Link, tenant, id, e, next)
    requires EvidenceName(id, e.id) !in s.fs.visible
    ensures FitsIn(env, s.fs, EvidenceName(id, e.id), EvidenceFile(e), s.used)
  {
    hide StoreInv, Layout, Artifacts, Journals, Submissions, AllUsed, Normalize, KeptCopy, JournalSafe, Publish,
         Candidate, Lookup, Gently, Shape;
    PublishShape(env, s.fs, EvidenceName(id, e.id), EvidenceFile(e));
    if next.ToCommit? {
      SafeIsHeld(s.fs, id, next.j);
      forall x, j | HasJournal(s.fs, x, j) && j.evidence.id == e.id ensures x == id && e == j.evidence {
        assert x == id;
      }
    }
  }

  lemma SafeIsHeld(fs: Fs, id: string, j: Journal)
    requires JournalSafe(fs, id, j)
    ensures HasJournal(fs, id, j) && JournalAt(fs, id) == Some(j)
  {
    assert Candidate(fs, JournalName(id), Lookup(fs, JournalName(id)));
  }

  lemma AppendLinkKeeps(env: Env, s: State, tenant: string, id: string, e: EvidenceRef, next: Then)
    requires Inv(env, s) && s.up && s.op == Append(Link, tenant, id, e, next) && EvidenceName(id, e.id) !in s.fs.visible
    ensures Inv(env, StepAppend(s, Link, tenant, id, e, next))
  {
    hide StoreInv, Shapes, Layout, Artifacts, Journals, Reserves, AllUsed, PutsOk, Records, Answers, Gently,
         Fits, Appending, Submissions;
    var after := StepAppend(s, Link, tenant, id, e, next);
    var n, node := EvidenceName(id, e.id), EvidenceFile(e);
    PublishStore(s.fs, n, node);
    PublishShape(env, s.fs, n, node);
    AppendFits(env, s, tenant, id, e, next);
    DiskKept(env, s.fs, after.fs, n, s.used, s.used);
    PutsStay(env, s, after, n);
    RecordsKept(env, s, after, n);
    AnswersKept(s, after.(registered := s.registered), n);
    AppendPublished(env, s, after, tenant, id, e, next);
    RegisterOne(env, s, after, tenant, id, e, next);
  }

  lemma AppendPublished(env: Env, s: State, after: State, tenant: string, id: string, e: EvidenceRef, next: Then)
    requires Appending(env, s, Link, tenant, id, e, next) && Gently(s.fs, after.fs, EvidenceName(id, e.id))
    requires Lookup(after.fs, EvidenceName(id, e.id)) == Some(EvidenceFile(e)) && after.used == s.used
    requires after.recs == s.recs
    ensures Appending(env, after, SyncFolder, tenant, id, e, next)
  {
    hide KeptCopy, JournalSafe, Normalize, JournalFree, Gently, Stable;
    var n := EvidenceName(id, e.id);
    RunKept(s.fs, after.fs, n, id);
    FreeKeptGently(s.fs, after.fs, n, e.id);
    if next.ToCommit? {
      CopyKept(env, s.fs, after.fs, n, next.run);
      JournalKept(s.fs, after.fs, n, id, next.j);
    }
  }

  lemma RegisterOne(env: Env, s: State, after: State, tenant: string, id: string, e: EvidenceRef, next: Then)
    requires Appending(env, after, SyncFolder, tenant, id, e, next) && Answers(after.(registered := s.registered))
    requires after.registered == if next.ToCommit? then s.registered + {(id, e.id)} else s.registered
    ensures Answers(after)
  {
    hide KeptCopy, Normalize, JournalFree, Stable, KeptRun;
    if next.ToCommit? {
      SafeIsHeld(after.fs, id, next.j);
    }
    hide JournalSafe, Candidate;
  }

  lemma EvidenceIsSafe(env: Env, fs: Fs, run: string, e: EvidenceRef, used: set<string>)
    requires DiskInv(env, fs, used) && Lookup(fs, EvidenceName(run, e.id)) == Some(EvidenceFile(e))
    ensures Safe(Sync(fs, EvidenceDir(run)), EvidenceName(run, e.id), EvidenceFile(e))
  {
    hide StoreInv, Shapes, Artifacts, Journals, Reserves, Submissions, AllUsed;
  }

  lemma AppendSyncKeeps(env: Env, s: State, tenant: string, id: string, e: EvidenceRef, next: Then)
    requires Inv(env, s) && s.up && s.op == Append(SyncFolder, tenant, id, e, next)
    ensures Inv(env, StepAppend(s, SyncFolder, tenant, id, e, next))
  {
    hide DiskInv, PutsOk, Records, Answers, Gently, Calm, Sync, KeptCopy, JournalSafe, Safe, Stable, Normalize,
         JournalFree;
    var after := StepAppend(s, SyncFolder, tenant, id, e, next);
    var synced := s.(fs := after.fs);
    SyncCalm(s.fs, EvidenceDir(id));
    HolderCalm(env, s, synced);
    PutsSame(env, synced, after);
    CalmGently(s.fs, after.fs);
    AppendingKept(env, s, synced, NOWHERE, SyncFolder, tenant, id, e, next);
    EvidenceIsSafe(env, s.fs, id, e, s.used);
    RecordOne(env, synced, after, tenant, id, e, next);
    AnswersSame(synced, after);
  }

  lemma PutsSame(env: Env, s: State, after: State)
    requires PutsOk(env, s) && after.fs == s.fs && after.puts == s.puts && after.used == s.used
    ensures PutsOk(env, after)
  {
    hide PutFacts;
  }

  lemma AnswersSame(s: State, after: State)
    requires Answers(s) && after.fs == s.fs && after.acks == s.acks && after.registered == s.registered
    ensures Answers(after)
  {
    hide KeptRun, JournalSafe;
  }

  lemma RecordOne(env: Env, s: State, after: State, tenant: string, id: string, e: EvidenceRef, next: Then)
    requires Records(s) && s.up && Appending(env, s, SyncFolder, tenant, id, e, next)
    requires Safe(s.fs, EvidenceName(id, e.id), EvidenceFile(e))
    requires after.fs == s.fs && after.up && after.recs == s.recs[e.id := Record(tenant, id, e)]
    ensures Records(after)
  {
    hide KeptCopy, JournalSafe, Normalize, Candidate, JournalFree, Safe;
  }

  lemma AppendKeeps(env: Env, s: State, stage: Stage, tenant: string, id: string, e: EvidenceRef, next: Then)
    requires Inv(env, s) && s.up && s.op == Append(stage, tenant, id, e, next)
    ensures Inv(env, StepAppend(s, stage, tenant, id, e, next))
  {
    hide DiskInv, PutsOk, Records, Answers, Normalize, KeptCopy, JournalSafe, JournalFree, Stable;
    match stage
    case MakeFolder => AppendFolderKeeps(env, s, tenant, id, e, next);
    case SyncParent => AppendRootKeeps(env, s, tenant, id, e, next);
    case SyncFolder => AppendSyncKeeps(env, s, tenant, id, e, next);
    case Link =>
      if EvidenceName(id, e.id) in s.fs.visible {
        HolderCalm(env, s, StepAppend(s, Link, tenant, id, e, next));
      } else {
        AppendLinkKeeps(env, s, tenant, id, e, next);
      }
  }

  /** No journal the scan can see, and there is no other, reserves the id. */
  lemma ScanIsComplete(env: Env, fs: Fs, used: set<string>, x: string)
    requires DiskInv(env, fs, used) && !IsReserved(fs, x)
    ensures JournalFree(fs, x)
  {
    hide StoreInv, Layout, Artifacts, Reserves, Submissions, AllUsed, Shape, ArtifactSafe, ValidJournal;
    forall id, j | HasJournal(fs, id, j) ensures j.evidence.id != x {
      assert JournalBacked(env, fs, id, j);
      assert Lookup(fs, JournalName(id)) == Some(JournalFile(j));
    }
  }

  lemma AppendStartKeeps(env: Env, s: State, tenant: string, id: string, e: EvidenceRef, after: State)
    requires Inv(env, s) && HolderNext(env, s, AppendStart(tenant, id, e), after)
    ensures Inv(env, after)
  {
    hide DiskInv, PutsOk, Records, Answers, Gently, Normalize, Bound, NamespaceOk, JournalFree, IsReserved,
         Candidate, OpOk;
    assert Calm(s.fs, after.fs);
    HolderCalm(env, s, after);
    CalmGently(s.fs, after.fs);
    var n := Normalize(e).value;
    NormalizeTwice(e);
    ScanIsComplete(env, s.fs, s.used, n.id);
    FreeKeptGently(s.fs, after.fs, NOWHERE, n.id);
    RunKept(s.fs, after.fs, NOWHERE, id);
    AppendBegins(env, after, tenant, id, n);
  }

  lemma AppendBegins(env: Env, s: State, tenant: string, id: string, e: EvidenceRef)
    requires s.op == Append(MakeFolder, tenant, id, e, ToCaller) && Normalize(e) == Ok(e) && JournalFree(s.fs, e.id)
    requires e.id in s.used && e.id !in s.recs && BelongsTo(s.fs, id, tenant)
    ensures OpOk(env, s)
  {
  }

  // ---- Run files ----

  /** What an attempted write of a run file does to the disk. */
  ghost predicate RunPut(fs: Fs, after: Fs, id: string, r: Run, fault: Fault) {
    && Change(fs, after, RunName(id)) && (RunName(id) in fs.visible ==> RunName(id) in after.visible)
    && (forall v :: Candidate(after, RunName(id), v) ==> Candidate(fs, RunName(id), v) || v == Some(RunFile(r)))
    && (RunAt(after, id) == RunAt(fs, id) || RunAt(after, id) == Some(r))
    && (fault.NoFault? ==> forall v :: Candidate(after, RunName(id), v) ==> v == Some(RunFile(r)))
    && (fault.NoFault? ==> RunAt(after, id) == Some(r))
  }

  lemma PutRunShape(fs: Fs, id: string, r: Run, fault: Fault)
    ensures RunPut(fs, PutRun(fs, id, r, fault), id, r, fault)
  {
  }

  ghost predicate RunUpdated(fs: Fs, after: Fs, id: string, m: Mutation) {
    && StoreInv(after) && Gently(fs, after, RunName(id)) && (RunName(id) in fs.visible ==> RunName(id) in after.visible)
    && forall r :: HasRun(after, id, r) ==> HasRun(fs, id, r) || Renewed(fs, id, m, r)
  }

  /** What an update of a run does: the record keeps its id and terms, and its submission unless this is one. */
  lemma UpdateShape(env: Env, fs: Fs, id: string, m: Mutation, fault: Fault, used: set<string>)
    requires DiskInv(env, fs, used)
    ensures RunUpdated(fs, UpdateRun(fs, id, m, fault).0, id, m)
  {
    hide Shapes, Layout, Artifacts, Journals, Reserves, Submissions, AllUsed, Mutate, PutRun, Change, Candidate,
         History;
    UpdateKeeps(fs, id, m, fault);
    if RunAt(fs, id).Some? && Mutate(m, RunAt(fs, id).value).Ok? {
      var r := Mutate(m, RunAt(fs, id).value).value;
      MutateFrame(m, RunAt(fs, id).value);
      PutRunShape(fs, id, r, fault);
    } else {
      CalmGently(fs, fs);
      SameChange(fs, RunName(id));
    }
  }

  lemma SameChange(fs: Fs, n: Name)
    ensures Change(fs, fs, n)
  {
  }

  ghost predicate Renewed(fs: Fs, id: string, m: Mutation, r: Run) {
    RunAt(fs, id).Some? && Mutate(m, RunAt(fs, id).value) == Ok(r)
  }

  /** An update that is no submission keeps the submission and the input, and nobody's update changes the terms. */
  ghost predicate Successor(fs: Fs, id: string, r: Run) {
    match RunAt(fs, id)
    case None => false
    case Some(current) =>
        r.terms == current.terms && r.submission == current.submission && r.inputs == current.inputs &&
            HasRun(fs, id, current)
  }

  ghost predicate GoodNow(env: Env, id: string, r: Run, used: set<string>) {
    r.id == id && GoodRun(env, r) && id in used
  }

  lemma RenewedGood(env: Env, fs: Fs, id: string, m: Mutation, current: Run, r: Run, used: set<string>)
    requires DiskInv(env, fs, used) && RunAt(fs, id) == Some(current) && Mutate(m, current) == Ok(r)
    requires (m.Submit? ==> current.Manual())
    ensures GoodNow(env, id, r, used) && r.terms == current.terms && (!m.Submit? ==> Successor(fs, id, r))
  {
    hide StoreInv, Layout, Artifacts, Journals, Reserves, Submissions, Mutate, NamespaceOk, Minted;
    assert Candidate(fs, RunName(id), Some(RunFile(current)));
    assert Shape(env, RunName(id), RunFile(current)) && IdsIn(RunName(id), RunFile(current)) <= used;
    MutateFrame(m, current);
    Creation.FingerprintSurvives(env.lib, m, current);
    if !m.Submit? && (current.status == Preparing || current.status == Cancelled) {
      UnsubmittedStays(m, current, r);
    }
  }

  /** A manual run without a submission can only stay, or be cancelled. */
  lemma UnsubmittedStays(m: Mutation, r: Run, after: Run)
    requires Mutate(m, r) == Ok(after) && !m.Submit? && (r.status == Preparing || r.status == Cancelled)
    ensures after.status == Preparing || after.status == Cancelled
  {
    hide FinalResult, FailedResult, CancelledResult, BoundResult, FinalStatus;
    MutateStatus(m, r);
  }

  lemma EnvUpdateKeeps(env: Env, s: State, id: string, m: Mutation, fault: Fault, after: State)
    requires Inv(env, s) && WorldNext(env, s, EnvUpdate(id, m, fault), after)
    ensures Inv(env, after)
  {
    hide DiskInv, PutsOk, OpOk, Records, Answers, Gently, UpdateRun, GoodNow, Successor, HasRun;
    UpdateShape(env, s.fs, id, m, fault, s.used);
    forall r | HasRun(after.fs, id, r)
      ensures HasRun(s.fs, id, r) || (GoodNow(env, id, r, s.used) && Successor(s.fs, id, r)) {
      if !HasRun(s.fs, id, r) {
        RenewedGood(env, s.fs, id, m, RunAt(s.fs, id).value, r, s.used);
      }
    }
    RunWriteKeeps(env, s, after, id);
  }

  /** A write of a run file by anybody but the submitter. */
  lemma RunWriteKeeps(env: Env, s: State, after: State, id: string)
    requires Inv(env, s) && s.up && StoreInv(after.fs) && Gently(s.fs, after.fs, RunName(id))
    requires RunName(id) in s.fs.visible ==> RunName(id) in after.fs.visible
    requires s.used <= after.used && after == s.(fs := after.fs, used := after.used)
    requires forall r :: HasRun(after.fs, id, r) ==>
      || HasRun(s.fs, id, r)
      || (GoodNow(env, id, r, after.used) && (Successor(s.fs, id, r) || (RunAt(s.fs, id).None? && r.submission.None?)))
    ensures Inv(env, after)
  {
    hide StoreInv, Shapes, Layout, Artifacts, Journals, Reserves, Submissions, AllUsed, PutFacts, OpOk, Records,
         Answers, Gently, GoodRun, HasRun, Backed, JournalSafe;
    var n := RunName(id);
    forall r | HasRun(after.fs, id, r) && r.submission.Some? && !HasRun(s.fs, id, r) ensures Recorded(s, id, r) {
      SubmittedRecord(s, id, RunAt(s.fs, id).value);
      SameSubmission(s.fs, id, RunAt(s.fs, id).value, r);
    }
    DiskKept(env, s.fs, after.fs, n, s.used, after.used);
    PutsStay(env, s, after, n);
    OpKept(env, s, after, n);
    RecordsKept(env, s, after, n);
    AnswersKept(s, after, n);
  }

  /** A submitted run has its journal and its record, on disk and in memory. */
  ghost predicate Recorded(s: State, id: string, r: Run) {
    Backed(s.fs, id, r) && SafeJournal(s.fs, id) && RecordThere(s.fs, id, r.Tenant(), s.recs)
  }

  lemma SubmittedRecord(s: State, id: string, r: Run)
    requires Records(s) && s.up && Submissions(s.fs) && HasRun(s.fs, id, r) && r.submission.Some?
    ensures Recorded(s, id, r)
  {
    hide HasRun, Safe, JournalSafe;
  }

  lemma SameSubmission(fs: Fs, id: string, a: Run, b: Run)
    requires Backed(fs, id, a) && b.submission == a.submission && b.inputs == a.inputs
    ensures Backed(fs, id, b)
  {
  }

  lemma EnvCreateKeeps(env: Env, s: State, run: Run, fault: Fault, after: State)
    requires Inv(env, s) && WorldNext(env, s, EnvCreate(run, fault), after)
    ensures Inv(env, after)
  {
    hide DiskInv, PutsOk, OpOk, Records, Answers, Gently, CreateRun, GoodRun, HasRun, History;
    CreateShape(env, s.fs, run, fault, s.used);
    RunWriteKeeps(env, s, after, run.id);
  }

  ghost predicate RunCreated(env: Env, fs: Fs, after: Fs, run: Run) {
    && StoreInv(after) && Gently(fs, after, RunName(run.id)) && GoodRun(env, run)
    && RunAt(fs, run.id).None? && RunName(run.id) !in fs.visible
    && forall r :: HasRun(after, run.id, r) ==> HasRun(fs, run.id, r) || r == run
  }

  lemma CreateShape(env: Env, fs: Fs, run: Run, fault: Fault, used: set<string>)
    requires DiskInv(env, fs, used) && Created(env, run) && run.id !in used
    ensures RunCreated(env, fs, CreateRun(fs, run, fault).0, run)
  {
    hide Layout, Artifacts, Journals, Reserves, Submissions, Shapes, PutRun, History, KeyUsed;
    CreateKeeps(fs, run, fault);
    assert RunAt(fs, run.id).Some? ==> Candidate(fs, RunName(run.id), Some(RunFile(RunAt(fs, run.id).value)));
    assert RunAt(fs, run.id).Some? ==> IdsIn(RunName(run.id), RunFile(RunAt(fs, run.id).value)) <= used;
    PutRunShape(fs, run.id, run, fault);
    SameChange(fs, RunName(run.id));
    var held := Lookup(fs, RunName(run.id));
    assert held.Some? ==> Candidate(fs, RunName(run.id), Some(held.value));
  }

  // ---- The commit ----

  ghost predicate Ready(env: Env, s: State, run: Run, j: Journal) {
    && KeptCopy(env, s.fs, run) && ValidJournal(env, run, j)
    && JournalAt(s.fs, run.id) == Some(j) && JournalSafe(s.fs, run.id, j)
    && Safe(s.fs, EvidenceName(run.id, j.evidence.id), EvidenceFile(j.evidence))
    && j.evidence.id in s.recs && s.recs[j.evidence.id] == Record(run.Tenant(), run.id, j.evidence)
  }

  /** Everything the queued record will rely on is durable. */
  lemma CommitReadyBacked(env: Env, s: State, run: Run, j: Journal)
    requires Inv(env, s) && s.up && s.op == Commit(run, j)
    ensures Ready(env, s, run, j)
  {
    hide DiskInv, KeptCopy, JournalSafe, ValidJournal, ArtifactSafe;
    JournalFacts(env, s.fs, run, j, s.used);
  }

  lemma SubmitMakes(m: Mutation, r: Run, after: Run)
    requires m.Submit? && Mutate(m, r) == Ok(after)
    ensures r.status == Preparing && r.submission.None?
    ensures after.submission == Some(m.submission) && after.inputs == m.inputs && after.terms == r.terms
  {
    hide Moved;
    MutateFrame(m, r);
  }

  lemma CommitKeeps(env: Env, s: State, now: int, fault: Fault, after: State)
    requires Inv(env, s) && HolderNext(env, s, SubmitCommit(now, fault), after)
    ensures Inv(env, after)
  {
    hide StoreInv, Shapes, Layout, Artifacts, Journals, Reserves, Submissions, AllUsed, PutFacts, Records,
         Answers, Gently, GoodRun, HasRun, UpdateRun, Renewed, JournalSafe, Safe, ValidJournal, Mutate;
    var run, j := s.op.run, s.op.j;
    var id, m, n := run.id, Submit(FrozenInput(j), j.submission, now), RunName(run.id);
    UpdateShape(env, s.fs, id, m, fault, s.used);
    CommitReadyBacked(env, s, run, j);
    forall r | HasRun(after.fs, id, r) && !HasRun(s.fs, id, r) ensures CommittedAs(env, s, run, r) {
      CommittedRun(env, s, run, j, now, r);
    }
    DiskKept(env, s.fs, after.fs, n, s.used, s.used);
    PutsStay(env, s, after, n);
    RecordsKept(env, s, after, n);
    AnswersKept(s, after.(acks := s.acks), n);
    CommitAnswer(env, s, run, j, now, fault, after);
  }

  /** The committed record is backed by its journal, and none was committed before. */
  ghost predicate CommittedAs(env: Env, s: State, run: Run, r: Run) {
    && GoodNow(env, run.id, r, s.used) && Backed(s.fs, run.id, r) && r.Tenant() == run.Tenant()
    && RunAt(s.fs, run.id).Some? && RunAt(s.fs, run.id).value.submission == None
  }

  lemma CommittedRun(env: Env, s: State, run: Run, j: Journal, now: int, r: Run)
    requires Inv(env, s) && s.up && s.op == Commit(run, j)
    requires Renewed(s.fs, run.id, Submit(FrozenInput(j), j.submission, now), r)
    ensures CommittedAs(env, s, run, r)
  {
    hide DiskInv, PutsOk, Records, Answers, GoodRun, JournalSafe, Safe, ValidJournal, Mutate, HasRun;
    var m := Submit(FrozenInput(j), j.submission, now);
    CommitReadyBacked(env, s, run, j);
    assert run.Manual() && RunAt(s.fs, run.id).value.terms == run.terms;
    RenewedGood(env, s.fs, run.id, m, RunAt(s.fs, run.id).value, r, s.used);
    SubmitMakes(m, RunAt(s.fs, run.id).value, r);
  }

  lemma CommitAnswer(env: Env, s: State, run: Run, j: Journal, now: int, fault: Fault, after: State)
    requires ValidJournal(env, run, j) && Answers(after.(acks := s.acks))
    requires after == CommitRun(s, run, j, now, fault)
    ensures Answers(after)
  {
    hide Mutate, PutRun, JournalSafe, Candidate;
    var id, m := run.id, Submit(FrozenInput(j), j.submission, now);
    if UpdateRun(s.fs, id, m, fault).1.Ok? {
      var r := Mutate(m, RunAt(s.fs, id).value).value;
      SubmitMakes(m, RunAt(s.fs, id).value, r);
      PutRunShape(s.fs, id, r, fault);
    }
  }

  // ---- Uploads ----

  /** A step of one upload. */
  lemma PutMoves(env: Env, s: State, after: State, n: Name, k: nat, p: Put)
    requires Inv(env, s) && s.up && PutAt(s, k) == Some(p)
    requires StoreInv(after.fs) && Gently(s.fs, after.fs, n) && Fits(env, s.fs, after.fs, n, s.used)
    requires n in s.fs.visible && n !in after.fs.visible ==> n.BytesName?
    requires Touches(n, p.id) || IsFolder(n)
    requires OthersPut(s, after, k) && after == s.(fs := after.fs, puts := after.puts) && PutGoesOn(env, s, after, k)
    ensures Inv(env, after)
  {
    hide StoreInv, Shapes, Layout, Artifacts, Journals, Reserves, Submissions, AllUsed, PutFacts, OpOk, Records,
         Answers, Gently, Fits;
    DiskKept(env, s.fs, after.fs, n, s.used, s.used);
    PutsKept(env, s, after, n, k);
    OpKept(env, s, after, n);
    RecordsKept(env, s, after, n);
    AnswersKept(s, after, n);
  }

  lemma FactsOf(env: Env, s: State, k: nat, p: Put)
    requires PutsOk(env, s) && PutAt(s, k) == Some(p)
    ensures PutFacts(env, s.fs, s.used, p)
  {
    hide PutFacts;
  }

  lemma SameOthers(s: State, k: nat, p: Put, fs: Fs)
    ensures OthersPut(s, WithPut(s, k, p, fs), k) && OthersPut(s, WithoutPut(s, k, fs), k)
  {
  }

  lemma PutFolderKeeps(env: Env, s: State, k: nat, p: Put)
    requires Inv(env, s) && s.up && PutAt(s, k) == Some(p) && p.stage == PutFolder
    ensures Inv(env, StepPut(s, k, p))
  {
    hide DiskInv, PutsOk, OpOk, Records, Answers, Gently, PutFacts, Fits;
    var after := StepPut(s, k, p);
    FactsOf(env, s, k, p);
    SameOthers(s, k, p.(stage := PutCreate), after.fs);
    var n := FolderMade(env, s.fs, ArtifactFolder(p.run), s.used);
    PutKept(env, s.fs, after.fs, n, s.used, s.used, p);
    PutNextFacts(env, after.fs, s.used, p, p.(stage := PutCreate));
    if n == NOWHERE {
      CalmKeeps(env, s, after, k);
    } else {
      PutMoves(env, s, after, n, k, p);
    }
  }

  /** Making a folder is a change of that folder, or no change. */
  lemma FolderMade(env: Env, fs: Fs, f: Name, used: set<string>) returns (n: Name)
    requires DiskInv(env, fs, used) && IsFolder(f) && Above(f) <= fs.visible.Keys
    ensures f in Mkdir(fs, f).visible && StoreInv(Mkdir(fs, f))
    ensures n == if f in fs.visible then NOWHERE else f
    ensures Gently(fs, Mkdir(fs, f), n) && (n == NOWHERE ==> Calm(fs, Mkdir(fs, f)))
    ensures (n == f ==> Fits(env, fs, Mkdir(fs, f), f, used))
    ensures n in fs.visible ==> n in Mkdir(fs, f).visible
  {
    hide StoreInv, Layout, Artifacts, Journals, Reserves, Submissions, AllUsed, Gently, Shape;
    if f in fs.visible {
      n := NOWHERE;
      CalmGently(fs, fs);
    } else {
      n := f;
      PublishShape(env, fs, f, Folder);
      PublishStore(fs, f, Folder);
    }
  }

  /** The facts of the next stage are those of this one and what the step added. */
  lemma PutNextFacts(env: Env, fs: Fs, used: set<string>, p: Put, q: Put)
    requires PutFacts(env, fs, used, p) && q.id == p.id && q.run == p.run && q.ref == p.ref
    requires q.stage.Unpublished() ==> p.stage.Unpublished()
    requires q.stage.Written() ==> p.stage.Written()
    requires q.stage == PutCreate ==> ArtifactFolder(p.run) in fs.visible
    requires q.stage == PutWrite ==> BytesName(p.run, p.id) in fs.visible
    requires q.stage == PutSyncRun ==> Stable(fs, ArtifactFolder(p.run))
    requires q.stage == PutMetaFolder || q.stage == PutMeta ==> BytesStored(env, fs, p)
    requires q.stage == PutMeta ==> MetaFolder(p.run) in fs.visible
    ensures PutFacts(env, fs, used, q)
  {
    hide MetaFree, StoredBytes, Registered, Describes, Minted;
  }

  lemma WriteBytes(env: Env, fs: Fs, run: string, id: string, data: Bytes, used: set<string>)
    requires DiskInv(env, fs, used) && MetaFree(fs, id) && id in used && ArtifactFolder(run) in fs.visible
    ensures var (n, after) := (BytesName(run, id), Publish(fs, BytesName(run, id), BytesFile(data)));
      StoreInv(after) && Gently(fs, after, n) && Fits(env, fs, after, n, used) && BytesAt(after, run, id) == Ok(data)
    ensures var (n, after) := (BytesName(run, id), Remove(fs, BytesName(run, id)));
      StoreInv(after) && Gently(fs, after, n) && Fits(env, fs, after, n, used)
  {
    hide StoreInv, Layout, Artifacts, Journals, Reserves, Submissions, AllUsed, MetaFree;
    var n := BytesName(run, id);
    PublishStore(fs, n, BytesFile(data));
    assert forall v :: Candidate(fs, n, Some(v)) ==> Shape(env, n, v);
  }

  lemma VisibleBytesFolder(env: Env, fs: Fs, run: string, id: string, used: set<string>)
    requires DiskInv(env, fs, used) && BytesName(run, id) in fs.visible
    ensures ArtifactFolder(run) in fs.visible
  {
    hide StoreInv, Shapes, Artifacts, Journals, Reserves, Submissions, AllUsed;
  }

  lemma PutCreateKeeps(env: Env, s: State, k: nat, p: Put)
    requires Inv(env, s) && s.up && PutAt(s, k) == Some(p) && p.stage == PutCreate
    requires BytesName(p.run, p.id) !in s.fs.visible
    ensures Inv(env, StepPut(s, k, p))
  {
    hide DiskInv, PutsOk, OpOk, Records, Answers, Gently, MetaFree, Fits, Minted;
    var after := StepPut(s, k, p);
    FactsOf(env, s, k, p);
    SameOthers(s, k, p.(stage := PutWrite), after.fs);
    WriteBytes(env, s.fs, p.run, p.id, [], s.used);
    MetaFreeKept(s.fs, after.fs, BytesName(p.run, p.id), p.id);
    PutMoves(env, s, after, BytesName(p.run, p.id), k, p);
  }

  lemma PutDataKeeps(env: Env, s: State, k: nat, data: Bytes, name: string, mediaType: string, now: int, after: State)
    requires Sound(env) && Inv(env, s) && PutNext(env, s, PutData(k, data, name, mediaType, now), after)
    ensures Inv(env, after)
  {
    hide DiskInv, PutsOk, OpOk, Records, Answers, Gently, MetaFree, Fits, Minted, StoredBytes;
    var p := s.puts[k];
    FactsOf(env, s, k, p);
    VisibleBytesFolder(env, s.fs, p.run, p.id, s.used);
    SameOthers(s, k, after.puts[k], after.fs);
    WriteBytes(env, s.fs, p.run, p.id, data, s.used);
    MetaFreeKept(s.fs, after.fs, BytesName(p.run, p.id), p.id);
    PutMoves(env, s, after, BytesName(p.run, p.id), k, p);
  }

  ghost predicate BytesStored(env: Env, fs: Fs, p: Put) {
    p.ref.Some? && StoredBytes(env, fs, p.run, p.ref.value)
  }

  lemma PutCalmKeeps(env: Env, s: State, k: nat, p: Put, next: PutStage, d: Dir)
    requires Inv(env, s) && s.up && PutAt(s, k) == Some(p) && p.stage.Unpublished() == next.Unpublished()
    requires p.stage.Written() == next.Written()
    requires next != PutCreate && next != PutWrite && next != PutMeta
    requires next == PutSyncRun ==> Stable(Sync(s.fs, d), ArtifactFolder(p.run))
    requires next == PutMetaFolder ==> BytesStored(env, Sync(s.fs, d), p)
    ensures Inv(env, WithPut(s, k, p.(stage := next), Sync(s.fs, d)))
  {
    hide DiskInv, PutsOk, OpOk, Records, Answers, Gently, PutFacts, Stable, StoredBytes, Sync, Touches;
    var fs := Sync(s.fs, d);
    FactsOf(env, s, k, p);
    SyncCalm(s.fs, d);
    CalmGently(s.fs, fs);
    SameOthers(s, k, p.(stage := next), fs);
    NowhereTouches(p.id);
    PutKept(env, s.fs, fs, NOWHERE, s.used, s.used, p);
    PutNextFacts(env, fs, s.used, p, p.(stage := next));
    CalmKeeps(env, s, WithPut(s, k, p.(stage := next), fs), k);
  }

  lemma NowhereTouches(id: string)
    ensures !Touches(NOWHERE, id)
  {
  }

  lemma PutRootFacts(env: Env, s: State, k: nat, p: Put)
    requires Inv(env, s) && PutAt(s, k) == Some(p) && p.stage == PutSyncRoot
    ensures Stable(Sync(s.fs, ArtifactRoot), ArtifactFolder(p.run))
  {
    hide DiskInv, PutsOk, OpOk, Records, Answers, MetaFree, Minted, StoredBytes, Registered;
    FactsOf(env, s, k, p);
    VisibleBytesFolder(env, s.fs, p.run, p.id, s.used);
    FolderIsStable(s.fs, ArtifactFolder(p.run), ArtifactRoot);
  }

  lemma PutRunFacts(env: Env, s: State, k: nat, p: Put)
    requires Inv(env, s) && PutAt(s, k) == Some(p) && p.stage == PutSyncRun
    ensures BytesStored(env, Sync(s.fs, ArtifactDir(p.run)), p)
  {
    hide DiskInv, PutsOk, OpOk, Records, Answers, MetaFree, Minted;
    FactsOf(env, s, k, p);
    SyncCalm(s.fs, ArtifactDir(p.run));
  }

  lemma PutMetaFolderKeeps(env: Env, s: State, k: nat, p: Put)
    requires Inv(env, s) && s.up && PutAt(s, k) == Some(p) && p.stage == PutMetaFolder
    ensures Inv(env, StepPut(s, k, p))
  {
    hide DiskInv, PutsOk, OpOk, Records, Answers, Gently, Fits, MetaFree, Minted, Registered;
    var after := StepPut(s, k, p);
    FactsOf(env, s, k, p);
    SameOthers(s, k, p.(stage := PutMeta), after.fs);
    BytesFolder(env, s.fs, p.run, p.ref.value);
    var n := FolderMade(env, s.fs, MetaFolder(p.run), s.used);
    PutKept(env, s.fs, after.fs, n, s.used, s.used, p);
    PutNextFacts(env, after.fs, s.used, p, p.(stage := PutMeta));
    if n == NOWHERE {
      CalmKeeps(env, s, after, k);
    } else {
      PutMoves(env, s, after, n, k, p);
    }
  }

  lemma BytesFolder(env: Env, fs: Fs, run: string, a: ArtifactRef)
    requires StoredBytes(env, fs, run, a)
    ensures ArtifactFolder(run) in fs.visible
  {
    assert ArtifactFolder(run) in Above(BytesName(run, a.id));
  }

  lemma PutMetaKeeps(env: Env, s: State, k: nat, p: Put)
    requires Inv(env, s) && s.up && PutAt(s, k) == Some(p) && p.stage == PutMeta
    requires MetaName(p.run, p.id) !in s.fs.visible
    ensures Inv(env, StepPut(s, k, p))
  {
    hide StoreInv, Layout, Artifacts, Journals, Reserves, Submissions, AllUsed, PutsOk, OpOk, Records, Answers,
         Gently, MetaFree, Minted, StoredBytes, Registered, Shape;
    var after := StepPut(s, k, p);
    var n := MetaName(p.run, p.id);
    FactsOf(env, s, k, p);
    SameOthers(s, k, p.(stage := PutSyncMeta), after.fs);
    BytesFolder(env, s.fs, p.run, p.ref.value);
    PublishShape(env, s.fs, n, MetaFile(p.ref.value));
    PublishStore(s.fs, n, MetaFile(p.ref.value));
    PutMoves(env, s, after, n, k, p);
  }

  /** An upload that ends, whatever it leaves behind. */
  lemma PutEnds(env: Env, s: State, k: nat, p: Put)
    requires Inv(env, s) && s.up && PutAt(s, k) == Some(p)
    ensures Inv(env, WithoutPut(s, k, s.fs))
  {
    hide DiskInv, PutsOk, OpOk, Records, Answers, PutFacts;
    SameOthers(s, k, p, s.fs);
    CalmKeeps(env, s, WithoutPut(s, k, s.fs), k);
  }

  lemma PutFailKeeps(env: Env, s: State, k: nat, removed: bool, after: State)
    requires Inv(env, s) && PutNext(env, s, PutFail(k, removed), after)
    ensures Inv(env, after)
  {
    hide DiskInv, PutsOk, OpOk, Records, Answers, Gently, MetaFree, Fits, Minted, StoredBytes, Registered, Describes;
    var p := s.puts[k];
    if removed {
      FactsOf(env, s, k, p);
      VisibleBytesFolder(env, s.fs, p.run, p.id, s.used);
      SameOthers(s, k, p, after.fs);
      WriteBytes(env, s.fs, p.run, p.id, [], s.used);
      PutMoves(env, s, after, BytesName(p.run, p.id), k, p);
    } else {
      PutEnds(env, s, k, p);
    }
  }

  lemma LastSyncKeeps(env: Env, s: State, k: nat, p: Put)
    requires Inv(env, s) && s.up && PutAt(s, k) == Some(p) && p.stage == PutSyncAgain
    ensures Inv(env, StepPut(s, k, p))
  {
    hide DiskInv, PutsOk, OpOk, Records, Answers, PutFacts;
    var d := ArtifactDir(p.run);
    SyncCalm(s.fs, d);
    SameOthers(s, k, p, Sync(s.fs, d));
    CalmKeeps(env, s, StepPut(s, k, p), k);
  }

  lemma StepPutKeeps(env: Env, s: State, k: nat, p: Put)
    requires Inv(env, s) && s.up && PutAt(s, k) == Some(p) && Moves(p)
    ensures Inv(env, StepPut(s, k, p))
  {
    hide Inv, Sync, Stable, BytesStored, Mkdir, Publish;
    match p.stage
    case PutFolder => PutFolderKeeps(env, s, k, p);
    case PutCreate =>
        if BytesName(p.run, p.id) in s.fs.visible { PutEnds(env, s, k, p); } else { PutCreateKeeps(env, s, k, p); }
    case PutSyncRoot => PutRootFacts(env, s, k, p); PutCalmKeeps(env, s, k, p, PutSyncRun, ArtifactRoot);
    case PutSyncRun => PutRunFacts(env, s, k, p); PutCalmKeeps(env, s, k, p, PutMetaFolder, ArtifactDir(p.run));
    case PutMetaFolder => PutMetaFolderKeeps(env, s, k, p);
    case PutMeta =>
        if MetaName(p.run, p.id) in s.fs.visible { PutEnds(env, s, k, p); } else { PutMetaKeeps(env, s, k, p); }
    case PutSyncMeta => PutCalmKeeps(env, s, k, p, PutSyncAgain, MetaDir(p.run));
    case PutSyncAgain => LastSyncKeeps(env, s, k, p);
  }

  lemma NewPutFacts(env: Env, s: State, id: string, run: string, promise: Promise)
    requires DiskInv(env, s.fs, s.used) && Minted("art", id) && id !in s.used
    ensures PutFacts(env, s.fs, s.used + {id}, Put(PutFolder, run, id, promise, None))
  {
    hide StoreInv, Shapes, Layout, Artifacts, Journals, Reserves, Submissions;
    forall r, ref ensures !Candidate(s.fs, MetaName(r, id), Some(MetaFile(ref))) {
      assert Candidate(s.fs, MetaName(r, id), Some(MetaFile(ref))) ==> IdsIn(MetaName(r, id), MetaFile(ref)) <= s.used;
    }
  }

  lemma PutBegins(env: Env, s: State, k: nat, id: string, run: string, promise: Promise)
    requires Inv(env, s) && s.up && k !in s.puts && Minted("art", id) && id !in s.used
    ensures Inv(env, s.(used := s.used + {id}, puts := s.puts[k := Put(PutFolder, run, id, promise, None)]))
  {
    hide DiskInv, PutsOk, OpOk, Records, Answers, PutFacts;
    NewPutFacts(env, s, id, run, promise);
    CalmKeeps(env, s, s.(used := s.used + {id}, puts := s.puts[k := Put(PutFolder, run, id, promise, None)]), k);
  }

  lemma PutKeeps(env: Env, s: State, step: Step, after: State)
    requires Sound(env) && Inv(env, s) && PutNext(env, s, step, after)
    ensures Inv(env, after)
  {
    hide Inv, StepPut, Sound;
    match step
    case PutStart(k, id, artifact, promise) => PutBegins(env, s, k, artifact, id, promise);
    case PutData(k, data, name, mediaType, now) => PutDataKeeps(env, s, k, data, name, mediaType, now, after);
    case PutStep(k) => StepPutKeeps(env, s, k, s.puts[k]);
    case PutFail(k, removed) => PutFailKeeps(env, s, k, removed, after);
    case _ =>
  }

  lemma UploadKeeps(env: Env, s: State, k: nat, tenant: string, id: string, artifact: string, after: State)
    requires Inv(env, s) && HolderNext(env, s, UploadStart(k, tenant, id, artifact), after)
    ensures Inv(env, after)
  {
    var begun := s.(op := Uploading(k));
    HolderOnly(env, s, Uploading(k));
    hide Inv, RunAt;
    var m := RunAt(s.fs, id).value.terms.manifest.value;
    PutBegins(env, begun, k, artifact, id, Promise(m.sha256, m.sizeBytes, Creation.InputLimit(env.limit)));
  }

  lemma HolderOnly(env: Env, s: State, op: Op)
    requires Inv(env, s) && s.up && (op.Free? || op.Uploading?)
    ensures Inv(env, s.(op := op))
  {
    hide DiskInv, PutFacts, JournalSafe;
  }

  lemma HolderKeeps(env: Env, s: State, step: Step, after: State)
    requires Inv(env, s) && HolderNext(env, s, step, after)
    ensures Inv(env, after)
  {
    hide Inv, Stepped, StartSubmit, CommitRun, RunAt, Normalize, MayAppend, IsReserved, NewJournal, Minted;
    match step
    case SubmitStart(tenant, id, artifact) => StartKeeps(env, s, tenant, id, artifact, after);
    case SubmitMint(evidence, at) => MintKeeps(env, s, evidence, at, after);
    case SubmitCommit(now, fault) => CommitKeeps(env, s, now, fault, after);
    case AppendStart(tenant, id, e) => AppendStartKeeps(env, s, tenant, id, e, after);
    case Abort => HolderOnly(env, s, Free);
    case UploadStart(k, tenant, id, artifact) => UploadKeeps(env, s, k, tenant, id, artifact, after);
    case UploadEnd => HolderOnly(env, s, Free);
    case SubmitStep =>
      StepKeeps(env, s);
    case _ =>
  }

  lemma StepKeeps(env: Env, s: State)
    requires Inv(env, s) && s.up && Steps(s.op)
    ensures Inv(env, Stepped(env, s))
  {
    hide Inv, ReadJournal, ReadMeta, ReadInput, StepJournal, ReadEvidence, StepAppend;
    match s.op
    case FindJournal(run, artifact) => ReadJournalKeeps(env, s, run, artifact);
    case FindArtifact(run, artifact, known) => ReadMetaKeeps(env, s, run, artifact, known);
    case ReadArtifact(run, known, a) => ReadInputKeeps(env, s, run, known, a);
    case WriteJournal(stage, run, j) => JournalKeeps(env, s, stage, run, j);
    case FindEvidence(run, j) => ReadEvidenceKeeps(env, s, run, j);
    case Append(stage, tenant, id, e, next) => AppendKeeps(env, s, stage, tenant, id, e, next);
  }

  // ---- Stops and starts ----

  /** What a restart of the process, with or without a power loss, leaves. */
  lemma LossShape(fs: Fs, after: Fs)
    requires Restart(fs, after)
    ensures forall n, v :: Candidate(after, n, Some(v)) ==> Candidate(fs, n, Some(v))
    ensures forall n, node :: Safe(fs, n, node) ==> Safe(after, n, node)
    ensures after == fs || (forall n, v :: Candidate(after, n, v) ==> v == Lookup(after, n))
  {
    forall n, v | Candidate(after, n, Some(v)) ensures Candidate(fs, n, Some(v)) {
      LossPicksCandidates(fs, after, n, Some(v));
    }
    forall n, node | Safe(fs, n, node) ensures Safe(after, n, node) {
      SafeSurvives(fs, after, n, node);
    }
  }

  lemma LossShapes(env: Env, fs: Fs, after: Fs)
    requires Shapes(env, fs) && Restart(fs, after)
    ensures Shapes(env, after)
  {
    hide Restart, Shape, Safe;
    LossShape(fs, after);
    forall n, v | Candidate(after, n, Some(v))
      ensures Shape(env, n, v) && (WriteOnce(n) ==> Lookup(after, n) == Some(v)) {
      assert Candidate(fs, n, Some(v));
    }
  }

  lemma LossLayout(fs: Fs, after: Fs)
    requires Layout(fs) && Restart(fs, after)
    ensures Layout(after)
  {
  }

  lemma SafeBytesSame(fs: Fs, run: string, id: string, data: Bytes)
    requires Safe(fs, BytesName(run, id), BytesFile(data))
    ensures BytesAt(fs, run, id) == Ok(data)
  {
    assert Candidate(fs, BytesName(run, id), Lookup(fs, BytesName(run, id)));
  }

  lemma LossBytes(env: Env, fs: Fs, after: Fs, run: string, a: ArtifactRef)
    requires StoredBytes(env, fs, run, a) && Restart(fs, after)
    ensures StoredBytes(env, after, run, a) && BytesAt(after, run, a.id) == BytesAt(fs, run, a.id)
  {
    hide Restart, Safe;
    LossShape(fs, after);
    SafeBytesSame(after, run, a.id, BytesAt(fs, run, a.id).value);
  }

  lemma LossArtifacts(env: Env, fs: Fs, after: Fs)
    requires Artifacts(env, fs) && Restart(fs, after)
    ensures Artifacts(env, after)
  {
    hide Restart, StoredBytes, Safe;
    LossShape(fs, after);
    forall r, a, ref | Candidate(after, MetaName(r, a), Some(MetaFile(ref))) ensures StoredBytes(env, after, r, ref) {
      LossBytes(env, fs, after, r, ref);
    }
  }

  lemma LossRun(fs: Fs, after: Fs, id: string)
    requires StoreInv(fs) && StoreInv(after) && Restart(fs, after) && KeptRun(fs, id)
    ensures KeptRun(after, id) && RunAt(after, id).value.terms == RunAt(fs, id).value.terms
    ensures RunAt(after, id).value.id == RunAt(fs, id).value.id
  {
    hide History;
    LossPicksCandidates(fs, after, RunName(id), Lookup(after, RunName(id)));
    assert Above(RunName(id)) == {};
    assert Candidate(fs, RunName(id), Lookup(fs, RunName(id)));
    assert Candidate(after, RunName(id), Lookup(after, RunName(id)));
  }

  lemma LossJournals(env: Env, fs: Fs, after: Fs)
    requires StoreInv(fs) && StoreInv(after) && Journals(env, fs) && Restart(fs, after)
    ensures Journals(env, after)
  {
    hide Restart, StoredBytes, Safe, StoreInv, KeptRun, ValidJournal;
    LossShape(fs, after);
    forall id, j | HasJournal(after, id, j) ensures JournalBacked(env, after, id, j) {
      assert HasJournal(fs, id, j) && JournalBacked(env, fs, id, j);
      RunThere(fs, id);
      LossRun(fs, after, id);
      RunThere(after, id);
      JournalNeedsTerms(env, RunAt(fs, id).value, RunAt(after, id).value, j);
      LossBytes(env, fs, after, id, j.artifact);
    }
  }

  lemma RunThere(fs: Fs, id: string)
    requires KeptRun(fs, id)
    ensures RunAt(fs, id).Some?
  {
  }

  lemma LossReserves(fs: Fs, after: Fs)
    requires Reserves(fs) && Restart(fs, after)
    ensures Reserves(after)
  {
    hide Restart, Safe;
    LossShape(fs, after);
    assert forall id, j :: HasJournal(after, id, j) ==> HasJournal(fs, id, j);
    assert forall r, x, e :: HasEvidence(after, r, x, e) ==> HasEvidence(fs, r, x, e);
    hide HasJournal, HasEvidence;
  }

  lemma LossBacked(fs: Fs, after: Fs, id: string, r: Run)
    requires Backed(fs, id, r) && Restart(fs, after)
    ensures Backed(after, id, r) && JournalAt(after, id) == JournalAt(fs, id)
  {
    hide Restart, Safe;
    LossShape(fs, after);
    SafeIsHeld(after, id, JournalAt(fs, id).value);
  }

  lemma LossSubmissions(fs: Fs, after: Fs, used: set<string>)
    requires Submissions(fs) && AllUsed(fs, used) && Restart(fs, after)
    ensures Submissions(after) && AllUsed(after, used)
  {
    hide Restart, Safe, Backed, IdsIn;
    LossShape(fs, after);
    forall id, r | HasRun(after, id, r) && r.submission.Some? ensures Backed(after, id, r) {
      assert HasRun(fs, id, r);
      LossBacked(fs, after, id, r);
    }
  }

  lemma LossDisk(env: Env, fs: Fs, after: Fs, used: set<string>)
    requires DiskInv(env, fs, used) && Restart(fs, after)
    ensures DiskInv(env, after, used)
  {
    hide StoreInv, Shapes, Layout, Artifacts, Journals, Reserves, Submissions, AllUsed, Restart;
    RestartKeeps(fs, after);
    LossShapes(env, fs, after);
    LossLayout(fs, after);
    LossArtifacts(env, fs, after);
    LossJournals(env, fs, after);
    LossReserves(fs, after);
    LossSubmissions(fs, after, used);
  }

  lemma CrashKeeps(env: Env, s: State, after: State)
    requires Inv(env, s) && WorldNext(env, s, Crash, after)
    ensures Inv(env, after)
  {
    hide StoreInv, Shapes, Layout, Artifacts, Journals, Reserves, Submissions, AllUsed, PutsOk, OpOk, Records,
         Restart, Safe, KeptRun;
    LossDisk(env, s.fs, after.fs, s.used);
    LossShape(s.fs, after.fs);
    forall a | a in after.acks
      ensures KeptRun(after.fs, a.run) && forall r :: HasRun(after.fs, a.run, r) ==> r.submission == Some(a.submission)
    {
      LossRun(s.fs, after.fs, a.run);
      assert forall r :: HasRun(after.fs, a.run, r) ==> HasRun(s.fs, a.run, r);
    }
    forall p | p in after.registered
      ensures JournalAt(after.fs, p.0).Some? && JournalSafe(after.fs, p.0, JournalAt(after.fs, p.0).value)
      ensures JournalAt(after.fs, p.0).value.evidence.id == p.1
    {
      SafeIsHeld(after.fs, p.0, JournalAt(s.fs, p.0).value);
    }
    NoProcess(env, after);
  }

  lemma NoProcess(env: Env, s: State)
    requires s.op.Free? && s.puts == map[] && !s.up
    ensures OpOk(env, s) && PutsOk(env, s) && Records(s)
  {
  }

  /** A record that is visible when the evidence store loads is durable afterwards. */
  ghost predicate LoadsSafely(fs: Fs, run: string, x: string, node: Node) {
    && node.EvidenceFile? && node.evidence.id == x && Normalize(node.evidence) == Ok(node.evidence)
    && Safe(SyncEvidence(fs), EvidenceName(run, x), node)
  }

  lemma LoadedIsSafe(env: Env, fs: Fs, run: string, x: string, node: Node, used: set<string>)
    requires DiskInv(env, fs, used) && Lookup(fs, EvidenceName(run, x)) == Some(node)
    ensures LoadsSafely(fs, run, x, node)
  {
    hide StoreInv, Artifacts, Journals, Reserves, Submissions, AllUsed, Normalize;
    assert Candidate(fs, EvidenceName(run, x), Some(fs.visible[EvidenceName(run, x)]));
    assert Shape(env, EvidenceName(run, x), fs.visible[EvidenceName(run, x)]);
  }

  lemma BackedIsLoaded(env: Env, fs: Fs, id: string, r: Run, recs: map<string, Record>, used: set<string>)
    requires DiskInv(env, fs, used) && Loaded(fs, recs) && HasRun(fs, id, r) && r.submission.Some?
    ensures RecordThere(fs, id, r.Tenant(), recs)
  {
    hide Shapes, Layout, Artifacts, Journals, Reserves, AllUsed, Normalize, History, JournalSafe, Bound;
    var e := JournalAt(fs, id).value.evidence;
    assert Candidate(fs, EvidenceName(id, e.id), Lookup(fs, EvidenceName(id, e.id)));
    LoadedIsSafe(env, fs, id, e.id, EvidenceFile(e), used);
  }

  lemma BootKeeps(env: Env, s: State, after: State)
    requires Inv(env, s) && WorldNext(env, s, Boot, after)
    ensures Inv(env, after)
  {
    hide DiskInv, PutFacts, OpOk, Records, Answers, Gently, Loaded;
    assert Calm(s.fs, after.fs);
    CalmDisk(env, s.fs, after.fs, s.used, s.used);
    BootAnswers(env, s, after);
    BootRecords(env, s, after);
    NothingYet(env, after);
  }

  lemma NothingYet(env: Env, s: State)
    requires s.op.Free?
    ensures OpOk(env, s)
  {
  }

  lemma BootAnswers(env: Env, s: State, after: State)
    requires Answers(s) && Calm(s.fs, after.fs) && after.acks == s.acks && after.registered == s.registered
    ensures Answers(after)
  {
    hide Answers, Gently, Calm;
    CalmGently(s.fs, after.fs);
    AnswersKept(s, after, NOWHERE);
  }

  lemma BootRecords(env: Env, s: State, after: State)
    requires DiskInv(env, s.fs, s.used) && WorldNext(env, s, Boot, after)
    ensures Records(after)
  {
    hide DiskInv, Normalize, Bound, Safe, SyncEvidence, UpdateRun, CreateRun, Created, Restart, Stable;
    EvidenceSyncCalm(s.fs);
    assert forall id, r :: HasRun(after.fs, id, r) ==> HasRun(s.fs, id, r);
    forall x | x in after.recs
      ensures Safe(after.fs, EvidenceName(after.recs[x].run, x), EvidenceFile(after.recs[x].evidence))
      ensures BelongsTo(after.fs, after.recs[x].run, after.recs[x].tenant)
    {
      LoadedIsSafe(env, s.fs, after.recs[x].run, x, s.fs.visible[EvidenceName(after.recs[x].run, x)], s.used);
    }
    forall id, r | HasRun(after.fs, id, r) && r.submission.Some?
      ensures RecordThere(after.fs, id, r.Tenant(), after.recs)
    {
      BackedIsLoaded(env, s.fs, id, r, after.recs, s.used);
    }
  }

  lemma EvidenceSyncCalm(fs: Fs)
    ensures Calm(fs, SyncEvidence(fs))
  {
  }

  lemma EnvSyncKeeps(env: Env, s: State, d: Dir)
    requires Inv(env, s)
    ensures Inv(env, s.(fs := Sync(s.fs, d)))
  {
    hide DiskInv, PutFacts, OpOk, Records, Answers, Gently, Sync, Calm;
    var after := s.(fs := Sync(s.fs, d));
    SyncCalm(s.fs, d);
    if s.up {
      CalmGently(s.fs, after.fs);
      CalmDisk(env, s.fs, after.fs, s.used, s.used);
      PutsStay(env, s, after, NOWHERE);
      CalmProcess(env, s, after);
      OpKept(env, s, after, NOWHERE);
    } else {
      CalmDisk(env, s.fs, after.fs, s.used, s.used);
      BootAnswers(env, s, after);
      NoProcess(env, after);
    }
  }

  lemma WorldKeeps(env: Env, s: State, step: Step, after: State)
    requires Inv(env, s) && WorldNext(env, s, step, after)
    ensures Inv(env, after)
  {
    hide Inv, UpdateRun, CreateRun, Restart, Loaded, Created, Sync, SyncEvidence;
    match step
    case EnvSync(d) => EnvSyncKeeps(env, s, d);
    case EnvUpdate(id, m, fault) => EnvUpdateKeeps(env, s, id, m, fault, after);
    case EnvCreate(run, fault) => EnvCreateKeeps(env, s, run, fault, after);
    case Crash => CrashKeeps(env, s, after);
    case Boot => BootKeeps(env, s, after);
    case _ =>
  }

  /** Every step, with any failure before it, keeps the invariant. */
  lemma NextKeeps(env: Env, s: State, step: Step, after: State)
    requires Sound(env) && Inv(env, s) && Next(env, s, step, after)
    ensures Inv(env, after)
  {
    hide Inv, HolderNext, PutNext, WorldNext, Sound;
    if OfHolder(step) {
      HolderKeeps(env, s, step, after);
    } else if OfUpload(step) {
      PutKeeps(env, s, step, after);
    } else {
      WorldKeeps(env, s, step, after);
    }
  }

  lemma InitInv(env: Env)
    ensures Inv(env, INIT)
  {
  }
}
