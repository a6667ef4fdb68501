/** Clients that see to two things before they append evidence never keep the service from starting. */
module SubmissionCareful {
  import opened Prelude
  import opened Domain
  import opened Disk
  import opened RunFiles
  import opened Evidence
  import opened InputRules
  import opened SubmissionSystem
  import opened SubmissionFrames
  import opened SubmissionSteps
  import opened SubmissionTheorems
  import opened SubmissionFootprint
  import opened SubmissionReload

  // ---- What clients know ----

  /** The upload this step answers as successful: run and artifact. */
  function AnsweredUpload(s: State, step: Step): set<(string, string)> {
    match step
    case PutStep(k) =>
        (match PutAt(s, k) case Some(p) => if p.stage == PutSyncAgain then {(p.run, p.id)} else {} case None => {})
    case _ => {}
  }

  /** The append this step begins: run and evidence id. */
  function BegunAppend(step: Step): set<(string, string)> {
    match step
    case AppendStart(_, id, e) => (match Normalize(e) case Ok(n) => {(id, n.id)} case Err(_) => {})
    case _ => {}
  }

  function Uploaded(states: seq<State>, steps: seq<Step>, i: nat): set<(string, string)>
    requires |states| == |steps| + 1 && i <= |steps|
  {
    if i == 0 then {} else Uploaded(states, steps, i - 1) + AnsweredUpload(states[i - 1], steps[i - 1])
  }

  function Appended(steps: seq<Step>, i: nat): set<(string, string)>
    requires i <= |steps|
  {
    if i == 0 then {} else Appended(steps, i - 1) + BegunAppend(steps[i - 1])
  }

  /** An append names only artifacts whose upload to that run was answered as successful, and an id that no append
      of another run was begun with. */
  ghost predicate Careful(step: Step, uploaded: set<(string, string)>, appended: set<(string, string)>) {
    match step
    case AppendStart(_, id, e) => Normalize(e).Ok? ==> CarefulRecord(id, Normalize(e).value, uploaded, appended)
    case _ => true
  }

  ghost predicate CarefulRecord(id: string, n: EvidenceRef, uploaded: set<(string, string)>,
                                appended: set<(string, string)>) {
    (forall a :: a in n.artifactIds ==> (id, a) in uploaded) && (forall r :: (r, n.id) in appended ==> r == id)
  }

  // ---- What their care keeps ----

  ghost predicate UploadsSafe(fs: Fs, uploaded: set<(string, string)>) {
    forall r, a :: (r, a) in uploaded ==> MetaSafe(fs, r, a)
  }

  ghost predicate Published(fs: Fs, p: Put) {
    p.stage == PutSyncMeta || p.stage == PutSyncAgain ==>
      match MetaAt(fs, p.run, p.id)
      case Some(a) => (p.stage == PutSyncAgain ==> Settled(fs, MetaName(p.run, p.id), MetaFile(a)))
      case None => false
  }

  ghost predicate AllPublished(s: State) {
    forall k :: match PutAt(s, k) case Some(p) => Published(s.fs, p) case None => true
  }

  ghost predicate MetasSafe(fs: Fs, run: string, ids: seq<string>) {
    forall a :: a in ids ==> MetaSafe(fs, run, a)
  }

  /** The journal of the run, durable, reserves the id. */
  ghost predicate Reserved(fs: Fs, run: string, x: string) {
    match JournalAt(fs, run)
    case Some(j) => JournalSafe(fs, run, j) && j.evidence.id == x
    case None => false
  }

  ghost predicate Supported(fs: Fs, appended: set<(string, string)>, run: string, x: string, e: EvidenceRef) {
    MetasSafe(fs, run, e.artifactIds) && ((run, x) in appended || Reserved(fs, run, x))
  }

  ghost predicate EvidenceSupported(fs: Fs, appended: set<(string, string)>) {
    forall r, x, e :: HasEvidence(fs, r, x, e) ==> Supported(fs, appended, r, x, e)
  }

  ghost predicate AppendSupported(s: State, appended: set<(string, string)>) {
    match s.op
    case Append(_, _, id, e, _) => Supported(s.fs, appended, id, e.id, e)
    case _ => true
  }

  ghost predicate OneRun(appended: set<(string, string)>) {
    forall r, q, x :: (r, x) in appended && (q, x) in appended ==> r == q
  }

  ghost predicate Care(s: State, uploaded: set<(string, string)>, appended: set<(string, string)>) {
    && UploadsSafe(s.fs, uploaded) && AllPublished(s) && AppendSupported(s, appended)
    && EvidenceSupported(s.fs, appended) && OneRun(appended)
  }

  // ---- Frames ----

  lemma MetaSafeKept(fs: Fs, after: Fs, n: Name, run: string, a: string)
    requires Gently(fs, after, n) && MetaSafe(fs, run, a)
    ensures MetaSafe(after, run, a)
  {
    var m := MetaName(run, a);
    assert Candidate(fs, m, Lookup(fs, m)) && n != m;
    SafeKept(fs, after, n, m, MetaFile(MetaAt(fs, run, a).value));
  }

  lemma SupportedKept(fs: Fs, after: Fs, n: Name, appended: set<(string, string)>, more: set<(string, string)>,
                      run: string, x: string, e: EvidenceRef)
    requires Gently(fs, after, n) && Supported(fs, appended, run, x, e) && appended <= more
    ensures Supported(after, more, run, x, e)
  {
    hide Gently, MetaSafe, JournalSafe;
    forall a | a in e.artifactIds ensures MetaSafe(after, run, a) {
      MetaSafeKept(fs, after, n, run, a);
    }
    if Reserved(fs, run, x) {
      JournalKept(fs, after, n, run, JournalAt(fs, run).value);
    }
  }

  lemma LossSupported(fs: Fs, after: Fs, appended: set<(string, string)>, run: string, x: string, e: EvidenceRef)
    requires Restart(fs, after) && Supported(fs, appended, run, x, e)
    ensures Supported(after, appended, run, x, e)
  {
    hide Restart, MetaSafe, Safe;
    forall a | a in e.artifactIds ensures MetaSafe(after, run, a) {
      SafeMetaStays(fs, after, run, a);
    }
    if Reserved(fs, run, x) {
      SafeSurvives(fs, after, JournalName(run), JournalFile(JournalAt(fs, run).value));
      SafeIsHeld(after, run, JournalAt(fs, run).value);
    }
  }

  // ---- Uploads ----

  lemma PublishedKept(fs: Fs, after: Fs, n: Name, p: Put)
    requires Gently(fs, after, n) && Published(fs, p)
    ensures Published(after, p)
  {
    var m := MetaName(p.run, p.id);
    if p.stage == PutSyncMeta || p.stage == PutSyncAgain {
      assert n != m;
      assert Lookup(after, m) == Lookup(fs, m) && forall v :: Candidate(after, m, v) ==> Candidate(fs, m, v);
    }
  }

  lemma PublishesMeta(s: State, k: nat, p: Put, q: Put)
    requires Moves(p) && Published(s.fs, p) && PutAt(StepPut(s, k, p), k) == Some(q)
    ensures Published(StepPut(s, k, p).fs, q)
  {
    hide Mkdir;
  }

  /** The last sync of an upload makes its metadata durable. */
  lemma UploadIsSafe(env: Env, s: State, k: nat, p: Put)
    requires Inv(env, s) && p.stage == PutSyncAgain && Published(s.fs, p)
    ensures MetaSafe(StepPut(s, k, p).fs, p.run, p.id)
  {
    hide StoreInv, Shapes, Artifacts, Journals, Reserves, Submissions, AllUsed, PutsOk, OpOk, Records, Answers,
         Describes, Registered;
    var n, ref := MetaName(p.run, p.id), MetaAt(s.fs, p.run, p.id).value;
    MetaIsRegistered(env, s.fs, p.run, p.id, ref, s.used);
    assert n in s.fs.visible && MetaFolder(p.run) in Above(n);
    LastSync(s.fs, p.run, p.id, ref);
  }

  lemma LastSync(fs: Fs, run: string, a: string, ref: ArtifactRef)
    requires Settled(fs, MetaName(run, a), MetaFile(ref)) && Stable(fs, ArtifactFolder(run))
    requires MetaFolder(run) in fs.visible
    ensures MetaSafe(Sync(fs, ArtifactDir(run)), run, a)
  {
    var m, after := MetaName(run, a), Sync(fs, ArtifactDir(run));
    assert Candidate(fs, m, Lookup(fs, m));
    assert forall v :: Candidate(after, m, v) ==> Candidate(fs, m, v);
    assert (MetaFolder(run), None) !in after.past && (ArtifactFolder(run), None) !in after.past;
    assert forall f :: f in Above(m) ==> f == ArtifactFolder(run) || f == MetaFolder(run);
  }

  /** An upload past its publication is the one of before. */
  predicate OldOrUnpublished(s: State, k: nat, p: Put) {
    p.stage.Unpublished() || PutAt(s, k) == Some(p)
  }

  predicate StepsUpload(step: Step, k: nat) {
    step.PutStep? && step.put == k
  }

  lemma OtherPuts(env: Env, s: State, step: Step, after: State)
    requires Next(env, s, step, after)
    ensures forall k, p :: PutAt(after, k) == Some(p) && !StepsUpload(step, k) ==> OldOrUnpublished(s, k, p)
  {
    hide HolderNext, PutNext, UpdateRun, CreateRun, Created, Loaded, Restart;
    if OfHolder(step) {
      HolderPuts(env, s, step, after);
    } else if OfUpload(step) {
      PutPuts(env, s, step, after);
    }
  }

  lemma HolderPuts(env: Env, s: State, step: Step, after: State)
    requires HolderNext(env, s, step, after)
    ensures forall k, p :: PutAt(after, k) == Some(p) ==> OldOrUnpublished(s, k, p)
  {
    hide UpdateRun, Normalize, MayAppend, IsReserved, Minted, NewJournal, ValidJournal, ValidateArtifact,
         ArtifactIdOk, NamespaceOk, Mkdir, Publish, Sync, RunAt, SyncArtifact, JournalAt, MetaAt, HasRecord;
  }

  lemma PutPuts(env: Env, s: State, step: Step, after: State)
    requires PutNext(env, s, step, after)
    ensures forall k, p :: PutAt(after, k) == Some(p) && !StepsUpload(step, k) ==> OldOrUnpublished(s, k, p)
  {
    hide Minted, Mkdir, Publish, Remove, Sync, Kept, RunAt;
  }

  lemma StepsPut(env: Env, s: State, k: nat, after: State) returns (p: Put)
    requires Next(env, s, PutStep(k), after)
    ensures PutAt(s, k) == Some(p) && Moves(p) && after == StepPut(s, k, p)
  {
    hide StepPut, HolderNext, WorldNext;
    p := s.puts[k];
  }

  lemma PutsStayPublished(env: Env, s: State, step: Step, after: State)
    requires Inv(env, s) && AllPublished(s) && Next(env, s, step, after) && !step.Crash?
    ensures AllPublished(after)
  {
    hide Inv, Next, Gently, Changed, Published, StepPut;
    StepGently(env, s, step, after);
    OtherPuts(env, s, step, after);
    forall k, q | PutAt(after, k) == Some(q) ensures Published(after.fs, q) {
      if StepsUpload(step, k) {
        var p := StepsPut(env, s, k, after);
        PublishesMeta(s, k, p, q);
      } else if PutAt(s, k) == Some(q) {
        PublishedKept(s.fs, after.fs, Changed(s, step), q);
      } else {
        UnpublishedHolds(after.fs, q);
      }
    }
  }

  lemma UnpublishedHolds(fs: Fs, p: Put)
    requires p.stage.Unpublished()
    ensures Published(fs, p)
  {
  }

  lemma UploadsStaySafe(env: Env, s: State, step: Step, after: State, uploaded: set<(string, string)>)
    requires Inv(env, s) && AllPublished(s) && UploadsSafe(s.fs, uploaded) && Next(env, s, step, after) && !step.Crash?
    ensures UploadsSafe(after.fs, uploaded + AnsweredUpload(s, step))
  {
    hide Inv, Next, Gently, Changed, Published, StepPut, MetaSafe;
    StepGently(env, s, step, after);
    forall r, a | (r, a) in uploaded + AnsweredUpload(s, step) ensures MetaSafe(after.fs, r, a) {
      if (r, a) in uploaded {
        MetaSafeKept(s.fs, after.fs, Changed(s, step), r, a);
      } else {
        var p := StepsPut(env, s, step.put, after);
        UploadIsSafe(env, s, step.put, p);
      }
    }
  }

  // ---- Appends ----

  /** The record of a submission is supported by its own journal. */
  lemma SubmissionSupported(env: Env, s: State, appended: set<(string, string)>, run: Run, j: Journal)
    requires DiskInv(env, s.fs, s.used) && KeptCopy(env, s.fs, run) && JournalSafe(s.fs, run.id, j)
    ensures Supported(s.fs, appended, run.id, j.evidence.id, j.evidence)
  {
    hide DiskInv, KeptCopy, ValidJournal, Minted, Registered, JournalSafe, Safe, StoredBytes;
    JournalFacts(env, s.fs, run, j, s.used);
    assert j.evidence.artifactIds == [j.artifact.id];
  }

  /** The submission under way found its journal and appends the journal's record. */
  ghost predicate FromJournal(env: Env, s: State, run: string, e: EvidenceRef) {
    match s.op
    case FindEvidence(r, j) => run == r.id && e == j.evidence && KeptCopy(env, s.fs, r) && JournalSafe(s.fs, r.id, j)
    case _ => false
  }

  ghost predicate FromClient(s: State, step: Step, after: State, run: string, e: EvidenceRef) {
    match step
    case AppendStart(_, id, f) => Normalize(f) == Ok(e) && run == id && Calm(s.fs, after.fs)
    case _ => false
  }

  /** An append is a client's, a submission's, or was under way before. */
  lemma NewAppend(env: Env, s: State, step: Step, after: State, run: string, e: EvidenceRef)
    requires Inv(env, s) && Next(env, s, step, after) && AppendsRecord(after.op, run, e)
    ensures AppendsRecord(s.op, run, e) || FromClient(s, step, after, run, e) ||
        (FromJournal(env, s, run, e) && after.fs == s.fs)
  {
    hide Inv, HolderNext, UpdateRun, CreateRun, Created, Loaded, Restart, FromJournal, FromClient;
    if OfHolder(step) && !AppendsRecord(s.op, run, e) {
      HolderAppends(env, s, step, after, run, e);
    }
  }

  lemma HolderAppends(env: Env, s: State, step: Step, after: State, run: string, e: EvidenceRef)
    requires Inv(env, s) && HolderNext(env, s, step, after) && AppendsRecord(after.op, run, e)
    requires !AppendsRecord(s.op, run, e)
    ensures FromClient(s, step, after, run, e) || (FromJournal(env, s, run, e) && after.fs == s.fs)
  {
    hide Inv, Normalize, MayAppend, IsReserved, Minted, NewJournal, UpdateRun, Stepped, RunAt, HasRecord, FromJournal;
    if step.SubmitStep? {
      SubmitterAppends(env, s, run, e);
    }
  }

  lemma SubmitterAppends(env: Env, s: State, run: string, e: EvidenceRef)
    requires Inv(env, s) && Steps(s.op) && AppendsRecord(Stepped(env, s).op, run, e) && !AppendsRecord(s.op, run, e)
    ensures FromJournal(env, s, run, e) && Stepped(env, s).fs == s.fs
  {
    hide DiskInv, PutsOk, Records, Answers, Normalize, MayAppend, ValidJournal, ValidateArtifact, KeptCopy,
         JournalSafe, WritingJournal, Mkdir, Publish, Sync, SyncArtifact, NamespaceOk, Appending, RunAt, JournalAt,
         MetaAt, BytesAt, HasRecord, OldJournal;
    if s.op.FindEvidence? {
      JournalRecordIsNormal(env, s.fs, s.op.run, s.op.j, s.used);
    }
  }

  lemma AppendStaysSupported(env: Env, s: State, step: Step, after: State, uploaded: set<(string, string)>,
                             appended: set<(string, string)>, run: string, e: EvidenceRef)
    requires Inv(env, s) && Care(s, uploaded, appended) && Next(env, s, step, after) && !step.Crash?
    requires Careful(step, uploaded, appended)
    requires AppendsRecord(after.op, run, e)
    ensures Supported(after.fs, appended + BegunAppend(step), run, e.id, e)
  {
    hide DiskInv, PutsOk, OpOk, Records, Answers, Next, Gently, Changed, AllPublished, EvidenceSupported, OneRun,
         Supported, Normalize, KeptCopy, JournalSafe, Calm, Careful;
    NewAppend(env, s, step, after, run, e);
    if AppendsRecord(s.op, run, e) {
      StepGently(env, s, step, after);
      SupportedKept(s.fs, after.fs, Changed(s, step), appended, appended + BegunAppend(step), run, e.id, e);
    } else if FromClient(s, step, after, run, e) {
      CarefulIsSupported(s, step, after, uploaded, appended, e);
    } else {
      SubmissionSupported(env, s, appended, s.op.run, s.op.j);
      MoreSupport(s.fs, appended, appended + BegunAppend(step), run, e.id, e);
    }
  }

  lemma MoreSupport(fs: Fs, appended: set<(string, string)>, more: set<(string, string)>, run: string, x: string,
                    e: EvidenceRef)
    requires Supported(fs, appended, run, x, e) && appended <= more
    ensures Supported(fs, more, run, x, e)
  {
  }

  lemma CarefulIsSupported(s: State, step: Step, after: State, uploaded: set<(string, string)>,
                           appended: set<(string, string)>, e: EvidenceRef)
    requires UploadsSafe(s.fs, uploaded) && Careful(step, uploaded, appended) && step.AppendStart?
    requires FromClient(s, step, after, step.id, e)
    ensures Supported(after.fs, appended + BegunAppend(step), step.id, e.id, e)
  {
    hide Normalize, MetaSafe, Calm, Gently;
    CalmGently(s.fs, after.fs);
    forall a | a in e.artifactIds ensures MetaSafe(after.fs, step.id, a) {
      MetaSafeKept(s.fs, after.fs, NOWHERE, step.id, a);
    }
  }

  lemma EvidenceStaysSupported(env: Env, s: State, step: Step, after: State, uploaded: set<(string, string)>,
                               appended: set<(string, string)>)
    requires Inv(env, s) && Care(s, uploaded, appended) && Next(env, s, step, after) && !step.Crash?
    ensures EvidenceSupported(after.fs, appended + BegunAppend(step))
  {
    hide Inv, Next, Gently, Changed, AllPublished, UploadsSafe, OneRun, Supported, HasEvidence, BegunAppend;
    StepGently(env, s, step, after);
    forall r, x, e | HasEvidence(after.fs, r, x, e) ensures Supported(after.fs, appended + BegunAppend(step), r, x, e) {
      if !HasEvidence(s.fs, r, x, e) {
        NewEvidence(env, s, step, after, r, x, e);
      }
      SupportedKept(s.fs, after.fs, Changed(s, step), appended, appended + BegunAppend(step), r, x, e);
    }
  }

  lemma CarefulStaysOne(step: Step, uploaded: set<(string, string)>, appended: set<(string, string)>)
    requires OneRun(appended) && Careful(step, uploaded, appended)
    ensures OneRun(appended + BegunAppend(step))
  {
    hide Normalize;
  }

  lemma CrashKeepsCare(env: Env, s: State, after: State, uploaded: set<(string, string)>,
                       appended: set<(string, string)>)
    requires Care(s, uploaded, appended) && WorldNext(env, s, Crash, after)
    ensures Care(after, uploaded, appended)
  {
    hide Restart, MetaSafe, Supported, OneRun;
    LossShape(s.fs, after.fs);
    forall r, a | (r, a) in uploaded ensures MetaSafe(after.fs, r, a) {
      SafeMetaStays(s.fs, after.fs, r, a);
    }
    forall r, x, e | HasEvidence(after.fs, r, x, e) ensures Supported(after.fs, appended, r, x, e) {
      assert HasEvidence(s.fs, r, x, e);
      LossSupported(s.fs, after.fs, appended, r, x, e);
    }
  }

  lemma CareKept(env: Env, s: State, step: Step, after: State, uploaded: set<(string, string)>,
                 appended: set<(string, string)>)
    requires Inv(env, s) && Care(s, uploaded, appended) && Next(env, s, step, after)
    requires Careful(step, uploaded, appended)
    ensures Care(after, uploaded + AnsweredUpload(s, step), appended + BegunAppend(step))
  {
    hide Inv, Next, UploadsSafe, AllPublished, EvidenceSupported, OneRun, Supported;
    if step.Crash? {
      CrashIsWorld(env, s, after);
      CrashKeepsCare(env, s, after, uploaded, appended);
      assert uploaded + AnsweredUpload(s, step) == uploaded && appended + BegunAppend(step) == appended;
    } else {
      UploadsStaySafe(env, s, step, after, uploaded);
      PutsStayPublished(env, s, step, after);
      forall r, e | AppendsRecord(after.op, r, e)
        ensures Supported(after.fs, appended + BegunAppend(step), r, e.id, e) {
        AppendStaysSupported(env, s, step, after, uploaded, appended, r, e);
      }
      assert after.op.Append? ==> AppendsRecord(after.op, after.op.id, after.op.e);
      EvidenceStaysSupported(env, s, step, after, uploaded, appended);
      CarefulStaysOne(step, uploaded, appended);
    }
  }

  ghost predicate AlwaysCareful(states: seq<State>, steps: seq<Step>, i: nat)
    requires |states| == |steps| + 1 && i <= |steps|
  {
    forall k :: 0 <= k < i ==> Careful(steps[k], Uploaded(states, steps, k), Appended(steps, k))
  }

  lemma {:induction false} CareThroughout(env: Env, states: seq<State>, steps: seq<Step>, i: nat)
    requires Trace(env, states, steps) && i <= |steps| && AlwaysCareful(states, steps, i)
    ensures Care(states[i], Uploaded(states, steps, i), Appended(steps, i))
  {
    hide Inv, Next, Sound, Care, Careful, AnsweredUpload, BegunAppend;
    if i == 0 {
      NothingToCareFor();
    } else {
      CareThroughout(env, states, steps, i - 1);
      Reachable(env, states, steps);
      assert states[i - 1] in states;
      assert Next(env, states[i - 1], steps[i - 1], states[i - 1 + 1]);
      CareKept(env, states[i - 1], steps[i - 1], states[i], Uploaded(states, steps, i - 1), Appended(steps, i - 1));
    }
  }

  lemma NothingToCareFor()
    ensures Care(INIT, {}, {})
  {
  }

  lemma CareReloads(env: Env, s: State, uploaded: set<(string, string)>, appended: set<(string, string)>)
    requires Reserves(s.fs) && Care(s, uploaded, appended)
    ensures Reloadable(s.fs)
  {
    hide MetaSafe, AllPublished, UploadsSafe, JournalSafe, Reserves;
    forall r, q, x, e, f | HasEvidence(s.fs, r, x, e) && HasEvidence(s.fs, q, x, f) ensures r == q {
      if Reserved(s.fs, r, x) {
        OnlyOfJournal(s.fs, r, x, q, f);
      } else if Reserved(s.fs, q, x) {
        OnlyOfJournal(s.fs, q, x, r, e);
      }
    }
  }

  lemma OnlyOfJournal(fs: Fs, run: string, x: string, q: string, f: EvidenceRef)
    requires Reserves(fs) && Reserved(fs, run, x) && HasEvidence(fs, q, x, f)
    ensures q == run
  {
    SafeIsHeld(fs, run, JournalAt(fs, run).value);
  }

  /** If every append so far was careful, then in every state, and after every restart, the service can start: the
      evidence store loads. */
  lemma CarefulClientsNeverBlock(env: Env, states: seq<State>, steps: seq<Step>, i: nat, s: State)
    requires Trace(env, states, steps) && i <= |steps| && AlwaysCareful(states, steps, i) && states[i] == s
    ensures Reloadable(s.fs)
    ensures forall fs :: Restart(s.fs, fs) ==> CanLoad(fs)
    ensures !s.up ==> exists after :: Next(env, s, Boot, after)
  {
    hide Next, Sound, StoreInv, Layout, Artifacts, Journals, Submissions, AllUsed, PutsOk, OpOk, Records,
         Answers, Shapes, Care, CanLoad, Reloadable, Restart, AlwaysCareful;
    CareThroughout(env, states, steps, i);
    Reachable(env, states, steps);
    assert s in states;
    CareReloads(env, s, Uploaded(states, steps, i), Appended(steps, i));
    ReloadsExactly(env, states, steps, s);
    SameIsRestart(s.fs);
    if !s.up {
      BootEnabled(env, s);
    }
  }

  lemma SameIsRestart(fs: Fs)
    ensures Restart(fs, fs)
  {
  }

  lemma BootEnabled(env: Env, s: State)
    requires !s.up && CanLoad(s.fs)
    ensures exists after :: Next(env, s, Boot, after)
  {
    hide Loaded, HolderNext, PutNext, SyncEvidence;
    var recs :| Loaded(s.fs, recs);
    var after := s.(up := true, fs := SyncEvidence(s.fs), recs := recs);
    assert WorldNext(env, s, Boot, after) && Next(env, s, Boot, after);
  }
}
