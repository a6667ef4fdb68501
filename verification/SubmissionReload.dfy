/** When the evidence store can be loaded again: the exact condition, in every reachable state. */
module SubmissionReload {
  import opened Prelude
  import opened Domain
  import opened Strings
  import opened Disk
  import opened RunFiles
  import opened Evidence
  import opened InputRules
  import opened SubmissionSystem
  import opened SubmissionFrames
  import opened SubmissionSteps
  import opened SubmissionTheorems
  import opened SubmissionFootprint

  // ---- Where evidence comes from ----

  predicate Present(fs: Fs, run: string, ids: seq<string>) {
    forall i :: 0 <= i < |ids| ==> MetaAt(fs, run, ids[i]).Some?
  }

  /** The record's run is on disk for good, and as far as its artifacts are still registered they are those it was
      bound to. */
  ghost predicate Rooted(fs: Fs, used: set<string>, run: string, e: EvidenceRef) {
    && KeptRun(fs, run)
    && (forall a :: a in e.artifactIds ==> a in used)
    && (Present(fs, run, e.artifactIds) ==> Bound(e, ArtifactsOf(fs, run)))
  }

  /** No record mentions this artifact. */
  ghost predicate Unmentioned(s: State, id: string) {
    && (forall r, x, e :: HasEvidence(s.fs, r, x, e) ==> id !in e.artifactIds)
    && match s.op
       case Append(_, _, _, e, _) => id !in e.artifactIds
       case _ => true
  }

  ghost predicate EvidenceRooted(fs: Fs, used: set<string>) {
    forall r, x, e :: HasEvidence(fs, r, x, e) ==> Rooted(fs, used, r, e)
  }

  ghost predicate FoldersRooted(fs: Fs) {
    forall r :: EvidenceFolder(r) in fs.visible ==> KeptRun(fs, r)
  }

  ghost predicate PutsUnmentioned(s: State) {
    forall k :: match PutAt(s, k) case Some(p) => (p.stage.Unpublished() ==> Unmentioned(s, p.id)) case None => true
  }

  ghost predicate AppendRooted(s: State) {
    match s.op
    case Append(_, _, id, e, _) => Rooted(s.fs, s.used, id, e)
    case _ => true
  }

  ghost predicate Provenance(s: State) {
    EvidenceRooted(s.fs, s.used) && FoldersRooted(s.fs) && PutsUnmentioned(s) && AppendRooted(s)
  }

  lemma BoundSame(fs: Fs, after: Fs, run: string, e: EvidenceRef)
    requires forall i :: 0 <= i < |e.artifactIds| ==>
        MetaAt(after, run, e.artifactIds[i]) == MetaAt(fs, run, e.artifactIds[i])
    ensures Present(after, run, e.artifactIds) == Present(fs, run, e.artifactIds)
    ensures Bound(e, ArtifactsOf(after, run)) == Bound(e, ArtifactsOf(fs, run))
  {
    hide MetaAt, Binds;
    forall i | 0 <= i < |e.artifactIds|
      ensures ArtifactsOf(after, run)(e.artifactIds[i]) == ArtifactsOf(fs, run)(e.artifactIds[i]) {
    }
  }

  /** `n` is not the metadata of an artifact of the record. */
  predicate NotItsArtifact(n: Name, e: EvidenceRef) {
    match n
    case MetaName(_, a) => a !in e.artifactIds
    case _ => true
  }

  lemma RootedKept(fs: Fs, after: Fs, n: Name, used: set<string>, more: set<string>, run: string, e: EvidenceRef)
    requires Gently(fs, after, n) && Rooted(fs, used, run, e) && used <= more
    requires NotItsArtifact(n, e)
    ensures Rooted(after, more, run, e)
  {
    RunKept(fs, after, n, run);
    forall i | 0 <= i < |e.artifactIds|
      ensures MetaAt(after, run, e.artifactIds[i]) == MetaAt(fs, run, e.artifactIds[i]) {
      assert n != MetaName(run, e.artifactIds[i]);
      assert Lookup(after, MetaName(run, e.artifactIds[i])) == Lookup(fs, MetaName(run, e.artifactIds[i]));
    }
    hide Gently, KeptRun, Bound, Present, MetaAt;
    BoundSame(fs, after, run, e);
  }

  /** The metadata a step publishes is no artifact of this record. */
  lemma PublishedUnmentioned(s: State, step: Step, run: string, x: string, e: EvidenceRef)
    requires PutsUnmentioned(s)
    ensures HasEvidence(s.fs, run, x, e) || AppendsRecord(s.op, run, e) ==> NotItsArtifact(Changed(s, step), e)
  {
    hide HasEvidence;
  }

  /** The append under way is of this record. */
  predicate AppendsRecord(op: Op, run: string, e: EvidenceRef) {
    match op
    case Append(_, _, id, f, _) => run == id && e == f
    case _ => false
  }

  lemma BoundIsUsed(env: Env, fs: Fs, used: set<string>, run: string, e: EvidenceRef)
    requires DiskInv(env, fs, used) && Bound(e, ArtifactsOf(fs, run))
    ensures forall a :: a in e.artifactIds ==> a in used && MetaAt(fs, run, a).Some? && !MetaFree(fs, a)
  {
    hide StoreInv, Shapes, Layout, Artifacts, Journals, Reserves, Submissions, Binds;
    forall a | a in e.artifactIds ensures a in used && MetaAt(fs, run, a).Some? && !MetaFree(fs, a) {
      assert ArtifactsOf(fs, run)(a).Ok?;
      var ref := MetaAt(fs, run, a).value;
      assert Candidate(fs, MetaName(run, a), Some(MetaFile(ref)));
      assert IdsIn(MetaName(run, a), MetaFile(ref)) <= used;
    }
  }

  // ---- Appends and uploads over one step ----

  /** The append of this record was just admitted: its run is on disk for good and its artifacts are registered. */
  ghost predicate Admitted(s: State, after: State, run: string, e: EvidenceRef) {
    KeptRun(after.fs, run) && Bound(e, ArtifactsOf(s.fs, run)) && after.fs.visible == s.fs.visible
  }

  lemma HolderAdmits(env: Env, s: State, step: Step, after: State, run: string, e: EvidenceRef)
    requires Inv(env, s) && HolderNext(env, s, step, after) && AppendsRecord(after.op, run, e)
    requires !AppendsRecord(s.op, run, e)
    ensures Admitted(s, after, run, e)
  {
    hide Inv, Normalize, Bound, IsReserved, Minted, NewJournal, UpdateRun, KeptRun, Stepped, RunAt, NamespaceOk,
         HasRecord;
    if step.AppendStart? {
      AdmittedRun(env, s, step.id);
    } else if step.SubmitStep? {
      StepIsAdmitted(env, s, run, e);
    }
  }

  lemma StepIsAdmitted(env: Env, s: State, run: string, e: EvidenceRef)
    requires Inv(env, s) && Steps(s.op) && AppendsRecord(Stepped(env, s).op, run, e) && !AppendsRecord(s.op, run, e)
    ensures Admitted(s, Stepped(env, s), run, e)
  {
    hide DiskInv, PutsOk, Records, Answers, Normalize, Bound, ValidJournal, ValidateArtifact, KeptRun,
         JournalSafe, WritingJournal, GoodRun, Mkdir, Publish, Sync, SyncArtifact, NamespaceOk, Appending, RunAt,
         JournalAt, MetaAt, BytesAt, HasRecord, OldJournal;
    if s.op.FindEvidence? {
      FoundRun(env, s.fs, s.op.run);
    }
  }

  lemma FoundRun(env: Env, fs: Fs, run: Run)
    requires KeptCopy(env, fs, run)
    ensures KeptRun(fs, run.id)
  {
  }

  lemma AdmittedRun(env: Env, s: State, id: string)
    requires Inv(env, s) && RunAt(s.fs, id).Some?
    ensures KeptRun(Sync(Sync(s.fs, RunsDir), JournalsDir), id)
    ensures Sync(Sync(s.fs, RunsDir), JournalsDir).visible == s.fs.visible
  {
    hide DiskInv, PutsOk, OpOk, Records, Answers, GoodRun;
    ReadRunKept(env, s.fs, id, RunAt(s.fs, id).value, s.used);
  }

  /** An append is the one of before, or was just admitted. */
  lemma StepAdmits(env: Env, s: State, step: Step, after: State, run: string, e: EvidenceRef)
    requires Inv(env, s) && Next(env, s, step, after) && AppendsRecord(after.op, run, e)
    ensures AppendsRecord(s.op, run, e) || Admitted(s, after, run, e)
  {
    hide Inv, HolderNext, UpdateRun, CreateRun, Created, Loaded, Restart, Admitted;
    if OfHolder(step) && !AppendsRecord(s.op, run, e) {
      HolderAdmits(env, s, step, after, run, e);
    }
  }

  /** An upload that has not published is one of before, or has an id nobody used. */
  predicate Follows(s: State, k: nat, p: Put) {
    p.stage.Unpublished() && p.id in s.used ==>
      match PutAt(s, k)
      case Some(q) => q.id == p.id && q.stage.Unpublished()
      case None => false
  }

  lemma StepFollows(env: Env, s: State, step: Step, after: State)
    requires Next(env, s, step, after)
    ensures s.used <= after.used
    ensures forall k, p :: PutAt(after, k) == Some(p) ==> Follows(s, k, p)
  {
    hide HolderNext, PutNext, Created, Loaded, Restart, UpdateRun, CreateRun;
    if OfHolder(step) {
      HolderFollows(env, s, step, after);
    } else if OfUpload(step) {
      PutFollows(env, s, step, after);
    }
  }

  lemma HolderFollows(env: Env, s: State, step: Step, after: State)
    requires HolderNext(env, s, step, after)
    ensures s.used <= after.used
    ensures forall k, p :: PutAt(after, k) == Some(p) ==> Follows(s, k, p)
  {
    hide UpdateRun, Normalize, MayAppend, IsReserved, Minted, NewJournal, ValidJournal, ValidateArtifact,
         ArtifactIdOk, NamespaceOk, Mkdir, Publish, Sync, RunAt, SyncArtifact, JournalAt, MetaAt, HasRecord;
  }

  lemma PutFollows(env: Env, s: State, step: Step, after: State)
    requires PutNext(env, s, step, after)
    ensures s.used <= after.used
    ensures forall k, p :: PutAt(after, k) == Some(p) ==> Follows(s, k, p)
  {
    hide Minted, Mkdir, Publish, Remove, Sync, Kept, RunAt;
  }

  // ---- One step keeps the provenance ----

  lemma EvidenceStaysRooted(env: Env, s: State, step: Step, after: State)
    requires Inv(env, s) && Provenance(s) && Next(env, s, step, after) && !step.Crash?
    ensures EvidenceRooted(after.fs, after.used)
  {
    hide Inv, Next, Gently, FoldersRooted, PutsUnmentioned, Changed, Rooted, HasEvidence, NotItsArtifact;
    StepGently(env, s, step, after);
    StepFollows(env, s, step, after);
    forall r, x, e | HasEvidence(after.fs, r, x, e) ensures Rooted(after.fs, after.used, r, e) {
      if !HasEvidence(s.fs, r, x, e) {
        NewEvidence(env, s, step, after, r, x, e);
      }
      PublishedUnmentioned(s, step, r, x, e);
      RootedKept(s.fs, after.fs, Changed(s, step), s.used, after.used, r, e);
    }
  }

  lemma FoldersStayRooted(env: Env, s: State, step: Step, after: State)
    requires Inv(env, s) && Provenance(s) && Next(env, s, step, after) && !step.Crash?
    ensures FoldersRooted(after.fs)
  {
    hide Inv, Next, Gently, EvidenceRooted, PutsUnmentioned, Changed, KeptRun;
    StepGently(env, s, step, after);
    forall r | EvidenceFolder(r) in after.fs.visible ensures KeptRun(after.fs, r) {
      if EvidenceFolder(r) !in s.fs.visible {
        NewFolder(env, s, step, after, r);
      }
      assert KeptRun(s.fs, r);
      RunKept(s.fs, after.fs, Changed(s, step), r);
    }
  }

  lemma AppendStaysRooted(env: Env, s: State, step: Step, after: State, run: string, e: EvidenceRef)
    requires Inv(env, s) && Provenance(s) && Next(env, s, step, after) && !step.Crash?
    requires AppendsRecord(after.op, run, e)
    ensures Rooted(after.fs, after.used, run, e)
  {
    hide DiskInv, PutsOk, OpOk, Records, Answers, Next, Gently, EvidenceRooted, FoldersRooted, PutsUnmentioned,
         Changed, KeptRun, Bound, Present, HasEvidence, NotItsArtifact;
    StepAdmits(env, s, step, after, run, e);
    StepFollows(env, s, step, after);
    if AppendsRecord(s.op, run, e) {
      StepGently(env, s, step, after);
      PublishedUnmentioned(s, step, run, e.id, e);
      RootedKept(s.fs, after.fs, Changed(s, step), s.used, after.used, run, e);
    } else {
      BoundIsUsed(env, s.fs, s.used, run, e);
      BoundSame(s.fs, after.fs, run, e);
    }
  }

  lemma PutsStayUnmentioned(env: Env, s: State, step: Step, after: State)
    requires Inv(env, s) && Provenance(s) && Next(env, s, step, after) && !step.Crash?
    ensures PutsUnmentioned(after)
  {
    hide Inv, Next, Provenance, HasEvidence, Follows;
    StepFollows(env, s, step, after);
    forall k, p | PutAt(after, k) == Some(p) && p.stage.Unpublished() ensures Unmentioned(after, p.id) {
      forall r, x, e | HasEvidence(after.fs, r, x, e) ensures p.id !in e.artifactIds {
        NotMentionedNow(env, s, step, after, r, x, e, k, p);
      }
      if after.op.Append? {
        NotMentionedNow(env, s, step, after, after.op.id, after.op.e.id, after.op.e, k, p);
      }
    }
  }

  lemma NotMentionedNow(env: Env, s: State, step: Step, after: State, run: string, x: string, e: EvidenceRef, k: nat,
                        p: Put)
    requires Inv(env, s) && Provenance(s) && Next(env, s, step, after) && !step.Crash? && Follows(s, k, p)
    requires p.stage.Unpublished()
    requires HasEvidence(after.fs, run, x, e) || AppendsRecord(after.op, run, e)
    ensures p.id !in e.artifactIds
  {
    hide Inv, Next, Provenance, HasEvidence, Follows, Admitted, Changed;
    if HasEvidence(after.fs, run, x, e) && !HasEvidence(s.fs, run, x, e) {
      NewEvidence(env, s, step, after, run, x, e);
    } else if !HasEvidence(s.fs, run, x, e) {
      StepAdmits(env, s, step, after, run, e);
    }
    NotItsUpload(env, s, after, run, x, e, k, p);
  }

  /** An upload that has not published is none of a record's artifacts. */
  lemma NotItsUpload(env: Env, s: State, after: State, run: string, x: string, e: EvidenceRef, k: nat, p: Put)
    requires Inv(env, s) && Provenance(s) && Follows(s, k, p) && p.stage.Unpublished()
    requires HasEvidence(s.fs, run, x, e) || AppendsRecord(s.op, run, e) || Admitted(s, after, run, e)
    ensures p.id !in e.artifactIds
  {
    hide DiskInv, PutsOk, OpOk, Records, Answers, FoldersRooted, Bound, Present, KeptRun, HasEvidence, MetaFree;
    if Admitted(s, after, run, e) {
      BoundIsUsed(env, s.fs, s.used, run, e);
    }
    if p.id in s.used {
      UnpublishedIsFree(env, s, k, PutAt(s, k).value);
    }
  }

  lemma CrashKeepsProvenance(env: Env, s: State, after: State)
    requires Inv(env, s) && Inv(env, after) && Provenance(s) && WorldNext(env, s, Crash, after)
    ensures Provenance(after)
  {
    hide Shapes, Layout, Artifacts, Journals, Reserves, Submissions, AllUsed, PutsOk, OpOk, Records, Answers,
         Restart, KeptRun, StoreInv, Safe, Rooted;
    LossShape(s.fs, after.fs);
    forall r, x, e | HasEvidence(after.fs, r, x, e) ensures Rooted(after.fs, after.used, r, e) {
      assert HasEvidence(s.fs, r, x, e);
      LossRooted(env, s.fs, after.fs, s.used, r, e);
    }
    forall r | EvidenceFolder(r) in after.fs.visible ensures KeptRun(after.fs, r) {
      FolderWasThere(env, s.fs, after.fs, r);
      LossRun(s.fs, after.fs, r);
    }
  }

  lemma FolderWasThere(env: Env, fs: Fs, after: Fs, r: string)
    requires Shapes(env, fs) && EvidenceFolder(r) in after.visible
    requires forall n, v :: Candidate(after, n, Some(v)) ==> Candidate(fs, n, Some(v))
    ensures EvidenceFolder(r) in fs.visible
  {
    hide Shape;
    assert Candidate(after, EvidenceFolder(r), Some(after.visible[EvidenceFolder(r)]));
  }

  /** Metadata that is there after a restart is what was there before. */
  lemma MetaWasThere(env: Env, fs: Fs, after: Fs, run: string, a: string)
    requires Shapes(env, fs) && MetaAt(after, run, a).Some?
    requires forall n, v :: Candidate(after, n, Some(v)) ==> Candidate(fs, n, Some(v))
    ensures MetaAt(fs, run, a) == MetaAt(after, run, a)
  {
    hide Shape;
    assert Candidate(after, MetaName(run, a), Some(after.visible[MetaName(run, a)]));
  }

  lemma LossRooted(env: Env, fs: Fs, after: Fs, used: set<string>, r: string, e: EvidenceRef)
    requires StoreInv(fs) && StoreInv(after) && Shapes(env, fs) && Restart(fs, after) && Rooted(fs, used, r, e)
    ensures Rooted(after, used, r, e)
  {
    hide StoreInv, Shapes, Restart, Safe, KeptRun, Bound, MetaAt;
    LossShape(fs, after);
    LossRun(fs, after, r);
    if Present(after, r, e.artifactIds) {
      forall i | 0 <= i < |e.artifactIds|
        ensures MetaAt(after, r, e.artifactIds[i]) == MetaAt(fs, r, e.artifactIds[i]) {
        MetaWasThere(env, fs, after, r, e.artifactIds[i]);
      }
      BoundSame(fs, after, r, e);
    }
  }

  lemma ProvenanceKept(env: Env, s: State, step: Step, after: State)
    requires Inv(env, s) && Inv(env, after) && Provenance(s) && Next(env, s, step, after)
    ensures Provenance(after)
  {
    hide Inv, HolderNext, PutNext, EvidenceRooted, FoldersRooted, PutsUnmentioned, Rooted, Created, Loaded,
         UpdateRun, CreateRun, Restart;
    if step.Crash? {
      CrashIsWorld(env, s, after);
      CrashKeepsProvenance(env, s, after);
    } else {
      EvidenceStaysRooted(env, s, step, after);
      FoldersStayRooted(env, s, step, after);
      PutsStayUnmentioned(env, s, step, after);
      forall r, e | AppendsRecord(after.op, r, e) ensures Rooted(after.fs, after.used, r, e) {
        AppendStaysRooted(env, s, step, after, r, e);
      }
      assert after.op.Append? ==> AppendsRecord(after.op, after.op.id, after.op.e);
    }
  }

  lemma {:induction false} ProvenanceThroughout(env: Env, states: seq<State>, steps: seq<Step>)
    requires Trace(env, states, steps)
    ensures forall s :: s in states ==> Inv(env, s) && Provenance(s)
    decreases |steps|
  {
    hide Inv, Next, Sound, Provenance;
    Reachable(env, states, steps);
    if steps == [] {
      NoEvidenceYet();
    } else {
      var n := |steps|;
      Shorter(env, states, steps);
      ProvenanceThroughout(env, states[..n], steps[..n - 1]);
      assert states[n - 1] in states[..n] && states[n] in states;
      ProvenanceKept(env, states[n - 1], steps[n - 1], states[n]);
      assert states == states[..n] + [states[n]];
    }
  }

  /** Every evidence record that may ever be read back lies under a run, and, where it names artifacts that are all
      registered, one of them has its very digest and, if the record's source is an artifact, its URI. */
  lemma RecordNamesArtifact(env: Env, states: seq<State>, steps: seq<Step>, s: State, run: string, x: string,
                            e: EvidenceRef)
    returns (k: nat)
    requires Trace(env, states, steps) && s in states && HasEvidence(s.fs, run, x, e) && e.artifactIds != []
    requires forall a :: a in e.artifactIds ==> MetaAt(s.fs, run, a).Some?
    ensures e.id == x && RunAt(s.fs, run).Some? && k < |e.artifactIds|
    ensures match MetaAt(s.fs, run, e.artifactIds[k])
            case Some(a) =>
              a.id == e.artifactIds[k] && a.sha256 == e.sha256 &&
                  ("artifact://" <= e.sourceUri ==> a.uri == e.sourceUri)
            case None => false
  {
    hide Trace, StoreInv, Layout, Artifacts, Journals, Reserves, Submissions, AllUsed, PutsOk, OpOk, Records, Answers,
         FoldersRooted, PutsUnmentioned, AppendRooted, MetaAt, Normalize, Minted, StoredBytes;
    ProvenanceThroughout(env, states, steps);
    assert Rooted(s.fs, s.used, run, e);
    assert Shape(env, EvidenceName(run, x), EvidenceFile(e));
    k :| 0 <= k < |e.artifactIds| && Binds(e, ArtifactsOf(s.fs, run)(e.artifactIds[k]).value);
    var a := MetaAt(s.fs, run, e.artifactIds[k]).value;
    MetaIsRegistered(env, s.fs, run, e.artifactIds[k], a, s.used);
    NormalDigest(e);
    SameDigest(a.sha256, e.sha256);
  }

  lemma NormalDigest(e: EvidenceRef)
    requires Normalize(e) == Ok(e)
    ensures Digest(e.sha256)
  {
    hide Normalize, TrimSpace;
    NormalForm(e, e);
  }

  lemma SameDigest(a: string, b: string)
    requires Digest(a) && Digest(b) && EqualFold(a, b)
    ensures a == b
  {
    forall i | 0 <= i < 64 ensures a[i] == b[i] {
      assert ToLower(a)[i] == a[i] && ToLower(b)[i] == b[i];
    }
  }

  lemma NoEvidenceYet()
    ensures Provenance(INIT)
  {
  }

  // ---- The condition ----

  ghost predicate MetaSafe(fs: Fs, run: string, artifact: string) {
    match MetaAt(fs, run, artifact)
    case Some(a) => Safe(fs, MetaName(run, artifact), MetaFile(a))
    case None => false
  }

  /** Every artifact a record names is registered for good, and no evidence id lies under two runs. */
  ghost predicate Reloadable(fs: Fs) {
    && (forall r, x, e, a :: HasEvidence(fs, r, x, e) && a in e.artifactIds ==> MetaSafe(fs, r, a))
    && (forall r, q, x, e, f :: HasEvidence(fs, r, x, e) && HasEvidence(fs, q, x, f) ==> r == q)
  }

  ghost predicate CanLoad(fs: Fs) { exists recs :: Loaded(fs, recs) }

  /** What loading puts into memory. */
  ghost function Reload(fs: Fs): map<string, Record>
    requires forall r, x :: EvidenceName(r, x) in fs.visible ==>
        RunAt(fs, r).Some? && fs.visible[EvidenceName(r, x)].EvidenceFile?
  {
    map x | x in StoredIds(fs) :: RecordOf(fs, x)
  }

  function StoredIds(fs: Fs): set<string> {
    set n | n in fs.visible && n.EvidenceName? :: n.evidence
  }

  ghost function RecordOf(fs: Fs, x: string): (rec: Record)
    requires x in StoredIds(fs)
    requires forall r, y :: EvidenceName(r, y) in fs.visible ==>
        RunAt(fs, r).Some? && fs.visible[EvidenceName(r, y)].EvidenceFile?
    ensures EvidenceName(rec.run, x) in fs.visible
  {
    var run :| EvidenceName(run, x) in fs.visible;
    Record(RunAt(fs, run).value.Tenant(), run, fs.visible[EvidenceName(run, x)].evidence)
  }

  lemma VisibleIsEvidence(env: Env, fs: Fs, run: string, x: string)
    requires Shapes(env, fs) && EvidenceName(run, x) in fs.visible
    ensures fs.visible[EvidenceName(run, x)].EvidenceFile?
    ensures var e := fs.visible[EvidenceName(run, x)].evidence; HasEvidence(fs, run, x, e) && Normalize(e) == Ok(e)
  {
    hide Normalize;
    assert Candidate(fs, EvidenceName(run, x), Some(fs.visible[EvidenceName(run, x)]));
    assert Shape(env, EvidenceName(run, x), fs.visible[EvidenceName(run, x)]);
  }

  /** A store whose records are rooted, bound and unique loads. */
  lemma Loads(env: Env, fs: Fs, used: set<string>)
    requires Shapes(env, fs) && EvidenceRooted(fs, used) && FoldersRooted(fs) && Reloadable(fs)
    ensures CanLoad(fs)
  {
    hide Normalize, Bound, Safe, KeptRun, Shapes;
    forall r, x | EvidenceName(r, x) in fs.visible
      ensures fs.visible[EvidenceName(r, x)].EvidenceFile? && RunAt(fs, r).Some?
      ensures var e := fs.visible[EvidenceName(r, x)].evidence;
        HasEvidence(fs, r, x, e) && Normalize(e) == Ok(e) && Bound(e, ArtifactsOf(fs, r))
    {
      VisibleIsEvidence(env, fs, r, x);
      var e := fs.visible[EvidenceName(r, x)].evidence;
      assert Rooted(fs, used, r, e);
      RunThere(fs, r);
      forall i | 0 <= i < |e.artifactIds| ensures MetaAt(fs, r, e.artifactIds[i]).Some? {
        assert e.artifactIds[i] in e.artifactIds;
        assert MetaSafe(fs, r, e.artifactIds[i]);
      }
    }
    forall r | EvidenceFolder(r) in fs.visible ensures RunAt(fs, r).Some? {
      RunThere(fs, r);
    }
    hide HasEvidence, RunAt, EvidenceRooted, FoldersRooted, Rooted;
    ReloadIsLoaded(fs);
  }

  lemma ReloadIsLoaded(fs: Fs)
    requires forall r, q, x :: EvidenceName(r, x) in fs.visible && EvidenceName(q, x) in fs.visible ==> r == q
    requires forall r :: EvidenceFolder(r) in fs.visible ==> RunAt(fs, r).Some?
    requires forall r, x :: EvidenceName(r, x) in fs.visible ==>
      && fs.visible[EvidenceName(r, x)].EvidenceFile? && RunAt(fs, r).Some?
      && var e := fs.visible[EvidenceName(r, x)].evidence; Normalize(e) == Ok(e) && Bound(e, ArtifactsOf(fs, r))
    ensures Loaded(fs, Reload(fs))
  {
    hide RunAt, Bound, Normalize;
    forall r, x | EvidenceName(r, x) in fs.visible
      ensures x in Reload(fs)
      ensures Reload(fs)[x] == Record(RunAt(fs, r).value.Tenant(), r, fs.visible[EvidenceName(r, x)].evidence)
    {
    }
  }

  lemma ReloadableSurvives(env: Env, fs: Fs, after: Fs)
    requires Shapes(env, fs) && Reloadable(fs) && Restart(fs, after)
    ensures Reloadable(after)
  {
    hide Shapes, Restart, Safe;
    LossShape(fs, after);
    assert forall r, x, e :: HasEvidence(after, r, x, e) ==> HasEvidence(fs, r, x, e);
    hide HasEvidence;
    forall r, x, e, a | HasEvidence(after, r, x, e) && a in e.artifactIds ensures MetaSafe(after, r, a) {
      assert MetaSafe(fs, r, a);
      SafeMetaStays(fs, after, r, a);
    }
  }

  lemma SafeMetaStays(fs: Fs, after: Fs, run: string, a: string)
    requires MetaSafe(fs, run, a) && Restart(fs, after)
    ensures MetaSafe(after, run, a)
  {
    var ref := MetaAt(fs, run, a).value;
    SafeSurvives(fs, after, MetaName(run, a), MetaFile(ref));
    assert Candidate(after, MetaName(run, a), Lookup(after, MetaName(run, a)));
  }

  /** A restart that keeps a record and loses the metadata of one of its artifacts. */
  lemma MetadataCanBeLost(env: Env, fs: Fs, run: string, x: string, e: EvidenceRef, a: string) returns (after: Fs)
    requires Shapes(env, fs) && Layout(fs) && HasEvidence(fs, run, x, e) && a in e.artifactIds && !MetaSafe(fs, run, a)
    ensures Restart(fs, after) && !CanLoad(after)
  {
    hide Shape, Restart, CanLoad, PowerLoss, Nested, Safe;
    var n, m := EvidenceName(run, x), MetaName(run, a);
    assert Lookup(fs, n) == Some(EvidenceFile(e));
    if MetaAt(fs, run, a).None? {
      after := fs;
    } else {
      var ref := MetaAt(fs, run, a).value;
      after := UnsafeCanBeLost(fs, m, MetaFile(ref));
      assert Lookup(after, n) == Lookup(fs, n);
      LostMeansGone(env, fs, after, run, a);
    }
    RestartShape(fs, after);
    NeedsMetadata(env, fs, after, run, x, e, a);
  }

  lemma RestartShape(fs: Fs, after: Fs)
    requires after == fs || PowerLoss(fs, after)
    ensures Restart(fs, after)
  {
  }

  lemma LostMeansGone(env: Env, fs: Fs, after: Fs, run: string, a: string)
    requires Shapes(env, fs) && PowerLoss(fs, after) && MetaAt(fs, run, a).Some?
    requires Lookup(after, MetaName(run, a)) != Some(MetaFile(MetaAt(fs, run, a).value))
    ensures MetaAt(after, run, a).None?
  {
    hide Shape;
    var n := MetaName(run, a);
    assert n in after.visible ==> Candidate(fs, n, Lookup(after, n));
  }

  lemma NeedsMetadata(env: Env, fs: Fs, after: Fs, run: string, x: string, e: EvidenceRef, a: string)
    requires Shapes(env, fs) && HasEvidence(fs, run, x, e) && a in e.artifactIds
    requires Lookup(after, EvidenceName(run, x)) == Some(EvidenceFile(e)) && MetaAt(after, run, a).None?
    ensures !CanLoad(after)
  {
    hide Normalize, MetaAt;
    assert Shape(env, EvidenceName(run, x), EvidenceFile(e));
    hide Shapes, HasEvidence;
    assert EvidenceName(run, x) in after.visible;
    var i :| 0 <= i < |e.artifactIds| && e.artifactIds[i] == a;
    assert ArtifactsOf(after, run)(e.artifactIds[i]).Err?;
    assert !Bound(e, ArtifactsOf(after, run));
  }

  lemma TwoRunsNeverLoad(env: Env, fs: Fs, r: string, q: string, x: string, e: EvidenceRef, f: EvidenceRef)
    requires Shapes(env, fs) && HasEvidence(fs, r, x, e) && HasEvidence(fs, q, x, f) && r != q
    ensures !CanLoad(fs)
  {
    hide Shape, Normalize, Bound;
    assert Lookup(fs, EvidenceName(r, x)) == Some(EvidenceFile(e)) &&
        Lookup(fs, EvidenceName(q, x)) == Some(EvidenceFile(f));
  }

  /** In every reachable state: whatever restart comes, the evidence store loads again, if and only if every
      artifact named by a record, durable or not, is registered for good, and no evidence id lies under two runs. */
  lemma ReloadsExactly(env: Env, states: seq<State>, steps: seq<Step>, s: State)
    requires Trace(env, states, steps) && s in states
    ensures (forall after :: Restart(s.fs, after) ==> CanLoad(after)) <==> Reloadable(s.fs)
  {
    hide Next, Sound, StoreInv, Layout, Artifacts, Journals, Reserves, Submissions, AllUsed, PutsOk, OpOk,
         Records, Answers, Shapes, CanLoad, Reloadable, Restart, EvidenceRooted, FoldersRooted, PutsUnmentioned,
         Rooted;
    ProvenanceThroughout(env, states, steps);
    if Reloadable(s.fs) {
      forall after | Restart(s.fs, after) ensures CanLoad(after) {
        LoadsAfter(env, s, after);
      }
    } else {
      var after := SomeRestartFails(env, s.fs);
      assert Restart(s.fs, after) && !CanLoad(after);
    }
  }

  lemma LoadsAfter(env: Env, s: State, after: Fs)
    requires Inv(env, s) && Provenance(s) && Reloadable(s.fs) && Restart(s.fs, after)
    ensures CanLoad(after)
  {
    hide DiskInv, PutsOk, OpOk, Records, Answers, CanLoad, Reloadable, Restart, Provenance;
    var down := State(after, false, map[], Free, map[], s.used, s.acks, s.registered);
    assert WorldNext(env, s, Crash, down);
    CrashKeeps(env, s, down);
    CrashKeepsProvenance(env, s, down);
    AfterLoss(env, s, down);
  }

  lemma AfterLoss(env: Env, s: State, down: State)
    requires DiskInv(env, s.fs, s.used) && DiskInv(env, down.fs, down.used) && Provenance(down) && Reloadable(s.fs)
    requires Restart(s.fs, down.fs)
    ensures CanLoad(down.fs)
  {
    hide StoreInv, Layout, Artifacts, Journals, Reserves, Submissions, AllUsed, Shapes, CanLoad, Reloadable,
         Restart, EvidenceRooted, FoldersRooted, PutsUnmentioned;
    ReloadableSurvives(env, s.fs, down.fs);
    Loads(env, down.fs, down.used);
  }

  lemma SomeRestartFails(env: Env, fs: Fs) returns (after: Fs)
    requires Shapes(env, fs) && Layout(fs) && !Reloadable(fs)
    ensures Restart(fs, after) && !CanLoad(after)
  {
    hide Shapes, Layout, CanLoad, MetaSafe, HasEvidence;
    if r, x, e, a :| HasEvidence(fs, r, x, e) && a in e.artifactIds && !MetaSafe(fs, r, a) {
      after := MetadataCanBeLost(env, fs, r, x, e, a);
    } else {
      var r, q, x, e, f :| HasEvidence(fs, r, x, e) && HasEvidence(fs, q, x, f) && r != q;
      TwoRunsNeverLoad(env, fs, r, q, x, e, f);
      after := fs;
    }
  }
}
