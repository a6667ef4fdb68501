/** How the invariants of the submission survive one change of the disk, and a power loss. */
module SubmissionFrames {
  import opened Prelude
  import opened Domain
  import opened Runs
  import opened Disk
  import opened RunFiles
  import opened Evidence
  import opened InputRules
  import opened SubmissionSystem

  predicate IsFolder(n: Name) { n.JournalsFolder? || n.EvidenceFolder? || n.ArtifactFolder? || n.MetaFolder? }

  /** Only `n` changes; elsewhere old values can only be forgotten, and durable folders stay durable. */
  ghost predicate Change(fs: Fs, after: Fs, n: Name) {
    && (forall m :: m != n ==> Lookup(after, m) == Lookup(fs, m))
    && (forall m, v :: m != n && Candidate(after, m, v) ==> Candidate(fs, m, v))
    && (forall f :: IsFolder(f) && Stable(fs, f) ==> Stable(after, f))
  }

  ghost predicate RunStays(fs: Fs, after: Fs, id: string) {
    && (KeptRun(fs, id) ==> KeptRun(after, id))
    && (RunAt(fs, id).Some? ==> RunAt(after, id).Some? && RunAt(after, id).value.terms == RunAt(fs, id).value.terms)
  }

  /** A change that respects what others hold: new names only, no bytes with metadata, runs keep their terms. */
  ghost predicate Gently(fs: Fs, after: Fs, n: Name) {
    && Change(fs, after, n)
    && (WriteOnce(n) ==> n !in fs.visible)
    && (n.BytesName? ==> MetaFree(fs, n.artifact))
    && (n.RunName? ==> RunStays(fs, after, n.run))
  }

  lemma SafeKept(fs: Fs, after: Fs, n: Name, m: Name, node: Node)
    requires Change(fs, after, n) && Safe(fs, m, node) && (m != n || n !in fs.visible)
    ensures Safe(after, m, node)
  {
    assert Candidate(fs, m, Lookup(fs, m));
    assert forall f :: f in Above(m) ==> IsFolder(f) && Stable(fs, f);
  }

  lemma StoredBytesKept(env: Env, fs: Fs, after: Fs, n: Name, run: string, a: ArtifactRef)
    requires Change(fs, after, n) && StoredBytes(env, fs, run, a) && n != BytesName(run, a.id)
    ensures StoredBytes(env, after, run, a) && BytesAt(after, run, a.id) == BytesAt(fs, run, a.id)
  {
    SafeKept(fs, after, n, BytesName(run, a.id), BytesFile(BytesAt(fs, run, a.id).value));
  }

  lemma ArtifactSafeKept(env: Env, fs: Fs, after: Fs, n: Name, run: string, a: ArtifactRef)
    requires Gently(fs, after, n) && ArtifactSafe(env, fs, run, a)
    ensures ArtifactSafe(env, after, run, a)
  {
    hide StoredBytes, AboveSettled;
    assert Candidate(fs, MetaName(run, a.id), Lookup(fs, MetaName(run, a.id)));
    StoredBytesKept(env, fs, after, n, run, a);
    SafeKept(fs, after, n, MetaName(run, a.id), MetaFile(a));
  }

  lemma ShapesKept(env: Env, fs: Fs, after: Fs, n: Name)
    requires Shapes(env, fs) && Change(fs, after, n)
    requires forall v :: Candidate(after, n, Some(v)) ==>
        Shape(env, n, v) && (WriteOnce(n) ==> Lookup(after, n) == Some(v))
    ensures Shapes(env, after)
  {
    hide Shape, Stable, Candidate, Lookup;
  }

  lemma LayoutKept(fs: Fs, after: Fs, n: Name)
    requires Layout(fs) && Change(fs, after, n)
    requires n in after.visible ==> Above(n) <= fs.visible.Keys
    requires n in after.visible && n.JournalName? ==> Stable(fs, JournalsFolder)
    requires n in after.visible && n.EvidenceName? ==> Stable(fs, EvidenceFolder(n.run))
    requires n in fs.visible && IsFolder(n) ==> n in after.visible
    ensures Layout(after)
  {
    hide Candidate;
    forall m ensures m != n ==> (m in after.visible <==> m in fs.visible) {
      assert m != n ==> Lookup(after, m) == Lookup(fs, m);
    }
    forall m | m in after.visible ensures Above(m) <= after.visible.Keys {
      assert Above(m) <= fs.visible.Keys;
      assert forall f :: f in Above(m) ==> IsFolder(f);
    }
  }

  lemma ArtifactsKept(env: Env, fs: Fs, after: Fs, n: Name)
    requires Artifacts(env, fs) && Shapes(env, fs) && Gently(fs, after, n)
    requires n.MetaName? ==> forall ref :: Candidate(after, n, Some(MetaFile(ref))) ==> StoredBytes(env, fs, n.run, ref)
    ensures Artifacts(env, after)
  {
    hide StoredBytes;
    forall r, a, ref | Candidate(after, MetaName(r, a), Some(MetaFile(ref))) ensures StoredBytes(env, after, r, ref) {
      if MetaName(r, a) != n {
        assert Candidate(fs, MetaName(r, a), Some(MetaFile(ref)));
        assert Shape(env, MetaName(r, a), MetaFile(ref));
        assert n.BytesName? ==> n.artifact != a;
      }
      StoredBytesKept(env, fs, after, n, r, ref);
    }
  }

  lemma RunKept(fs: Fs, after: Fs, n: Name, id: string)
    requires Gently(fs, after, n)
    ensures KeptRun(fs, id) ==> KeptRun(after, id)
    ensures RunAt(fs, id).Some? ==> RunAt(after, id).Some? && RunAt(after, id).value.terms == RunAt(fs, id).value.terms
  {
    if n != RunName(id) {
      assert Lookup(after, RunName(id)) == Lookup(fs, RunName(id));
      assert Candidate(after, RunName(id), None) ==> Candidate(fs, RunName(id), None);
    }
  }

  lemma JournalBackedKept(env: Env, fs: Fs, after: Fs, n: Name, id: string, j: Journal)
    requires StoreInv(fs) && StoreInv(after) && Gently(fs, after, n) && JournalBacked(env, fs, id, j)
    ensures JournalBacked(env, after, id, j)
  {
    hide History, ArtifactSafe, Gently, ValidJournal;
    RunKept(fs, after, n, id);
    ArtifactSafeKept(env, fs, after, n, id, j.artifact);
    assert Candidate(fs, RunName(id), Lookup(fs, RunName(id))) &&
        Candidate(after, RunName(id), Lookup(after, RunName(id)));
    JournalNeedsTerms(env, RunAt(fs, id).value, RunAt(after, id).value, j);
  }

  lemma JournalsKept(env: Env, fs: Fs, after: Fs, n: Name)
    requires StoreInv(fs) && StoreInv(after) && Journals(env, fs) && Gently(fs, after, n)
    requires n.JournalName? ==> forall j :: HasJournal(after, n.run, j) ==> JournalBacked(env, fs, n.run, j)
    ensures Journals(env, after)
  {
    hide StoreInv, JournalBacked;
    forall id, j | HasJournal(after, id, j) ensures JournalBacked(env, after, id, j) {
      assert n != JournalName(id) ==> HasJournal(fs, id, j);
      JournalBackedKept(env, fs, after, n, id, j);
    }
  }

  lemma ReservesKept(fs: Fs, after: Fs, n: Name)
    requires Reserves(fs) && Change(fs, after, n)
    requires n.JournalName? ==> forall j :: HasJournal(after, n.run, j) ==>
        EvidenceFree(fs, j.evidence.id) && JournalFree(fs, j.evidence.id)
    requires n.EvidenceName? ==>
        forall e, id, j ::
            HasEvidence(after, n.run, n.evidence, e) && HasJournal(fs, id, j) && j.evidence.id == n.evidence ==>
               id == n.run && e == j.evidence
    ensures Reserves(after)
  {
    assert forall id, j :: n != JournalName(id) && HasJournal(after, id, j) ==> HasJournal(fs, id, j);
    assert forall r, x, e :: n != EvidenceName(r, x) && HasEvidence(after, r, x, e) ==> HasEvidence(fs, r, x, e);
    hide Change, HasJournal, HasEvidence;
    forall id, j, r, e | HasJournal(after, id, j) && HasEvidence(after, r, j.evidence.id, e)
      ensures r == id && e == j.evidence {
      assert n.JournalName? ==> HasEvidence(fs, r, j.evidence.id, e);
      assert n != JournalName(id) ==> HasJournal(fs, id, j);
    }
    forall a, b, j, k | HasJournal(after, a, j) && HasJournal(after, b, k) && j.evidence.id == k.evidence.id
      ensures a == b {
      assert n != JournalName(b) ==> HasJournal(fs, b, k);
      assert n != JournalName(a) ==> HasJournal(fs, a, j);
    }
  }

  lemma JournalKept(fs: Fs, after: Fs, n: Name, id: string, j: Journal)
    requires Gently(fs, after, n) && JournalSafe(fs, id, j)
    ensures JournalSafe(after, id, j) && JournalAt(after, id) == Some(j)
  {
    assert Candidate(fs, JournalName(id), Lookup(fs, JournalName(id)));
    SafeKept(fs, after, n, JournalName(id), JournalFile(j));
    assert Candidate(after, JournalName(id), Lookup(after, JournalName(id)));
  }

  lemma EvidenceKept(fs: Fs, after: Fs, n: Name, run: string, e: EvidenceRef)
    requires Gently(fs, after, n) && Safe(fs, EvidenceName(run, e.id), EvidenceFile(e))
    ensures Safe(after, EvidenceName(run, e.id), EvidenceFile(e))
  {
    assert Candidate(fs, EvidenceName(run, e.id), Lookup(fs, EvidenceName(run, e.id)));
    SafeKept(fs, after, n, EvidenceName(run, e.id), EvidenceFile(e));
  }

  lemma BackedKept(fs: Fs, after: Fs, n: Name, id: string, r: Run)
    requires Gently(fs, after, n) && Backed(fs, id, r)
    ensures Backed(after, id, r) && JournalAt(after, id) == JournalAt(fs, id)
  {
    hide Gently, Safe, JournalSafe;
    var j := JournalAt(fs, id).value;
    JournalKept(fs, after, n, id, j);
    EvidenceKept(fs, after, n, id, j.evidence);
  }

  lemma SubmissionsKept(fs: Fs, after: Fs, n: Name)
    requires Submissions(fs) && Gently(fs, after, n)
    requires n.RunName? ==> forall r :: HasRun(after, n.run, r) && r.submission.Some? ==>
        HasRun(fs, n.run, r) || Backed(fs, n.run, r)
    ensures Submissions(after)
  {
    hide Backed;
    forall id, r | HasRun(after, id, r) && r.submission.Some? ensures Backed(after, id, r) {
      assert n != RunName(id) ==> HasRun(fs, id, r);
      BackedKept(fs, after, n, id, r);
    }
  }

  lemma AllUsedKept(fs: Fs, after: Fs, n: Name, used: set<string>, more: set<string>)
    requires AllUsed(fs, used) && Change(fs, after, n) && used <= more
    requires forall v :: Candidate(after, n, Some(v)) ==> IdsIn(n, v) <= more
    ensures AllUsed(after, more)
  {
    hide Candidate, IdsIn, Stable;
  }

  /** What the new value of `n` must satisfy. */
  ghost predicate Fits(env: Env, fs: Fs, after: Fs, n: Name, used: set<string>) {
    match n
    case RunName(id) =>
      forall r :: HasRun(after, id, r) ==>
        HasRun(fs, id, r) || (r.id == id && GoodRun(env, r) && id in used && (r.submission.Some? ==> Backed(fs, id, r)))
    case JournalName(id) =>
      && Stable(fs, JournalsFolder)
      && forall v :: Candidate(after, n, Some(v)) ==>
           && Lookup(after, n) == Some(v) && v.JournalFile? && v.journal.runId == id && v.journal.evidence.id in used
           && JournalBacked(env, fs, id, v.journal) && EvidenceFree(fs, v.journal.evidence.id)
           && JournalFree(fs, v.journal.evidence.id)
    case EvidenceName(r, x) =>
      && Stable(fs, EvidenceFolder(r)) && x in used
      && forall v :: Candidate(after, n, Some(v)) ==>
           && Lookup(after, n) == Some(v) && v.EvidenceFile? && v.evidence.id == x
           && Normalize(v.evidence) == Ok(v.evidence)
           && forall id, j :: HasJournal(fs, id, j) && j.evidence.id == x ==> id == r && v.evidence == j.evidence
    case BytesName(r, a) =>
      && ArtifactFolder(r) in fs.visible && a in used
      && forall v :: Candidate(after, n, Some(v)) ==> v.BytesFile?
    case MetaName(r, a) =>
      && MetaFolder(r) in fs.visible && ArtifactFolder(r) in fs.visible && a in used
      && forall v :: Candidate(after, n, Some(v)) ==>
           Lookup(after, n) == Some(v) && v.MetaFile? && Registered(r, a, v.ref) && StoredBytes(env, fs, r, v.ref)
    case _ =>
      && Above(n) <= fs.visible.Keys
      && forall v :: Candidate(after, n, Some(v)) ==> Lookup(after, n) == Some(v) && v.Folder?
  }

  lemma FitsShape(env: Env, fs: Fs, after: Fs, n: Name, used: set<string>)
    requires StoreInv(after) && Shapes(env, fs) && Fits(env, fs, after, n, used)
    requires n.RunName? ==> AllUsed(fs, used)
    ensures forall v :: Candidate(after, n, Some(v)) ==>
        Shape(env, n, v) && (WriteOnce(n) ==> Lookup(after, n) == Some(v))
    ensures forall v :: Candidate(after, n, Some(v)) ==> IdsIn(n, v) <= used
  {
    hide History, Normalize, GoodRun, Backed, JournalBacked, StoredBytes, Registered;
    if n.RunName? {
      forall v | Candidate(after, n, Some(v)) ensures Shape(env, n, v) && IdsIn(n, v) <= used {
        assert v.RunFile? && HasRun(after, n.run, v.record);
        if HasRun(fs, n.run, v.record) {
          assert Candidate(fs, n, Some(v));
        }
      }
    }
  }

  lemma DiskKept(env: Env, fs: Fs, after: Fs, n: Name, used: set<string>, more: set<string>)
    requires DiskInv(env, fs, used) && StoreInv(after) && used <= more
    requires Gently(fs, after, n) && Fits(env, fs, after, n, more)
    requires n in fs.visible && n !in after.visible ==> n.BytesName?
    ensures DiskInv(env, after, more)
  {
    hide StoreInv, Shapes, Layout, Artifacts, Journals, Reserves, Submissions, AllUsed, Shape, JournalBacked,
         Backed, GoodRun, StoredBytes, Change, Candidate, RunStays;
    UsedMore(fs, used, more);
    FitsShape(env, fs, after, n, more);
    ShapesKept(env, fs, after, n);
    LayoutKept(fs, after, n);
    ArtifactsKept(env, fs, after, n);
    JournalsKept(env, fs, after, n);
    ReservesKept(fs, after, n);
    SubmissionsKept(fs, after, n);
    AllUsedKept(fs, after, n, used, more);
  }

  lemma UsedMore(fs: Fs, used: set<string>, more: set<string>)
    requires AllUsed(fs, used) && used <= more
    ensures AllUsed(fs, more)
  {
    hide IdsIn, Candidate;
  }

  // ---- The process ----

  lemma CopyKept(env: Env, fs: Fs, after: Fs, n: Name, run: Run)
    requires Gently(fs, after, n) && KeptCopy(env, fs, run)
    ensures KeptCopy(env, after, run)
  {
    hide Gently, GoodRun;
    RunKept(fs, after, n, run.id);
  }

  /** The names an upload works on. */
  predicate Touches(n: Name, id: string) {
    (n.BytesName? || n.MetaName?) && n.artifact == id
  }

  lemma BytesAtKept(fs: Fs, after: Fs, n: Name, run: string, id: string)
    requires Gently(fs, after, n) && !Touches(n, id)
    ensures BytesAt(after, run, id) == BytesAt(fs, run, id)
    ensures BytesName(run, id) in fs.visible ==> BytesName(run, id) in after.visible
  {
    assert n != BytesName(run, id);
    assert Lookup(after, BytesName(run, id)) == Lookup(fs, BytesName(run, id));
  }

  lemma MetaFreeKept(fs: Fs, after: Fs, n: Name, id: string)
    requires Gently(fs, after, n) && !(n.MetaName? && n.artifact == id)
    ensures MetaFree(fs, id) ==> MetaFree(after, id)
  {
    assert forall r, ref :: Candidate(after, MetaName(r, id), Some(MetaFile(ref))) ==>
        Candidate(fs, MetaName(r, id), Some(MetaFile(ref)));
  }

  lemma PutBytesKept(env: Env, fs: Fs, after: Fs, n: Name, p: Put)
    requires Gently(fs, after, n) && !Touches(n, p.id) && p.ref.Some? && p.ref.value.id == p.id
    ensures StoredBytes(env, fs, p.run, p.ref.value) ==> StoredBytes(env, after, p.run, p.ref.value)
  {
    if StoredBytes(env, fs, p.run, p.ref.value) {
      StoredBytesKept(env, fs, after, n, p.run, p.ref.value);
    }
  }

  lemma PutKept(env: Env, fs: Fs, after: Fs, n: Name, used: set<string>, more: set<string>, p: Put)
    requires PutFacts(env, fs, used, p) && Gently(fs, after, n) && used <= more && !Touches(n, p.id)
    ensures PutFacts(env, after, more, p)
  {
    hide Describes, StoredBytes, Minted, Gently, MetaFree, Stable, BytesAt;
    if p.ref.Some? && p.ref.value.id == p.id {
      PutBytesKept(env, fs, after, n, p);
    }
    BytesAtKept(fs, after, n, p.run, p.id);
    MetaFreeKept(fs, after, n, p.id);
    FolderKept(fs, after, n, ArtifactFolder(p.run));
    FolderKept(fs, after, n, MetaFolder(p.run));
  }

  /** Uploads other than `k`, if any moves, are as they were. */
  ghost predicate OthersPut(s: State, after: State, k: nat) {
    forall l :: l != k ==> (l in after.puts <==> l in s.puts) && (l in s.puts ==> after.puts[l] == s.puts[l])
  }

  /** The upload that moves is over, or goes on under its id, or is new under an unused one. */
  ghost predicate PutGoesOn(env: Env, s: State, after: State, k: nat) {
    k in after.puts ==>
      && PutFacts(env, after.fs, after.used, after.puts[k])
      && if k in s.puts then after.puts[k].id == s.puts[k].id else after.puts[k].id !in s.used
  }

  lemma PutsKept(env: Env, s: State, after: State, n: Name, k: nat)
    requires PutsOk(env, s) && Gently(s.fs, after.fs, n) && s.used <= after.used && OthersPut(s, after, k)
    requires forall l, p :: l != k && PutAt(s, l) == Some(p) ==> !Touches(n, p.id)
    requires PutGoesOn(env, s, after, k)
    ensures PutsOk(env, after)
  {
    hide Gently;
    forall l | l in after.puts ensures PutFacts(env, after.fs, after.used, after.puts[l]) {
      if l != k {
        assert PutAt(s, l) == Some(s.puts[l]);
        PutKept(env, s.fs, after.fs, n, s.used, after.used, s.puts[l]);
      }
    }
    hide Touches;
    assert forall l :: l in s.puts ==> s.puts[l].id in s.used;
  }

  lemma KnownKept(fs: Fs, after: Fs, n: Name, run: Run, known: Option<Journal>, artifact: string)
    requires Gently(fs, after, n) && OldJournal(fs, run, known, artifact) && !n.JournalName?
    ensures OldJournal(after, run, known, artifact)
  {
    if known.Some? {
      JournalKept(fs, after, n, run.id, known.value);
    } else {
      assert Lookup(after, JournalName(run.id)) == Lookup(fs, JournalName(run.id));
    }
  }

  lemma FreeKept(fs: Fs, after: Fs, n: Name, evidence: string)
    requires Change(fs, after, n)
    ensures !n.EvidenceName? && EvidenceFree(fs, evidence) ==> EvidenceFree(after, evidence)
    ensures !n.JournalName? && JournalFree(fs, evidence) ==> JournalFree(after, evidence)
  {
    assert !n.EvidenceName? ==> forall r, e :: HasEvidence(after, r, evidence, e) ==> HasEvidence(fs, r, evidence, e);
    assert !n.JournalName? ==> forall id, j :: HasJournal(after, id, j) ==> HasJournal(fs, id, j);
  }

  lemma FolderKept(fs: Fs, after: Fs, n: Name, f: Name)
    requires Gently(fs, after, n) && IsFolder(f)
    ensures f in fs.visible ==> f in after.visible
    ensures Stable(fs, f) ==> Stable(after, f)
  {
    assert n != f ==> Lookup(after, f) == Lookup(fs, f);
  }

  lemma WritingKept(env: Env, fs: Fs, after: Fs, n: Name, used: set<string>, more: set<string>, stage: Stage,
                    run: Run, j: Journal)
    requires WritingJournal(env, fs, used, stage, run, j) && Gently(fs, after, n) && used <= more
    requires !n.JournalName? && !n.EvidenceName?
    ensures WritingJournal(env, after, more, stage, run, j)
  {
    CopyKept(env, fs, after, n, run);
    ArtifactSafeKept(env, fs, after, n, run.id, j.artifact);
    FreeKept(fs, after, n, j.evidence.id);
    assert Lookup(after, JournalName(run.id)) == Lookup(fs, JournalName(run.id));
    FolderKept(fs, after, n, JournalsFolder);
    hide KeptCopy, ArtifactSafe, ValidJournal, EvidenceFree, JournalFree, Minted, RunStays;
  }

  lemma AppendingKept(env: Env, s: State, after: State, n: Name, stage: Stage, tenant: string, id: string,
                      e: EvidenceRef, next: Then)
    requires Appending(env, s, stage, tenant, id, e, next) && Gently(s.fs, after.fs, n) && s.used <= after.used
    requires after.recs == s.recs
    requires !n.JournalName? && !n.EvidenceName?
    ensures Appending(env, after, stage, tenant, id, e, next)
  {
    hide KeptCopy, JournalSafe, Normalize, JournalFree, Gently, Stable;
    RunKept(s.fs, after.fs, n, id);
    FreeKeptGently(s.fs, after.fs, n, e.id);
    if next.ToCommit? {
      CopyKept(env, s.fs, after.fs, n, next.run);
      JournalKept(s.fs, after.fs, n, id, next.j);
    }
    EvidenceNameKept(s.fs, after.fs, n, id, e.id);
    FolderKept(s.fs, after.fs, n, EvidenceFolder(id));
  }

  lemma EvidenceNameKept(fs: Fs, after: Fs, n: Name, run: string, x: string)
    requires Gently(fs, after, n) && !n.EvidenceName?
    ensures Lookup(after, EvidenceName(run, x)) == Lookup(fs, EvidenceName(run, x))
  {
  }

  lemma FreeKeptGently(fs: Fs, after: Fs, n: Name, evidence: string)
    requires Gently(fs, after, n)
    ensures !n.JournalName? && JournalFree(fs, evidence) ==> JournalFree(after, evidence)
  {
    FreeKept(fs, after, n, evidence);
  }

  /** While the holder of inputMu stands still, nothing it relies on goes away. */
  lemma OpKept(env: Env, s: State, after: State, n: Name)
    requires OpOk(env, s) && Gently(s.fs, after.fs, n) && after.op == s.op && after.recs == s.recs
    requires s.used <= after.used
    requires !n.JournalName? && !n.EvidenceName?
    ensures OpOk(env, after)
  {
    hide Gently, KeptCopy, OldJournal, JournalSafe, ArtifactSafe, WritingJournal, Appending, MatchesManifest;
    var o := s.op;
    if o.FindJournal? || o.FindArtifact? || o.ReadArtifact? || o.MintEvidence? || o.FindEvidence? || o.Commit? {
      CopyKept(env, s.fs, after.fs, n, o.run);
    }
    if o.FindArtifact? {
      KnownKept(s.fs, after.fs, n, o.run, o.known, o.artifact);
    } else if o.ReadArtifact? {
      KnownKept(s.fs, after.fs, n, o.run, o.known, o.a.id);
      MetaKept(s.fs, after.fs, n, o.run.id, o.a.id);
    } else if o.MintEvidence? {
      NoJournalKept(s.fs, after.fs, n, o.run.id);
      ArtifactSafeKept(env, s.fs, after.fs, n, o.run.id, o.a);
    } else if o.WriteJournal? {
      WritingKept(env, s.fs, after.fs, n, s.used, after.used, o.stage, o.run, o.j);
    } else if o.FindEvidence? || o.Commit? {
      JournalKept(s.fs, after.fs, n, o.run.id, o.j);
    } else if o.Append? {
      AppendingKept(env, s, after, n, o.stage, o.tenant, o.id, o.e, o.next);
    }
  }

  lemma MetaKept(fs: Fs, after: Fs, n: Name, run: string, artifact: string)
    requires Gently(fs, after, n) && MetaAt(fs, run, artifact).Some?
    ensures MetaAt(after, run, artifact) == MetaAt(fs, run, artifact)
  {
    assert n != MetaName(run, artifact);
    assert Lookup(after, MetaName(run, artifact)) == Lookup(fs, MetaName(run, artifact));
  }

  lemma NoJournalKept(fs: Fs, after: Fs, n: Name, run: string)
    requires Gently(fs, after, n) && !n.JournalName? && JournalName(run) !in fs.visible
    ensures JournalName(run) !in after.visible
  {
    assert Lookup(after, JournalName(run)) == Lookup(fs, JournalName(run));
  }

  /** Run files change only between versions that agree on the submission, or get their first one. */
  ghost predicate SubmissionStays(fs: Fs, after: Fs, id: string) {
    forall r :: HasRun(after, id, r) ==>
      || HasRun(fs, id, r)
      || (RunAt(fs, id).Some? && RunAt(fs, id).value.submission == None)
      || (RunAt(fs, id).Some? && r.submission == RunAt(fs, id).value.submission)
      || !KeptRun(fs, id)
  }

  lemma AnswersKept(s: State, after: State, n: Name)
    requires Answers(s) && Gently(s.fs, after.fs, n) && after.acks == s.acks && after.registered == s.registered
    requires n.RunName? ==> SubmissionStays(s.fs, after.fs, n.run)
    ensures Answers(after)
  {
    hide Gently, JournalSafe;
    forall a | a in after.acks
      ensures KeptRun(after.fs, a.run) && forall r :: HasRun(after.fs, a.run, r) ==> r.submission == Some(a.submission)
    {
      AckKept(s.fs, after.fs, n, a);
    }
    forall p | p in after.registered
      ensures JournalAt(after.fs, p.0).Some? && JournalSafe(after.fs, p.0, JournalAt(after.fs, p.0).value)
      ensures JournalAt(after.fs, p.0).value.evidence.id == p.1
    {
      JournalKept(s.fs, after.fs, n, p.0, JournalAt(s.fs, p.0).value);
    }
  }

  lemma AckKept(fs: Fs, after: Fs, n: Name, a: Ack)
    requires Gently(fs, after, n) && KeptRun(fs, a.run) && forall r :: HasRun(fs, a.run, r) ==>
        r.submission == Some(a.submission)
    requires n.RunName? ==> SubmissionStays(fs, after, n.run)
    ensures KeptRun(after, a.run) && forall r :: HasRun(after, a.run, r) ==> r.submission == Some(a.submission)
  {
    RunKept(fs, after, n, a.run);
    assert HasRun(fs, a.run, RunAt(fs, a.run).value);
    if n != RunName(a.run) {
      assert forall r :: HasRun(after, a.run, r) ==> HasRun(fs, a.run, r);
    }
  }

  ghost predicate SafeJournal(fs: Fs, id: string) {
    JournalAt(fs, id).Some? && JournalSafe(fs, id, JournalAt(fs, id).value)
  }

  lemma RecordsKept(env: Env, s: State, after: State, n: Name)
    requires StoreInv(s.fs) && Submissions(s.fs)
    requires Records(s) && Gently(s.fs, after.fs, n) && after.recs == s.recs && after.up == s.up
    requires n.RunName? ==> forall r :: HasRun(after.fs, n.run, r) && r.submission.Some? ==>
               HasRun(s.fs, n.run, r) || (SafeJournal(s.fs, n.run) && RecordThere(s.fs, n.run, r.Tenant(), s.recs))
    ensures Records(after)
  {
    hide StoreInv, Submissions, Gently, Safe, JournalSafe;
    if s.up {
      forall x | x in after.recs
        ensures Safe(after.fs, EvidenceName(after.recs[x].run, x), EvidenceFile(after.recs[x].evidence))
        ensures BelongsTo(after.fs, after.recs[x].run, after.recs[x].tenant)
      {
        RecordKept(s.fs, after.fs, n, x, s.recs[x]);
      }
      forall id, r | HasRun(after.fs, id, r) && r.submission.Some?
        ensures JournalAt(after.fs, id) == JournalAt(s.fs, id) && RecordThere(s.fs, id, r.Tenant(), s.recs)
      {
        RunNotElsewhere(s.fs, after.fs, n, id, r);
        if HasRun(s.fs, id, r) {
          SubmittedJournal(s.fs, id, r);
        }
        JournalKept(s.fs, after.fs, n, id, JournalAt(s.fs, id).value);
      }
    }
  }

  lemma RunNotElsewhere(fs: Fs, after: Fs, n: Name, id: string, r: Run)
    requires Gently(fs, after, n) && HasRun(after, id, r)
    ensures n == RunName(id) || HasRun(fs, id, r)
  {
  }

  lemma SubmittedJournal(fs: Fs, id: string, r: Run)
    requires Submissions(fs) && HasRun(fs, id, r) && r.submission.Some?
    ensures SafeJournal(fs, id)
  {
  }

  lemma RecordKept(fs: Fs, after: Fs, n: Name, x: string, rec: Record)
    requires Gently(fs, after, n) && Safe(fs, EvidenceName(rec.run, x), EvidenceFile(rec.evidence))
    ensures Safe(after, EvidenceName(rec.run, x), EvidenceFile(rec.evidence))
    ensures BelongsTo(fs, rec.run, rec.tenant) ==> BelongsTo(after, rec.run, rec.tenant)
  {
    if RunAt(fs, rec.run).Some? {
      RunKept(fs, after, n, rec.run);
    }
    assert Candidate(fs, EvidenceName(rec.run, x), Lookup(fs, EvidenceName(rec.run, x)));
    SafeKept(fs, after, n, EvidenceName(rec.run, x), EvidenceFile(rec.evidence));
  }
}
