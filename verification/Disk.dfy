/** The directory tree the stores write to, and what a power loss may do to it.

    Publishing a name (rename, link, create, mkdir) makes it visible at once. It becomes
    durable only when the directory holding the name is synced; until then a power loss may
    bring back any value the name had since the last sync. */
module Disk {
  import opened Prelude
  import opened Utf8
  import opened Domain

  /** Directories. The state root, `runs`, `evidence` and the artifact root are made and
      synced before a store is used. */
  datatype Dir =
    | StateRoot | RunsDir | JournalsDir
    | EvidenceRoot | EvidenceDir(run: string)
    | ArtifactRoot | ArtifactDir(run: string) | MetaDir(run: string)

  datatype Name =
    | RunName(run: string)
    | JournalsFolder | JournalName(run: string)
    | EvidenceFolder(run: string) | EvidenceName(run: string, evidence: string)
    | ArtifactFolder(run: string) | BytesName(run: string, artifact: string)
    | MetaFolder(run: string) | MetaName(run: string, artifact: string)

  datatype Node =
    | Folder
    | RunFile(record: Run)
    | JournalFile(journal: Journal)
    | EvidenceFile(evidence: EvidenceRef)
    | BytesFile(data: Bytes)
    | MetaFile(ref: ArtifactRef)

  /** The directory whose sync makes a name durable. */
  function Home(n: Name): Dir {
    match n
    case RunName(_) => RunsDir
    case JournalsFolder => StateRoot
    case JournalName(_) => JournalsDir
    case EvidenceFolder(_) => EvidenceRoot
    case EvidenceName(r, _) => EvidenceDir(r)
    case ArtifactFolder(_) => ArtifactRoot
    case BytesName(r, _) => ArtifactDir(r)
    case MetaFolder(r) => ArtifactDir(r)
    case MetaName(r, _) => MetaDir(r)
  }

  /** The directory entries above a name. */
  function Above(n: Name): set<Name> {
    match n
    case RunName(_) => {}
    case JournalsFolder => {}
    case JournalName(_) => {JournalsFolder}
    case EvidenceFolder(_) => {}
    case EvidenceName(r, _) => {EvidenceFolder(r)}
    case ArtifactFolder(_) => {}
    case BytesName(r, _) => {ArtifactFolder(r)}
    case MetaFolder(r) => {ArtifactFolder(r)}
    case MetaName(r, _) => {ArtifactFolder(r), MetaFolder(r)}
  }

  /** `past` holds what each name showed before and has not yet been synced away. */
  datatype Fs = Fs(visible: map<Name, Node>, past: set<(Name, Option<Node>)>)

  const EMPTY := Fs(map[], {})

  function Lookup(fs: Fs, n: Name): Option<Node> {
    if n in fs.visible then Some(fs.visible[n]) else None
  }

  function Publish(fs: Fs, n: Name, node: Node): Fs {
    Fs(fs.visible[n := node], fs.past + {(n, Lookup(fs, n))})
  }

  function Remove(fs: Fs, n: Name): Fs {
    Fs(fs.visible - {n}, fs.past + {(n, Lookup(fs, n))})
  }

  function Mkdir(fs: Fs, n: Name): Fs {
    if n in fs.visible then fs else Publish(fs, n, Folder)
  }

  function Sync(fs: Fs, d: Dir): Fs {
    fs.(past := set p | p in fs.past && Home(p.0) != d)
  }

  /** A value the name may have after a power loss that spares the directories above it. */
  predicate Candidate(fs: Fs, n: Name, v: Option<Node>) {
    v == Lookup(fs, n) || (n, v) in fs.past
  }

  ghost predicate PowerLoss(fs: Fs, after: Fs) {
    && after.past == {}
    && (forall n :: n in after.visible ==> Candidate(fs, n, Some(after.visible[n])) && Above(n) <= after.visible.Keys)
    && (forall n :: n !in after.visible ==> Candidate(fs, n, None) || !(Above(n) <= after.visible.Keys))
  }

  /** A restart follows a process that stopped, with the machine up or down. */
  ghost predicate Restart(fs: Fs, after: Fs) {
    after == fs || PowerLoss(fs, after)
  }

  ghost predicate Settled(fs: Fs, n: Name, node: Node) {
    forall v :: Candidate(fs, n, v) ==> v == Some(node)
  }

  ghost predicate AboveSettled(fs: Fs, n: Name) {
    forall f :: f in Above(n) ==> f in fs.visible && (f, None) !in fs.past
  }

  /** Durable: the name and every directory above it are on disk. */
  ghost predicate Safe(fs: Fs, n: Name, node: Node) {
    Settled(fs, n, node) && AboveSettled(fs, n)
  }

  /** Nothing is visible inside a directory that is not. */
  ghost predicate Nested(fs: Fs) {
    forall n :: n in fs.visible ==> Above(n) <= fs.visible.Keys
  }

  /** A new value is settled by a sync of its own directory and by no other; and neither publishing nor syncing
      touches what lies elsewhere. */
  lemma SettledBySync(fs: Fs, n: Name, node: Node, d: Dir)
    requires Lookup(fs, n) != Some(node)
    ensures Lookup(Sync(Publish(fs, n, node), d), n) == Some(node)
    ensures Settled(Sync(Publish(fs, n, node), d), n, node) <==> d == Home(n)
    ensures forall m, v :: m != n ==> (Candidate(Publish(fs, n, node), m, v) <==> Candidate(fs, m, v))
    ensures forall m, v :: Home(m) != d ==> (Candidate(Sync(fs, d), m, v) <==> Candidate(fs, m, v))
    ensures forall m :: Lookup(Sync(fs, d), m) == Lookup(fs, m)
  {
    assert Candidate(Publish(fs, n, node), n, Lookup(fs, n));
    assert d != Home(n) ==> Candidate(Sync(Publish(fs, n, node), d), n, Lookup(fs, n));
  }

  lemma SafeSurvives(fs: Fs, after: Fs, n: Name, node: Node)
    requires Safe(fs, n, node) && Restart(fs, after)
    ensures Safe(after, n, node)
  {
    assert Candidate(fs, n, Lookup(fs, n));
  }

  /** A power loss that takes one entry, with everything below it, and nothing else. */
  lemma LoseEntry(fs: Fs, f: Name) returns (after: Fs)
    requires Nested(fs) && Candidate(fs, f, None)
    ensures PowerLoss(fs, after) && f !in after.visible
    ensures forall m :: m != f && f !in Above(m) ==> Lookup(after, m) == Lookup(fs, m)
  {
    after := Fs(map m | m in fs.visible && m != f && f !in Above(m) :: fs.visible[m], {});
    forall m | m in after.visible ensures Above(m) <= after.visible.Keys {
      forall g | g in Above(m) ensures g in after.visible {
        assert Above(g) <= Above(m);
      }
    }
    forall m | m !in after.visible ensures Candidate(fs, m, None) || !(Above(m) <= after.visible.Keys) {
      if m in fs.visible && m != f {
        assert f in Above(m) && f !in after.visible;
      }
    }
  }

  /** A name that could be lost or changed is lost or changed by some power loss, which leaves what lies elsewhere
      in place. */
  lemma UnsafeCanBeLost(fs: Fs, n: Name, node: Node) returns (after: Fs)
    requires Nested(fs) && !Safe(fs, n, node)
    ensures PowerLoss(fs, after) && Lookup(after, n) != Some(node)
    ensures forall m :: m != n && n !in Above(m) && m !in Above(n) && Above(m) !! Above(n) ==>
        Lookup(after, m) == Lookup(fs, m)
  {
    if Lookup(fs, n) != Some(node) {
      after := Fs(fs.visible, {});
    } else if !AboveSettled(fs, n) {
      var f :| f in Above(n) && (f !in fs.visible || (f, None) in fs.past);
      hide Above;
      after := LoseEntry(fs, f);
    } else {
      var v :| Candidate(fs, n, v) && v != Some(node);
      hide Above;
      if v == None {
        after := LoseEntry(fs, n);
      } else {
        after := Fs(fs.visible[n := v.value], {});
      }
    }
  }

  /** Safe is exactly durability: the value every power loss leaves in place. */
  lemma SafeIsDurable(fs: Fs, n: Name, node: Node)
    requires Nested(fs)
    ensures Safe(fs, n, node) <==> forall after :: PowerLoss(fs, after) ==> Lookup(after, n) == Some(node)
  {
    if Safe(fs, n, node) {
      forall after | PowerLoss(fs, after) ensures Lookup(after, n) == Some(node) {
        SafeSurvives(fs, after, n, node);
        assert Candidate(after, n, Lookup(after, n));
      }
    } else {
      var after := UnsafeCanBeLost(fs, n, node);
    }
  }

  /** After a power loss a name shows nothing or one of its candidates. */
  lemma LossPicksCandidates(fs: Fs, after: Fs, n: Name, v: Option<Node>)
    requires Restart(fs, after) && Candidate(after, n, v)
    ensures v == None || Candidate(fs, n, v)
  {
  }
}
