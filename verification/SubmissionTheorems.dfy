/** What the manual submission guarantees in every run of the step system. */
module SubmissionTheorems {
  import opened Prelude
  import opened Utf8
  import opened Domain
  import opened Disk
  import opened RunFiles
  import opened Evidence
  import opened InputRules
  import opened SubmissionSystem
  import opened SubmissionSteps
  import Creation

  ghost predicate Trace(env: Env, states: seq<State>, steps: seq<Step>) {
    && |states| == |steps| + 1 && states[0] == INIT && Sound(env)
    && forall i :: 0 <= i < |steps| ==> Next(env, states[i], steps[i], states[i + 1])
  }

  lemma Shorter(env: Env, states: seq<State>, steps: seq<Step>)
    requires Trace(env, states, steps) && steps != []
    ensures Trace(env, states[..|steps|], steps[..|steps| - 1])
    ensures Next(env, states[|steps| - 1], steps[|steps| - 1], states[|steps|])
  {
    hide Next, Sound;
    var n := |steps| - 1;
    forall i | 0 <= i < n ensures Next(env, states[..n + 1][i], steps[..n][i], states[..n + 1][i + 1]) {
      assert Next(env, states[i], steps[i], states[i + 1]);
    }
    assert Next(env, states[n], steps[n], states[n + 1]);
  }

  /** The invariant holds in every state of every run. */
  lemma {:induction false} Reachable(env: Env, states: seq<State>, steps: seq<Step>)
    requires Trace(env, states, steps)
    ensures forall s :: s in states ==> Inv(env, s)
    decreases |steps|
  {
    hide Inv, Next, Sound;
    if steps == [] {
      InitInv(env);
    } else {
      var n := |steps|;
      Shorter(env, states, steps);
      Reachable(env, states[..n], steps[..n - 1]);
      assert states[n - 1] in states[..n];
      NextKeeps(env, states[n - 1], steps[n - 1], states[n]);
      assert states == states[..n] + [states[n]];
    }
  }

  /** Everything behind a submission is on disk for good: the journal with that very submission, its evidence
      record, the artifact's metadata, and bytes of the recorded size and digest that are a valid input. */
  ghost predicate WrittenAhead(env: Env, fs: Fs, id: string, r: Run, j: Journal) {
    && Safe(fs, JournalName(id), JournalFile(j))
    && r.submission == Some(j.submission) && r.inputs == FrozenInput(j)
    && Safe(fs, EvidenceName(id, j.evidence.id), EvidenceFile(j.evidence))
    && Safe(fs, MetaName(id, j.artifact.id), MetaFile(j.artifact))
    && BytesAt(fs, id, j.artifact.id).Ok?
    && var data := BytesAt(fs, id, j.artifact.id).value;
       && Safe(fs, BytesName(id, j.artifact.id), BytesFile(data))
       && |data| == j.artifact.sizeBytes && env.hash(data) == j.artifact.sha256 && env.validInput(data)
  }

  /** Write-ahead ordering. In every state reachable by any steps, failed syncs and crashes, any run file with a
      submission, even one that a crash might still bring back or take away, has everything behind it durably written.
      */
  lemma WriteAhead(env: Env, states: seq<State>, steps: seq<Step>, s: State, id: string, r: Run) returns (j: Journal)
    requires Trace(env, states, steps) && s in states && HasRun(s.fs, id, r) && r.submission.Some?
    ensures WrittenAhead(env, s.fs, id, r, j)
  {
    hide Next, Shapes, Layout, Artifacts, Reserves, AllUsed, StoreInv, PutsOk, OpOk, Records, Answers, KeptRun,
         ValidJournal, Safe;
    Reachable(env, states, steps);
    j := JournalAt(s.fs, id).value;
    SafeIsHeld(s.fs, id, j);
  }

  /** What a submission puts into a run, in every reachable state: the input names the submitted artifact, its digest,
      size and type are those of the submission and of the manifest, and the evidence record, the metadata and the
      bytes on disk are of that artifact. */
  lemma SubmittedInput(env: Env, states: seq<State>, steps: seq<Step>, s: State, id: string, r: Run)
    returns (submission: Submission, e: EvidenceRef, a: ArtifactRef, data: Bytes)
    requires Trace(env, states, steps) && s in states && HasRun(s.fs, id, r) && r.submission.Some?
    ensures r.id == id && Submitted(env, r, submission)
    ensures RecordOf(r, submission, e) && Safe(s.fs, EvidenceName(id, submission.evidenceId), EvidenceFile(e))
    ensures ArtifactOf(r, submission, a) && Safe(s.fs, MetaName(id, submission.artifactId), MetaFile(a))
    ensures Safe(s.fs, BytesName(id, submission.artifactId), BytesFile(data)) && |data| == submission.sizeBytes
    ensures env.hash(data) == submission.sha256 && env.validInput(data)
  {
    hide Trace, Inv, Submitted, Safe;
    Reachable(env, states, steps);
    var j := WriteAhead(env, states, steps, s, id, r);
    SaysItsJournal(env, s, id, r, j);
    submission, e, a, data := j.submission, j.evidence, j.artifact, BytesAt(s.fs, id, j.artifact.id).value;
  }

  lemma SaysItsJournal(env: Env, s: State, id: string, r: Run, j: Journal)
    requires Inv(env, s) && HasRun(s.fs, id, r) && r.submission == Some(j.submission) && r.inputs == FrozenInput(j)
    requires JournalSafe(s.fs, id, j)
    ensures r.id == id && Submitted(env, r, j.submission) && RecordOf(r, j.submission, j.evidence)
    ensures ArtifactOf(r, j.submission, j.artifact)
  {
    hide Layout, Artifacts, Reserves, Submissions, AllUsed, PutsOk, OpOk, Records, Answers, GoodRun, Minted,
         Frozen, ValidJournal, FrozenInput;
    SafeIsHeld(s.fs, id, j);
    assert HasJournal(s.fs, id, j);
    var now := RunAt(s.fs, id).value;
    assert HasRun(s.fs, id, now);
    SafeMeta(s.fs, id, j.artifact);
    MetaIsRegistered(env, s.fs, id, j.artifact.id, j.artifact, s.used);
    JournalNeedsTerms(env, now, r, j);
    JournalSays(env, r, j);
  }

  /** The run on disk carries the submission and the input that names its artifact. */
  ghost predicate Carries(env: Env, s: State, id: string, submission: Submission) {
    match RunAt(s.fs, id)
    case Some(r) => r.id == id && Submitted(env, r, submission)
    case None => false
  }

  /** What SubmitRun has answered stands in the run, with the input that goes with it. */
  lemma AnsweredInput(env: Env, s: State, id: string, artifact: string, submission: Submission)
    requires Inv(env, s) && Ack(id, artifact, submission) in s.acks
    ensures Carries(env, s, id, submission) && submission.artifactId == artifact
  {
    hide StoreInv, Shapes, Layout, Artifacts, Reserves, AllUsed, PutsOk, OpOk, Records, Submitted, Journals;
    var r := RunAt(s.fs, id).value;
    assert HasRun(s.fs, id, r);
    var j := JournalAt(s.fs, id).value;
    SaysItsJournal(env, s, id, r, j);
  }

  lemma {:induction false} AnswersGrow(env: Env, states: seq<State>, steps: seq<Step>, i: nat, j: nat)
    requires Trace(env, states, steps) && i <= j < |states|
    ensures states[i].acks <= states[j].acks && states[i].registered <= states[j].registered
    decreases j - i
  {
    hide Next;
    if i < j {
      AnswersGrow(env, states, steps, i, j - 1);
      assert Next(env, states[j - 1], steps[j - 1], states[j - 1 + 1]);
      StepGrows(env, states[j - 1], steps[j - 1], states[j]);
    }
  }

  lemma StepGrows(env: Env, s: State, step: Step, after: State)
    requires Next(env, s, step, after)
    ensures s.acks <= after.acks && s.registered <= after.registered
  {
    hide HolderNext, PutNext, WorldNext;
    if OfHolder(step) {
      HolderGrows(env, s, step, after);
    } else {
      OthersAnswerNothing(env, s, step, after);
    }
  }

  lemma HolderGrows(env: Env, s: State, step: Step, after: State)
    requires HolderNext(env, s, step, after)
    ensures s.acks <= after.acks && s.registered <= after.registered
  {
    hide UpdateRun, Normalize, MayAppend, IsReserved, Minted, NewJournal, ValidJournal, ValidateArtifact,
         ArtifactIdOk, NamespaceOk, Mkdir, Publish, Sync, SyncArtifact, JournalAt, MetaAt, HasRecord;
  }

  lemma OthersAnswerNothing(env: Env, s: State, step: Step, after: State)
    requires PutNext(env, s, step, after) || WorldNext(env, s, step, after)
    ensures after.acks == s.acks && after.registered == s.registered
  {
    hide Created, Loaded, Restart, UpdateRun, CreateRun, Minted, Mkdir, Publish, Remove, Sync, SyncEvidence, Kept;
  }

  /** Over any mix of retries, failures, crashes, uploads, appends and cancellations, all successful submits of a run
      answer with one submission, of the one artifact it names. */
  lemma OneSubmission(env: Env, states: seq<State>, steps: seq<Step>, i: nat, j: nat, a: Ack, b: Ack)
    requires Trace(env, states, steps) && i <= j < |states| && a in states[i].acks && b in states[j].acks
    requires a.run == b.run
    ensures a.submission == b.submission && a.artifact == b.artifact == a.submission.artifactId
    ensures RunAt(states[j].fs, a.run).Some? && RunAt(states[j].fs, a.run).value.submission == Some(a.submission)
  {
    hide Next, DiskInv, PutsOk, OpOk, Records;
    AnswersGrow(env, states, steps, i, j);
    Reachable(env, states, steps);
    assert states[j] in states;
    var r := RunAt(states[j].fs, a.run).value;
    assert HasRun(states[j].fs, a.run, r);
  }

  /** Submits publish one evidence record for a run, whatever happens: the one its journal names. */
  lemma OneRegistration(env: Env, states: seq<State>, steps: seq<Step>, i: nat, j: nat, run: string, e: string,
                        f: string)
    requires Trace(env, states, steps) && i <= j < |states| && (run, e) in states[i].registered
    requires (run, f) in states[j].registered
    ensures e == f && JournalAt(states[j].fs, run).Some? && JournalAt(states[j].fs, run).value.evidence.id == e
  {
    hide Next, DiskInv, PutsOk, OpOk, Records;
    AnswersGrow(env, states, steps, i, j);
    Reachable(env, states, steps);
    assert states[j] in states;
  }

  /** For every visible journal, any stored record with its evidence id is the journal's record under the
      journal's run. */
  lemma ReservedIds(env: Env, states: seq<State>, steps: seq<Step>, s: State, id: string, j: Journal, run: string,
                    e: EvidenceRef)
    requires Trace(env, states, steps) && s in states
    requires JournalAt(s.fs, id) == Some(j) && HasEvidence(s.fs, run, j.evidence.id, e)
    ensures run == id && e == j.evidence
  {
    hide Next, PutsOk, OpOk, Records, Answers, StoreInv, Shapes, Layout, Artifacts, Journals, Submissions, AllUsed;
    Reachable(env, states, steps);
    assert HasJournal(s.fs, id, j);
  }

  /** The check that Start and the worker make before a manual run may go on. */
  predicate CheckFrozen(env: Env, s: State, run: Run) {
    && Creation.ValidCreation(env.lib, run) && run.submission.Some? && JournalAt(s.fs, run.id).Some?
    && var j := JournalAt(s.fs, run.id).value;
       && ValidJournal(env, run, j) && run.submission.value == j.submission && run.inputs == FrozenInput(j)
       && NamespaceOk(run.Tenant(), run.id)
       && HasRecord(s, run.Tenant(), run.id, j.evidence.id) && s.recs[j.evidence.id].evidence == j.evidence
       && MetaAt(s.fs, run.id, j.artifact.id) == Some(j.artifact)
       && ValidateArtifact(env, run, j.artifact, BytesAt(s.fs, run.id, j.artifact.id)).Ok?
  }

  /** What passes the check is the run's submitted input: the run names it, its record is in memory, and the bytes on
      disk are a valid input of the promised size and digest. */
  lemma CheckedInput(env: Env, s: State, run: Run) returns (submission: Submission, data: Bytes)
    requires Inv(env, s) && CheckFrozen(env, s, run)
    ensures Frozen(env, run, submission) && submission.evidenceId in s.recs
    ensures var record := s.recs[submission.evidenceId];
      record.tenant == run.terms.scope.tenantId && record.run == run.id && RecordOf(run, submission, record.evidence)
    ensures BytesAt(s.fs, run.id, submission.artifactId) == Ok(data)
    ensures |data| == submission.sizeBytes && env.hash(data) == submission.sha256 && env.validInput(data)
    ensures |data| <= 1048576 && (env.limit > 0 ==> |data| <= env.limit)
  {
    hide StoreInv, Layout, Artifacts, Journals, Reserves, Submissions, AllUsed, PutsOk, OpOk, Records, Answers,
         FrozenInput, Frozen, Minted, GoodRun;
    var j := JournalAt(s.fs, run.id).value;
    submission, data := j.submission, BytesAt(s.fs, run.id, j.artifact.id).value;
    MetaIsRegistered(env, s.fs, run.id, j.artifact.id, j.artifact, s.used);
    JournalSays(env, run, j);
    AcceptedArtifact(env, run, j.artifact, Ok(data));
  }

  /** The run is there and belongs to the tenant. */
  predicate OfTenant(fs: Fs, id: string, tenant: string) {
    match RunAt(fs, id)
    case Some(r) => r.terms.scope.tenantId == tenant
    case None => false
  }

  /** Submissions, appends and uploads are begun for the run's own tenant alone, and an upload for a prepared run must
      bring what its manifest promised. */
  lemma CallsOfTheTenant(env: Env, s: State, step: Step, after: State)
    requires Next(env, s, step, after)
    ensures step.SubmitStart? || step.AppendStart? || step.UploadStart? ==> OfTenant(s.fs, step.id, step.tenant)
    ensures step.UploadStart? ==>
      match (RunAt(s.fs, step.id), PutAt(after, step.put))
      case (Some(r), Some(p)) =>
        && r.terms.executionMode == "manual" && r.status == Preparing && r.submission == None
        && Promises(r.terms.manifest, p.promise) && 0 < p.promise.limit <= 1048576
      case _ => false
    ensures step.PutData? ==>
      match PutAt(s, step.put)
      case Some(p) =>
        && step.data != [] && (0 < p.promise.limit ==> |step.data| <= p.promise.limit)
        && (0 < p.promise.size ==> |step.data| == p.promise.size)
        && (p.promise.sha256 != "" ==> env.hash(step.data) == p.promise.sha256)
      case None => false
  {
    hide Stepped, StartSubmit, CommitRun, Minted, Normalize, IsReserved, Bound;
  }

  predicate Promises(manifest: Option<Manifest>, p: Promise) {
    match manifest
    case Some(m) => p.sha256 == m.sha256 && p.size == m.sizeBytes
    case None => false
  }

  /** Frozen inputs stay frozen: whenever the service is up, every manual run that was submitted, in particular
      one that is queued or being validated, passes the check; no interleaving, failure or restart makes Start or a
      worker reject it. */
  lemma FrozenInputsPass(env: Env, states: seq<State>, steps: seq<Step>, s: State, id: string, r: Run)
    requires Trace(env, states, steps) && s in states && s.up
    requires RunAt(s.fs, id) == Some(r) && r.Manual() && r.status != Preparing && r.status != Cancelled
    ensures CheckFrozen(env, s, r)
  {
    hide Next, PutsOk, OpOk, Answers, Minted, Normalize, Registered;
    Reachable(env, states, steps);
    RunIsGood(env, s.fs, id, r, s.used);
    FrozenNow(env, s, id, r);
  }

  lemma RunIsGood(env: Env, fs: Fs, id: string, r: Run, used: set<string>)
    requires DiskInv(env, fs, used) && RunAt(fs, id) == Some(r)
    ensures HasRun(fs, id, r) && r.id == id && GoodRun(env, r)
  {
    hide StoreInv, Layout, Artifacts, Journals, Reserves, Submissions, AllUsed, GoodRun;
    assert Shape(env, RunName(id), fs.visible[RunName(id)]);
  }

  lemma FrozenNow(env: Env, s: State, id: string, r: Run)
    requires Inv(env, s) && s.up && RunAt(s.fs, id) == Some(r) && HasRun(s.fs, id, r) && r.id == id && GoodRun(env, r)
    requires r.Manual() && r.submission.Some?
    ensures CheckFrozen(env, s, r)
  {
    hide StoreInv, Shapes, Layout, Artifacts, Reserves, AllUsed, PutsOk, OpOk, Answers, NamespaceOk, Minted, KeptRun;
    var j := JournalAt(s.fs, id).value;
    SafeIsHeld(s.fs, id, j);
    assert JournalBacked(env, s.fs, id, j);
    SafeMeta(s.fs, id, j.artifact);
  }

  lemma SafeMeta(fs: Fs, run: string, a: ArtifactRef)
    requires Safe(fs, MetaName(run, a.id), MetaFile(a))
    ensures MetaAt(fs, run, a.id) == Some(a)
  {
    assert Candidate(fs, MetaName(run, a.id), Lookup(fs, MetaName(run, a.id)));
  }
}
