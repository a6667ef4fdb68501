/** A submission that nobody disturbs reaches its commit and is answered, whatever uploads, run updates, creations
    and syncs come between its steps. */
module SubmitProgress {
  import opened Prelude
  import opened Domain
  import opened Disk
  import opened RunFiles
  import opened Evidence
  import opened InputRules
  import opened SubmissionSystem
  import opened SubmissionFrames
  import opened SubmissionSteps
  import opened SubmissionTheorems
  import opened SubmissionFootprint
  import opened SubmitService

  /** A step of an upload or of the rest of the service. */
  predicate Beside(step: Step) {
    step.PutStart? || step.PutData? || step.PutStep? || step.PutFail? || step.EnvSync? || step.EnvUpdate? ||
        step.EnvCreate?
  }

  /** A step of the submission itself that goes well. */
  predicate Onward(step: Step) {
    step.SubmitStep? || step.SubmitMint?
  }

  // ---- Steps beside the submission ----

  lemma BesideShape(env: Env, s: State, step: Step, after: State)
    requires Next(env, s, step, after) && Beside(step)
    ensures after.op == s.op && !Changed(s, step).JournalName?
  {
    hide HolderNext, UpdateRun, CreateRun, Created, Loaded, Restart, Minted, Mkdir, Publish, Remove, Sync, Kept, RunAt;
  }

  lemma ReadsStay(env: Env, s: State, step: Step, after: State, id: string, a: ArtifactRef)
    requires Inv(env, s) && Next(env, s, step, after) && Beside(step)
    ensures JournalAt(after.fs, id) == JournalAt(s.fs, id)
    ensures MetaAt(s.fs, id, a.id) == Some(a) ==>
        MetaAt(after.fs, id, a.id) == Some(a) && BytesAt(after.fs, id, a.id) == BytesAt(s.fs, id, a.id)
  {
    hide Inv, Next, Changed;
    StepGently(env, s, step, after);
    BesideShape(env, s, step, after);
    var n := Changed(s, step);
    assert Lookup(after.fs, JournalName(id)) == Lookup(s.fs, JournalName(id));
    if MetaAt(s.fs, id, a.id) == Some(a) {
      MetaKept(s.fs, after.fs, n, id, a.id);
      assert Candidate(s.fs, MetaName(id, a.id), Some(MetaFile(a)));
      assert n != BytesName(id, a.id);
      assert Lookup(after.fs, BytesName(id, a.id)) == Lookup(s.fs, BytesName(id, a.id));
    }
  }

  // ---- The submission's own steps ----

  /** On the way to a commit of `artifact`. */
  ghost predicate OnWay(env: Env, s: State, id: string, artifact: string) {
    exists j, evidence, at :: OnTrack(env, s, id, j, evidence, at) && j.artifact.id == artifact
  }

  /** What is minted is not settled before it is minted. */
  lemma AnyMint(env: Env, s: State, run: Run, a: ArtifactRef, id: string, j: Journal, evidence: string, at: int,
                evidence': string, at': int)
    requires s.op == MintEvidence(run, a) && OnTrack(env, s, id, j, evidence, at)
    ensures OnTrack(env, s, id, NewJournal(env, run, a, evidence', at'), evidence', at') && a == j.artifact
  {
    hide ValidateArtifact, SubmissionFor, InputEvidence;
  }

  lemma OwnStep(env: Env, s: State, after: State)
    requires Next(env, s, SubmitStep, after)
    ensures s.up && Steps(s.op) && after == Stepped(env, s)
  {
    hide Stepped, PutNext, WorldNext;
  }

  lemma OwnMint(env: Env, s: State, evidence: string, at: int, after: State) returns (run: Run, a: ArtifactRef)
    requires Next(env, s, SubmitMint(evidence, at), after)
    ensures s.up && s.op == MintEvidence(run, a) && evidence !in s.used && after == Mint(env, s, run, a, evidence, at)
  {
    hide Stepped, PutNext, WorldNext, Minted, NewJournal, HasRecord;
    run, a := s.op.run, s.op.a;
  }

  lemma OwnTrack(env: Env, s: State, step: Step, after: State, id: string, artifact: string)
    requires Inv(env, s) && Next(env, s, step, after) && Onward(step) && OnWay(env, s, id, artifact)
    ensures OnWay(env, after, id, artifact) && StepsLeft(after.op) < StepsLeft(s.op)
  {
    hide Inv, Next, OnTrack, Stepped, Mint, NewJournal, StepsLeft;
    var j, evidence, at :| OnTrack(env, s, id, j, evidence, at) && j.artifact.id == artifact;
    if step.SubmitStep? {
      OwnStep(env, s, after);
      StepTrack(env, s, id, j, evidence, at);
      StepsFewer(env, s);
    } else {
      var run, a := OwnMint(env, s, step.evidence, step.at, after);
      AnyMint(env, s, run, a, id, j, evidence, at, step.evidence, step.at);
      var k := NewJournal(env, run, a, step.evidence, step.at);
      NewJournalIsFor(env, run, a, step.evidence, step.at);
      MintStays(env, s, run, a, id, k, step.evidence, step.at);
      MintFewer(env, s, run, a, step.evidence, step.at);
      assert OnTrack(env, after, id, k, step.evidence, step.at);
    }
  }

  lemma NewJournalIsFor(env: Env, run: Run, a: ArtifactRef, evidence: string, at: int)
    ensures NewJournal(env, run, a, evidence, at).artifact == a
  {
  }

  lemma BesideWay(env: Env, s: State, step: Step, after: State, id: string, artifact: string)
    requires Inv(env, s) && Next(env, s, step, after) && Beside(step) && OnWay(env, s, id, artifact)
    requires Open(after.fs, id)
    ensures OnWay(env, after, id, artifact) && after.op == s.op
  {
    hide Inv, Next, Changed, ValidateArtifact, NewJournal, Open, JournalAt, MetaAt, BytesAt;
    var j, evidence, at :| OnTrack(env, s, id, j, evidence, at) && j.artifact.id == artifact;
    BesideShape(env, s, step, after);
    ReadsStay(env, s, step, after, id, j.artifact);
    assert OnTrack(env, after, id, j, evidence, at);
  }

  // ---- The theorem ----

  /** The submission can succeed: the run waits for its input, and either its journal names this artifact, or
      there is none and the artifact is valid. */
  predicate Ready(env: Env, fs: Fs, id: string, artifact: string) {
    && Open(fs, id) && ArtifactIdOk(artifact)
    && match RunAt(fs, id)
       case None => false
       case Some(run) => run.Manual() && run.terms.manifest.Some? && HasInput(env, fs, run, id, artifact)
  }

  predicate HasInput(env: Env, fs: Fs, run: Run, id: string, artifact: string) {
    match JournalAt(fs, id)
    case Some(j) => j.artifact.id == artifact
    case None =>
      match MetaAt(fs, id, artifact)
      case Some(a) => ValidateArtifact(env, run, a, BytesAt(fs, id, artifact)).Ok?
      case None => false
  }

  /** A step of an undisturbed submission up to the commit: nothing fails, the process lives, and nobody ends the
      run. */
  predicate Undisturbed(step: Step, after: State, id: string) {
    (Beside(step) || Onward(step)) && Open(after.fs, id)
  }

  /** How many of these steps are the submission's own. */
  function OwnSteps(steps: seq<Step>): nat {
    if steps == [] then 0 else OwnSteps(steps[..|steps| - 1]) + (if Onward(steps[|steps| - 1]) then 1 else 0)
  }

  /** The submission begins in `states[i]`, can succeed, and is not disturbed up to the last state. */
  ghost predicate Submitting(env: Env, states: seq<State>, steps: seq<Step>, i: nat, id: string, artifact: string) {
    && Trace(env, states, steps) && i < |steps|
    && (exists tenant :: steps[i] == SubmitStart(tenant, id, artifact)) && Ready(env, states[i].fs, id, artifact)
    && forall m :: i < m < |steps| ==> Undisturbed(steps[m], states[m + 1], id)
  }

  /** The journal of before, if there was one. */
  predicate Continues(fs: Fs, id: string, j: Journal) {
    JournalAt(fs, id).None? || JournalAt(fs, id) == Some(j)
  }

  lemma ReadyStarts(env: Env, s: State, tenant: string, id: string, artifact: string, after: State)
    requires Inv(env, s) && Ready(env, s.fs, id, artifact) && Next(env, s, SubmitStart(tenant, id, artifact), after)
    ensures OnWay(env, after, id, artifact) && StepsLeft(after.op) == 14
  {
    hide DiskInv, PutsOk, OpOk, Records, Answers, OnTrack, ValidateArtifact, ArtifactIdOk, MetaAt, BytesAt, StartSubmit;
    var run := RunAt(s.fs, id).value;
    var j: Journal;
    if JournalAt(s.fs, id).Some? {
      j := JournalAt(s.fs, id).value;
    } else {
      MetaHasId(env, s, id, run, artifact, MetaAt(s.fs, id, artifact).value);
      j := NewJournal(env, run, MetaAt(s.fs, id, artifact).value, "", 0);
    }
    StartTrack(env, s, id, run, j, "", 0);
    assert OnTrack(env, after, id, j, "", 0) && j.artifact.id == artifact;
  }

  lemma MetaHasId(env: Env, s: State, id: string, run: Run, artifact: string, a: ArtifactRef)
    requires Inv(env, s) && RunAt(s.fs, id) == Some(run) && MetaAt(s.fs, id, artifact) == Some(a)
    ensures a.id == artifact && run.id == id
  {
    hide DiskInv, PutsOk, OpOk, Records, Answers, Minted, StoredBytes;
    MetaIsRegistered(env, s.fs, id, artifact, a, s.used);
    RunHasId(env, s, id, run);
  }

  /** A journal that is there stays as it is while the process lives. */
  lemma JournalStays(env: Env, s: State, step: Step, after: State, id: string, j: Journal)
    requires Inv(env, s) && Next(env, s, step, after) && !step.Crash? && JournalAt(s.fs, id) == Some(j)
    ensures JournalAt(after.fs, id) == Some(j)
  {
    hide Inv, Next, Changed;
    StepGently(env, s, step, after);
    assert Lookup(after.fs, JournalName(id)) == Lookup(s.fs, JournalName(id));
  }

  lemma {:induction false} StaysOnWay(env: Env, states: seq<State>, steps: seq<Step>, i: nat, first: State,
                                      last: State, id: string, artifact: string)
    requires Submitting(env, states, steps, i, id, artifact) && first == states[i] && last == states[|steps|]
    ensures OnWay(env, last, id, artifact) && StepsLeft(last.op) + OwnSteps(steps[i + 1..]) <= 14
    ensures forall j :: JournalAt(first.fs, id) == Some(j) ==> JournalAt(last.fs, id) == Some(j)
    decreases |steps|
  {
    hide Inv, Next, Sound, OnWay, Ready, Open, Onward, Beside, StepsLeft, JournalAt;
    var n := |steps| - 1;
    var s, step := states[n], steps[n];
    Reachable(env, states, steps);
    assert s in states;
    Shorter(env, states, steps);
    if n == i {
      ReadyStarts(env, s, step.tenant, id, artifact, last);
    } else {
      Earlier(env, states, steps, i, id, artifact);
      StaysOnWay(env, states[..n + 1], steps[..n], i, first, s, id, artifact);
      assert Undisturbed(step, states[n + 1], id);
      assert steps[i + 1..][..n - i - 1] == steps[..n][i + 1..];
      if Onward(step) {
        OwnTrack(env, s, step, last, id, artifact);
      } else {
        BesideWay(env, s, step, last, id, artifact);
      }
    }
    NotACrash(step);
    forall j | JournalAt(first.fs, id) == Some(j) ensures JournalAt(last.fs, id) == Some(j) {
      JournalStays(env, s, step, last, id, j);
    }
  }

  lemma Earlier(env: Env, states: seq<State>, steps: seq<Step>, i: nat, id: string, artifact: string)
    requires Submitting(env, states, steps, i, id, artifact) && i < |steps| - 1
    ensures Submitting(env, states[..|steps|], steps[..|steps| - 1], i, id, artifact)
  {
    hide Next, Sound, Ready, Undisturbed;
    Shorter(env, states, steps);
    var n := |steps| - 1;
    forall m | i < m < n ensures Undisturbed(steps[..n][m], states[..n + 1][m + 1], id) {
      assert Undisturbed(steps[m], states[m + 1], id);
    }
  }

  lemma NotACrash(step: Step)
    ensures step.SubmitStart? || Onward(step) || Beside(step) ==> !step.Crash?
  {
  }

  /** The submission waits for its next step, not given up: `own` steps of its own were taken, at most fourteen,
      the thirteenth leads to the commit. */
  predicate UnderWay(op: Op, own: nat) {
    (Steps(op) || op.MintEvidence? || op.Commit?) && own + StepsLeft(op) <= 14 && (own >= 13 ==> op.Commit?)
  }

  lemma OnWayIsBusy(env: Env, s: State, id: string, artifact: string, own: nat)
    requires OnWay(env, s, id, artifact) && own + StepsLeft(s.op) <= 14
    ensures UnderWay(s.op, own)
  {
  }

  /** What was answered: the run's acknowledgement carries the submission of the run's journal. */
  ghost predicate Answered(s: State, id: string, artifact: string, j: Journal) {
    Ack(id, artifact, j.submission) in s.acks && JournalAt(s.fs, id) == Some(j)
  }

  lemma CommitAnswers(env: Env, s: State, now: int, after: State, id: string, artifact: string) returns (j: Journal)
    requires Inv(env, s) && Next(env, s, SubmitCommit(now, NoFault), after) && OnWay(env, s, id, artifact)
    ensures Answered(after, id, artifact, j) && JournalAt(s.fs, id) == Some(j)
  {
    hide DiskInv, PutsOk, Records, Answers, KeptCopy, OnTrack, UpdateRun, JournalSafe, JournalAt, PutNext,
         WorldNext, Stepped, StartSubmit, Normalize, MayAppend, IsReserved, RunAt, Minted;
    var k, evidence, at :| OnTrack(env, s, id, k, evidence, at) && k.artifact.id == artifact;
    j := s.op.j;
    CommitTrack(env, s, s.op.run, j, id, k, evidence, at, now);
    SafeIsHeld(s.fs, id, j);
    JournalStays(env, s, SubmitCommit(now, NoFault), after, id, j);
  }

  /** A submission that can succeed and is not disturbed never gives up: after at most fourteen steps of its own
      it stands at its commit, and the commit, if its write works, is answered with the submission of the run's
      journal, which is the journal of before if there was one; uploads, updates of runs, creations and syncs may come
      between all of these steps. */
  lemma UndisturbedSubmits(env: Env, states: seq<State>, steps: seq<Step>, i: nat, first: State, last: State,
                           id: string, artifact: string)
    requires Submitting(env, states, steps, i, id, artifact) && first == states[i] && last == states[|steps|]
    ensures UnderWay(last.op, OwnSteps(steps[i + 1..]))
    ensures forall now, after :: Next(env, last, SubmitCommit(now, NoFault), after) ==>
              exists j :: Answered(after, id, artifact, j) && Continues(first.fs, id, j)
  {
    hide Inv, Next, Sound, OnWay, Ready, Undisturbed, Onward, JournalAt;
    StaysOnWay(env, states, steps, i, first, last, id, artifact);
    OnWayIsBusy(env, last, id, artifact, OwnSteps(steps[i + 1..]));
    Reachable(env, states, steps);
    assert last in states;
    forall now, after | Next(env, last, SubmitCommit(now, NoFault), after)
      ensures exists j :: Answered(after, id, artifact, j) && Continues(first.fs, id, j)
    {
      var j := CommitAnswers(env, last, now, after, id, artifact);
      assert Answered(after, id, artifact, j) && Continues(first.fs, id, j);
    }
  }
}
