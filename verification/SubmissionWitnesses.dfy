/** Two runs of the submission system after which the service cannot start: an evidence id that was given to a
    second run after the first append failed at its sync, and a record bound to metadata that a power loss takes back.
    */
module SubmissionWitnesses {
  import opened Prelude
  import opened Utf8
  import opened Domain
  import opened Strings
  import opened Runs
  import opened Disk
  import opened RunFiles
  import opened Evidence
  import opened InputRules
  import opened SubmissionSystem
  import opened SubmissionTheorems
  import opened SubmissionReload

  datatype Story = Story(states: seq<State>, steps: seq<Step>)

  function Last(h: Story): State {
    if h.states == [] then INIT else h.states[|h.states| - 1]
  }

  ghost predicate Happens(env: Env, h: Story) {
    Trace(env, h.states, h.steps)
  }

  lemma Then(env: Env, h: Story, step: Step, after: State) returns (longer: Story)
    requires Happens(env, h) && Next(env, Last(h), step, after)
    ensures Happens(env, longer) && Last(longer) == after
  {
    hide Next, Sound;
    longer := Story(h.states + [after], h.steps + [step]);
    forall i | 0 <= i < |longer.steps| ensures Next(env, longer.states[i], longer.steps[i], longer.states[i + 1]) {
      assert i < |h.steps| ==> Next(env, h.states[i], h.steps[i], h.states[i + 1]);
    }
  }

  /** The service is up and idle, no journal was written, and memory holds no evidence. */
  ghost predicate Open(s: State) {
    s.up && s.op.Free? && s.recs == map[] && s.puts == map[] && forall id :: JournalName(id) !in s.fs.visible
  }

  /** What a step may not touch here: run files, and the metadata that is not yet durable. */
  ghost predicate Rest(s: State, after: State) {
    && (forall id :: RunAt(after.fs, id) == RunAt(s.fs, id))
    && (forall r, a :: MetaAt(after.fs, r, a) == MetaAt(s.fs, r, a))
    && (forall p :: p in s.fs.past && p.0.MetaName? ==> p in after.fs.past)
  }

  lemma Starts(env: Env) returns (h: Story)
    requires Sound(env)
    ensures Happens(env, h) && Open(Last(h)) && Last(h).fs == EMPTY && Last(h).used == {}
  {
    hide Sound;
    h := Story([INIT], []);
    assert SyncEvidence(EMPTY).past == {};
    var up := INIT.(up := true);
    assert Loaded(EMPTY, map[]);
    hide Loaded;
    assert WorldNext(env, INIT, Boot, up);
    h := Then(env, h, Boot, up);
  }

  // ---- A run ----

  const TENANT := "tenant"
  const ENTROPY := "0000000000000000"
  const SLOT: nat := 0

  function RunId(n: char): string { "run_" + [n] + "_" + ENTROPY }

  function NewQueued(n: char): Run {
    NewRun(RunId(n), Terms("request" + [n], "agent", "automatic", None, "", "", "mode",
                           Scope(TENANT, "", [], [], [], None), Output("", []), map[], 1),
           [], Policy("", false, "", 0, ""), Queued)
  }

  lemma MintedLiteral(prefix: string, n: char)
    requires '0' <= n <= '9'
    ensures Minted(prefix, prefix + "_" + [n] + "_" + ENTROPY)
  {
    assert MintedFrom(prefix, [n], ENTROPY, prefix + "_" + [n] + "_" + ENTROPY);
  }

  lemma CreatedRun(env: Env, n: char)
    requires '0' <= n <= '9'
    ensures Created(env, NewQueued(n)) && NamespaceOk(TENANT, RunId(n))
  {
    hide TrimSpace, Text, ByteLen, History;
    MintedLiteral("run", n);
    assert RunId(n) == "run" + "_" + [n] + "_" + ENTROPY;
    MintedIsIdentifier("run", RunId(n));
    PlainText(TENANT);
    NewRunHistory(RunId(n), NewQueued(n).terms, [], Policy("", false, "", 0, ""), Queued);
  }

  lemma CreatesRun(env: Env, h: Story, n: char) returns (longer: Story)
    requires '0' <= n <= '9' && Happens(env, h) && Open(Last(h)) && RunId(n) !in Last(h).used
    requires RunAt(Last(h).fs, RunId(n)).None? && !KeyUsed(Last(h).fs, KeyOf(NewQueued(n)))
    ensures Happens(env, longer) && Open(Last(longer)) && RunAt(Last(longer).fs, RunId(n)) == Some(NewQueued(n))
    ensures forall id :: id != RunId(n) ==> RunAt(Last(longer).fs, id) == RunAt(Last(h).fs, id)
    ensures Last(longer).used == Last(h).used + {RunId(n)}
    ensures forall m: Name :: !m.RunName? ==> Lookup(Last(longer).fs, m) == Lookup(Last(h).fs, m)
  {
    hide Happens, Created, HolderNext, PutNext, KeyUsed, History, NewQueued, RunId;
    CreatedRun(env, n);
    IdOf(n);
    var s, run := Last(h), NewQueued(n);
    var after := s.(fs := PutRun(s.fs, run.id, run, NoFault), used := s.used + {run.id});
    assert WorldNext(env, s, EnvCreate(run, NoFault), after);
    longer := Then(env, h, EnvCreate(run, NoFault), after);
    assert forall m: Name :: !m.RunName? ==> Lookup(after.fs, m) == Lookup(s.fs, m);
    assert forall id :: JournalName(id) !in after.fs.visible;
  }

  lemma IdOf(n: char)
    ensures NewQueued(n).id == RunId(n)
  {
  }

  // ---- A record ----

  /** A client's append up to the sync of its directory, which is still to come. */
  ghost predicate Linked(s: State, after: State, id: string, e: EvidenceRef) {
    && after.up && after.op == Append(SyncFolder, TENANT, id, e, ToCaller) && after.recs == s.recs
    && after.puts == s.puts
    && Rest(s, after) && (forall r :: JournalName(r) !in after.fs.visible)
    && Lookup(after.fs, EvidenceName(id, e.id)) == Some(EvidenceFile(e))
    && (forall r, x :: EvidenceName(r, x) != EvidenceName(id, e.id) ==>
        Lookup(after.fs, EvidenceName(r, x)) == Lookup(s.fs, EvidenceName(r, x)))
  }

  ghost predicate Appendable(s: State, id: string, e: EvidenceRef) {
    && Open(s) && Normalize(e) == Ok(e) && MayAppend(s, TENANT, id, e) && EvidenceName(id, e.id) !in s.fs.visible
  }

  lemma NothingReserved(s: State, x: string)
    requires Open(s)
    ensures !IsReserved(s.fs, x)
  {
  }

  /** The three steps of the append after it was admitted. */
  function Begun(s: State, id: string, e: EvidenceRef): State {
    s.(fs := Sync(Sync(s.fs, RunsDir), JournalsDir), used := s.used + {e.id},
       op := Append(MakeFolder, TENANT, id, e, ToCaller))
  }

  function Foldered(s: State, id: string, e: EvidenceRef): State {
    var a := Begun(s, id, e);
    a.(fs := Mkdir(a.fs, EvidenceFolder(id)), op := Append(SyncParent, TENANT, id, e, ToCaller))
  }

  function RootSynced(s: State, id: string, e: EvidenceRef): State {
    var f := Foldered(s, id, e);
    f.(fs := Sync(f.fs, EvidenceRoot), op := Append(Link, TENANT, id, e, ToCaller))
  }

  function Shown(s: State, id: string, e: EvidenceRef): State {
    var r := RootSynced(s, id, e);
    r.(fs := Publish(r.fs, EvidenceName(id, e.id), EvidenceFile(e)), op := Append(SyncFolder, TENANT, id, e, ToCaller))
  }

  lemma AppendSteps(env: Env, s: State, id: string, e: EvidenceRef)
    requires Appendable(s, id, e)
    ensures Next(env, s, AppendStart(TENANT, id, e), Begun(s, id, e))
    ensures Next(env, Begun(s, id, e), SubmitStep, Foldered(s, id, e))
    ensures Next(env, Foldered(s, id, e), SubmitStep, RootSynced(s, id, e))
  {
    hide Normalize, MayAppend, IsReserved, PutNext, WorldNext, Mkdir, Sync;
    NothingReserved(s, e.id);
  }

  lemma LinkStep(env: Env, s: State, id: string, e: EvidenceRef)
    requires Appendable(s, id, e)
    ensures Next(env, RootSynced(s, id, e), SubmitStep, Shown(s, id, e))
  {
    hide Normalize, MayAppend, PutNext, WorldNext;
    assert EvidenceName(id, e.id) !in RootSynced(s, id, e).fs.visible;
  }

  lemma ShownIsLinked(s: State, id: string, e: EvidenceRef)
    requires Appendable(s, id, e)
    ensures Linked(s, Shown(s, id, e), id, e)
  {
    hide Normalize, MayAppend;
  }

  lemma LinksRecord(env: Env, h: Story, id: string, e: EvidenceRef) returns (longer: Story)
    requires Happens(env, h) && Appendable(Last(h), id, e)
    ensures Happens(env, longer) && Linked(Last(h), Last(longer), id, e)
  {
    hide Happens, Next, Appendable, Begun, Foldered, RootSynced, Shown, Linked;
    var s := Last(h);
    AppendSteps(env, s, id, e);
    LinkStep(env, s, id, e);
    ShownIsLinked(s, id, e);
    longer := Then(env, h, AppendStart(TENANT, id, e), Begun(s, id, e));
    longer := Then(env, longer, SubmitStep, Foldered(s, id, e));
    longer := Then(env, longer, SubmitStep, RootSynced(s, id, e));
    longer := Then(env, longer, SubmitStep, Shown(s, id, e));
  }

  /** A record as the service itself builds them, here sent by a client. */
  function Artifact(env: Env, n: char): ArtifactRef {
    ArtifactRef("art_1_" + ENTROPY, "name", Uri(RunId(n), "art_1_" + ENTROPY), "text/plain", env.hash([1]), 1, 1)
  }

  function Bare(env: Env): EvidenceRef {
    InputEvidence(Artifact(env, '0'), "input_1_" + ENTROPY, 1).(artifactIds := [])
  }

  function WithArtifact(env: Env): EvidenceRef {
    InputEvidence(Artifact(env, '0'), "input_1_" + ENTROPY, 1)
  }

  lemma RecordsAreNormal(env: Env)
    requires Sound(env)
    ensures Normalize(WithArtifact(env)) == Ok(WithArtifact(env)) && Normalize(Bare(env)) == Ok(Bare(env))
    ensures forall artifact: ArtifactReader :: artifact("art_1_" + ENTROPY) == Ok(Artifact(env, '0')) ==>
        Bound(WithArtifact(env), artifact)
  {
    hide TrimSpace, ToLower, ByteLen, MapAccepted, Bound;
    MintedLiteral("run", '0');
    MintedLiteral("art", '1');
    MintedLiteral("input", '1');
    assert RunId('0') == "run" + "_" + ['0'] + "_" + ENTROPY;
    assert "art_1_" + ENTROPY == "art" + "_" + ['1'] + "_" + ENTROPY;
    assert "input_1_" + ENTROPY == "input" + "_" + ['1'] + "_" + ENTROPY;
    SubmitterRecordIsNormal(RunId('0'), Artifact(env, '0'), "input_1_" + ENTROPY, 1);
    assert TrimIds([]) == [];
  }

  // ---- An id under two runs ----

  /** No restart that keeps the disk as it is can be followed by a start. */
  ghost predicate Stuck(env: Env, s: State) {
    !s.up && forall after :: !Next(env, s, Boot, after)
  }

  lemma StuckWithout(env: Env, s: State)
    requires !s.up && !CanLoad(s.fs)
    ensures Stuck(env, s)
  {
    hide Loaded, HolderNext, PutNext;
  }

  lemma Stops(env: Env, h: Story, fs: Fs) returns (longer: Story)
    requires Happens(env, h) && Restart(Last(h).fs, fs) && !CanLoad(fs)
    ensures Happens(env, longer) && Stuck(env, Last(longer))
  {
    hide Happens, HolderNext, PutNext, CanLoad, Restart, Stuck;
    var s := Last(h);
    var down := State(fs, false, map[], Free, map[], s.used, s.acks, s.registered);
    assert WorldNext(env, s, Crash, down);
    longer := Then(env, h, Crash, down);
    StuckWithout(env, down);
  }

  /** The client gives up the append whose sync failed. */
  lemma GivesUp(env: Env, h: Story, before: State, id: string, e: EvidenceRef) returns (longer: Story)
    requires Happens(env, h) && Open(before) && Linked(before, Last(h), id, e)
    ensures Happens(env, longer) && Open(Last(longer)) && Last(longer).fs == Last(h).fs
  {
    hide Happens, PutNext, WorldNext;
    longer := Then(env, h, Abort, Last(h).(op := Free));
  }

  lemma TwoRuns(env: Env) returns (h: Story)
    requires Sound(env)
    ensures Happens(env, h) && Open(Last(h))
    ensures RunAt(Last(h).fs, RunId('0')) == Some(NewQueued('0'))
    ensures RunAt(Last(h).fs, RunId('1')) == Some(NewQueued('1'))
    ensures forall r, x :: EvidenceName(r, x) !in Last(h).fs.visible
  {
    hide Happens, Sound;
    h := Starts(env);
    NewIds();
    hide NewQueued, Open, RunId;
    assert !KeyUsed(Last(h).fs, KeyOf(NewQueued('0')));
    h := CreatesRun(env, h, '0');
    assert Last(h).used == {RunId('0')};
    assert !KeyUsed(Last(h).fs, KeyOf(NewQueued('1'))) by {
      forall id | RunAt(Last(h).fs, id).Some? ensures KeyOf(RunAt(Last(h).fs, id).value) != KeyOf(NewQueued('1')) {
        assert id != RunId('0') ==> RunAt(EMPTY, id).None?;
      }
    }
    h := CreatesRun(env, h, '1');
    assert forall r, x :: Lookup(Last(h).fs, EvidenceName(r, x)) == None;
  }

  lemma NewIds()
    ensures RunId('0') != RunId('1') && KeyOf(NewQueued('0')) != KeyOf(NewQueued('1'))
    ensures NewQueued('0').Tenant() == NewQueued('1').Tenant() == TENANT
  {
    assert RunId('0')[4] == '0' && RunId('1')[4] == '1';
    var a, b := KeyOf(NewQueued('0')), KeyOf(NewQueued('1'));
    assert a[|a| - 1] == '0' && b[|b| - 1] == '1';
  }

  lemma BareIsAppendable(env: Env, s: State, n: char)
    requires '0' <= n <= '9' && Sound(env) && Open(s) && RunAt(s.fs, RunId(n)) == Some(NewQueued(n))
    requires EvidenceName(RunId(n), Bare(env).id) !in s.fs.visible
    ensures Appendable(s, RunId(n), Bare(env))
  {
    hide Normalize, NamespaceOk;
    RecordsAreNormal(env);
    CreatedRun(env, n);
  }

  /** The first append of a record is published, its sync fails; the client sends the record again for another
      run, where it is published too. From then on the store refuses to load, whether the machine stops or only the
      process. */
  lemma IdUnderTwoRuns(env: Env) returns (h: Story)
    requires Sound(env)
    ensures Happens(env, h) && Stuck(env, Last(h))
  {
    hide Happens, Sound, Linked, Appendable, Bare, RunId, NewQueued, Stuck, CanLoad;
    h := TwoRuns(env);
    NewIds();
    var e := Bare(env);
    var first := Last(h);
    BareIsAppendable(env, first, '0');
    h := LinksRecord(env, h, RunId('0'), e);
    var linked := Last(h);
    LinkedShows(first, linked, RunId('0'), e);
    h := GivesUp(env, h, first, RunId('0'), e);
    var second := Last(h);
    BareIsAppendable(env, second, '1');
    h := LinksRecord(env, h, RunId('1'), e);
    LinkedShows(second, Last(h), RunId('1'), e);
    TwiceNeverLoads(Last(h).fs, RunId('0'), RunId('1'), e.id);
    h := Stops(env, h, Last(h).fs);
  }

  lemma LinkedShows(s: State, after: State, id: string, e: EvidenceRef)
    requires Linked(s, after, id, e)
    ensures EvidenceName(id, e.id) in after.fs.visible
    ensures forall r, x :: EvidenceName(r, x) != EvidenceName(id, e.id) ==>
        (EvidenceName(r, x) in after.fs.visible <==> EvidenceName(r, x) in s.fs.visible)
    ensures forall r :: RunAt(after.fs, r) == RunAt(s.fs, r)
  {
    forall r, x | EvidenceName(r, x) != EvidenceName(id, e.id)
      ensures EvidenceName(r, x) in after.fs.visible <==> EvidenceName(r, x) in s.fs.visible {
      assert Lookup(after.fs, EvidenceName(r, x)) == Lookup(s.fs, EvidenceName(r, x));
    }
  }

  lemma TwiceNeverLoads(fs: Fs, r: string, q: string, x: string)
    requires EvidenceName(r, x) in fs.visible && EvidenceName(q, x) in fs.visible && r != q
    ensures !CanLoad(fs)
  {
    hide Normalize, Bound;
  }

  // ---- Metadata that a power loss takes back ----

  const ART := "art_1_" + ENTROPY

  function Upload(env: Env, stage: PutStage): Put {
    Put(stage, RunId('0'), ART, Promise("", 0, 0),
        if stage == PutFolder || stage == PutCreate || stage == PutWrite then None else Some(Artifact(env, '0')))
  }

  /** The only upload is at this stage; its metadata is published in the last one. */
  ghost predicate AtStage(env: Env, before: State, s: State, stage: PutStage) {
    && s.up && s.op.Free? && s.recs == map[] && s.puts == map[SLOT := Upload(env, stage)]
    && (forall id :: JournalName(id) !in s.fs.visible) && (forall r, x :: EvidenceName(r, x) !in s.fs.visible)
    && (forall id :: RunAt(s.fs, id) == RunAt(before.fs, id))
    && (stage == PutFolder || stage == PutCreate ==> BytesName(RunId('0'), ART) !in s.fs.visible)
    && if stage == PutSyncMeta then
         MetaAt(s.fs, RunId('0'), ART) == Some(Artifact(env, '0')) && (MetaName(RunId('0'), ART), None) in s.fs.past
       else MetaName(RunId('0'), ART) !in s.fs.visible
  }

  function After(stage: PutStage): PutStage {
    match stage
    case PutFolder => PutCreate
    case PutCreate => PutWrite
    case PutSyncRoot => PutSyncRun
    case PutSyncRun => PutMetaFolder
    case PutMetaFolder => PutMeta
    case PutMeta => PutSyncMeta
    case _ => stage
  }

  predicate Goes(stage: PutStage) {
    stage != PutWrite && stage != PutSyncMeta && stage != PutSyncAgain
  }

  lemma UploadStep(env: Env, before: State, s: State, stage: PutStage, p: Put)
    requires AtStage(env, before, s, stage) && Goes(stage) && p == Upload(env, stage)
    ensures PutNext(env, s, PutStep(SLOT), StepPut(s, SLOT, p))
    ensures AtStage(env, before, StepPut(s, SLOT, p), After(stage))
  {
    hide RunId, Artifact;
    assert s.puts[SLOT := Upload(env, After(stage))] == map[SLOT := Upload(env, After(stage))];
  }

  lemma UploadsOn(env: Env, h: Story, before: State, stage: PutStage) returns (longer: Story)
    requires Happens(env, h) && AtStage(env, before, Last(h), stage) && Goes(stage)
    ensures Happens(env, longer) && AtStage(env, before, Last(longer), After(stage))
  {
    hide Happens, AtStage, HolderNext, PutNext, WorldNext, StepPut, Upload, Last;
    UploadStep(env, before, Last(h), stage, Upload(env, stage));
    longer := Then(env, h, PutStep(SLOT), StepPut(Last(h), SLOT, Upload(env, stage)));
  }

  lemma UploadBegins(env: Env, h: Story) returns (longer: Story)
    requires Happens(env, h) && Open(Last(h)) && RunAt(Last(h).fs, RunId('0')).Some? && ART !in Last(h).used
    requires forall m: Name :: m in Last(h).fs.visible ==> m.RunName?
    ensures Happens(env, longer) && AtStage(env, Last(h), Last(longer), PutFolder)
  {
    hide Happens, HolderNext, WorldNext, RunId, RunAt;
    MintedLiteral("art", '1');
    assert ART == "art" + "_" + ['1'] + "_" + ENTROPY;
    var s := Last(h);
    longer := Then(env, h, PutStart(SLOT, RunId('0'), ART, Promise("", 0, 0)),
                   s.(used := s.used + {ART},
                      puts := s.puts[SLOT := Put(PutFolder, RunId('0'), ART, Promise("", 0, 0), None)]));
  }

  lemma UploadWrites(env: Env, h: Story, before: State) returns (longer: Story)
    requires Happens(env, h) && AtStage(env, before, Last(h), PutWrite)
    ensures Happens(env, longer) && AtStage(env, before, Last(longer), PutSyncRoot)
  {
    hide Happens, HolderNext, WorldNext, RunId;
    var s := Last(h);
    var after := WithPut(s, SLOT, Upload(env, PutSyncRoot), Publish(s.fs, BytesName(RunId('0'), ART), BytesFile([1])));
    assert after.puts == map[SLOT := Upload(env, PutSyncRoot)];
    assert PutNext(env, s, PutData(SLOT, [1], "name", "text/plain", 1), after);
    longer := Then(env, h, PutData(SLOT, [1], "name", "text/plain", 1), after);
  }

  /** The sync of the published metadata fails, and the upload with it. */
  lemma UploadFails(env: Env, h: Story, before: State) returns (longer: Story)
    requires Happens(env, h) && AtStage(env, before, Last(h), PutSyncMeta)
    ensures Happens(env, longer) && Open(Last(longer)) && Last(longer).fs == Last(h).fs
  {
    hide Happens, HolderNext, WorldNext;
    var s := Last(h);
    var after := WithoutPut(s, SLOT, s.fs);
    assert after.puts == map[];
    assert PutNext(env, s, PutFail(SLOT, false), after);
    longer := Then(env, h, PutFail(SLOT, false), after);
  }

  /** One run, alone on the disk. */
  lemma OneRun(env: Env) returns (h: Story)
    requires Sound(env)
    ensures Happens(env, h) && Open(Last(h)) && RunAt(Last(h).fs, RunId('0')) == Some(NewQueued('0'))
    ensures ART !in Last(h).used && forall m: Name :: m in Last(h).fs.visible ==> m.RunName?
  {
    hide Happens, Sound, NewQueued, Open;
    h := Starts(env);
    IdsDiffer();
    hide RunId;
    assert !KeyUsed(Last(h).fs, KeyOf(NewQueued('0')));
    h := CreatesRun(env, h, '0');
    assert forall m: Name :: !m.RunName? ==> Lookup(Last(h).fs, m) == None;
  }

  lemma PublishedUnsynced(env: Env) returns (h: Story)
    requires Sound(env)
    ensures Happens(env, h) && Open(Last(h)) && RunAt(Last(h).fs, RunId('0')) == Some(NewQueued('0'))
    ensures MetaAt(Last(h).fs, RunId('0'), ART) == Some(Artifact(env, '0'))
    ensures (MetaName(RunId('0'), ART), None) in Last(h).fs.past
    ensures forall r, x :: EvidenceName(r, x) !in Last(h).fs.visible
  {
    hide Happens, Sound, NewQueued, Artifact, RunId, Open, AtStage, MetaAt, RunAt;
    h := OneRun(env);
    var before := Last(h);
    h := UploadBegins(env, h);
    h := UploadsOn(env, h, before, PutFolder);
    h := UploadsOn(env, h, before, PutCreate);
    h := UploadWrites(env, h, before);
    h := UploadsOn(env, h, before, PutSyncRoot);
    h := UploadsOn(env, h, before, PutSyncRun);
    h := UploadsOn(env, h, before, PutMetaFolder);
    h := UploadsOn(env, h, before, PutMeta);
    StageShows(env, before, Last(h));
    h := UploadFails(env, h, before);
  }

  lemma IdsDiffer()
    ensures ART != RunId('0')
  {
    assert ART[0] == 'a' && RunId('0')[0] == 'r';
  }

  lemma StageShows(env: Env, before: State, s: State)
    requires AtStage(env, before, s, PutSyncMeta)
    ensures MetaAt(s.fs, RunId('0'), ART) == Some(Artifact(env, '0')) && (MetaName(RunId('0'), ART), None) in s.fs.past
    ensures (forall r, x :: EvidenceName(r, x) !in s.fs.visible) && forall id :: RunAt(s.fs, id) == RunAt(before.fs, id)
  {
  }

  lemma BoundIsAppendable(env: Env, s: State)
    requires Sound(env) && Open(s) && RunAt(s.fs, RunId('0')) == Some(NewQueued('0'))
    requires MetaAt(s.fs, RunId('0'), ART) == Some(Artifact(env, '0'))
    requires EvidenceName(RunId('0'), WithArtifact(env).id) !in s.fs.visible
    ensures Appendable(s, RunId('0'), WithArtifact(env))
  {
    hide Normalize, NamespaceOk, Bound, MetaAt;
    RecordsAreNormal(env);
    CreatedRun(env, '0');
    assert ArtifactsOf(s.fs, RunId('0'))(ART) == Ok(Artifact(env, '0'));
  }

  /** The append's last step: its sync succeeds and the client is answered. */
  lemma IsAnswered(env: Env, h: Story, before: State, id: string, e: EvidenceRef) returns (longer: Story)
    requires Happens(env, h) && Linked(before, Last(h), id, e)
    ensures Happens(env, longer) && Last(longer).op.Free? && e.id in Last(longer).recs
    ensures Lookup(Last(longer).fs, EvidenceName(id, e.id)) == Some(EvidenceFile(e))
    ensures forall r, a :: MetaAt(Last(longer).fs, r, a) == MetaAt(before.fs, r, a)
    ensures forall p :: p in before.fs.past && p.0.MetaName? ==> p in Last(longer).fs.past
  {
    hide Happens, PutNext, WorldNext;
    longer := Then(env, h, SubmitStep, Stepped(env, Last(h)));
  }

  /** An upload publishes its metadata and fails at the sync; a client reads the metadata, binds a record to it,
      and its append is answered; a power loss takes the metadata back and keeps the record, and the service never
      starts again. */
  lemma RecordOutlivesMetadata(env: Env) returns (h: Story)
    requires Sound(env)
    ensures Happens(env, h) && Stuck(env, Last(h))
  {
    hide Happens, Linked, Appendable, RunId, NewQueued, Stuck, CanLoad, Sound, WithArtifact, Restart, Inv, MetaSafe;
    h := PublishedUnsynced(env);
    var before, e := Last(h), WithArtifact(env);
    BoundIsAppendable(env, before);
    h := LinksRecord(env, h, RunId('0'), e);
    h := IsAnswered(env, h, before, RunId('0'), e);
    var s := Last(h);
    ReachedInv(env, h);
    NotYetSafe(env, s.fs, before.fs);
    NamesArtifact(env);
    var fs := LosesMetadata(env, s, RunId('0'), e.id, e, ART);
    h := Stops(env, h, fs);
  }

  lemma NamesArtifact(env: Env)
    ensures ART in WithArtifact(env).artifactIds
  {
    assert WithArtifact(env).artifactIds == [ART];
  }

  lemma ReachedInv(env: Env, h: Story)
    requires Happens(env, h)
    ensures Inv(env, Last(h))
  {
    hide Inv, Next, Sound;
    Reachable(env, h.states, h.steps);
    assert Last(h) in h.states;
  }

  lemma NotYetSafe(env: Env, fs: Fs, before: Fs)
    requires (MetaName(RunId('0'), ART), None) in before.past
    requires forall p :: p in before.past && p.0.MetaName? ==> p in fs.past
    ensures !MetaSafe(fs, RunId('0'), ART)
  {
    hide RunId;
    assert Candidate(fs, MetaName(RunId('0'), ART), None);
  }

  lemma LosesMetadata(env: Env, s: State, run: string, x: string, e: EvidenceRef, a: string) returns (after: Fs)
    requires Inv(env, s) && Lookup(s.fs, EvidenceName(run, x)) == Some(EvidenceFile(e)) && a in e.artifactIds
    requires !MetaSafe(s.fs, run, a)
    ensures Restart(s.fs, after) && !CanLoad(after)
  {
    hide StoreInv, Shapes, Layout, Artifacts, Journals, Reserves, Submissions, AllUsed, PutsOk, OpOk, Records,
         Answers, MetaSafe, Restart, CanLoad;
    after := MetadataCanBeLost(env, s.fs, run, x, e, a);
  }
}
