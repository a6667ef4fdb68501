/** The rules of a manual input: its journal, its evidence record, and what a frozen input is checked against. */
module InputRules {
  import opened Prelude
  import opened Utf8
  import opened Domain
  import opened Strings
  import opened Evidence
  import Creation

  const JOURNAL_VERSION := "sas.input-journal/v1"

  datatype SubmitKey = SubmitKey(runId: string, artifactId: string, schema: string, sha256: string, sizeBytes: int,
                                 mediaType: string)

  /** The library functions the submission calls: SHA-256 in hex, the strict input validator, and the digest
      over the encoded submission; and the configured size limit. */
  datatype Env = Env(lib: Creation.Library, hash: Bytes -> string, validInput: Bytes -> bool,
                     seal: SubmitKey -> string, limit: int)

  ghost predicate Sound(env: Env) {
    forall b :: Digest(env.hash(b))
  }

  // ---- Minted ids ----

  predicate Decimal(s: string) { forall i :: 0 <= i < |s| ==> '0' <= s[i] <= '9' }

  /** prefix, milliseconds since 1970 in an int64, eight random bytes in hex. */
  ghost predicate Minted(prefix: string, id: string) {
    exists millis, entropy :: MintedFrom(prefix, millis, entropy, id)
  }

  predicate MintedFrom(prefix: string, millis: string, entropy: string, id: string) {
    && id == prefix + "_" + millis + "_" + entropy
    && 1 <= |millis| <= 19 && Decimal(millis) && |entropy| == 16 && LowerHex(entropy)
  }

  predicate Word(s: string) { forall i :: 0 <= i < |s| ==> 'a' <= s[i] <= 'z' }

  lemma MintedIsIdentifier(prefix: string, id: string)
    requires Minted(prefix, id) && prefix != "" && Word(prefix)
    ensures ValidIdentifier(id) && prefix + "_" <= id && |id| <= |prefix| + 37
  {
    var millis, entropy :| MintedFrom(prefix, millis, entropy, id);
    forall i | 0 <= i < |id| ensures IdentifierChar(id[i]) {
      if i < |prefix| {
        assert id[i] == prefix[i];
      } else if |prefix| < i <= |prefix| + |millis| {
        assert id[i] == millis[i - |prefix| - 1];
      } else if i > |prefix| + |millis| + 1 {
        assert id[i] == entropy[i - |prefix| - |millis| - 2];
      }
    }
    assert id[0] == prefix[0];
  }

  // ---- Artifacts ----

  function Uri(run: string, artifact: string): string {
    "artifact://runs/" + run + "/" + artifact
  }

  /** What the artifact store writes as metadata. */
  ghost predicate Registered(run: string, id: string, a: ArtifactRef) {
    a.id == id && Minted("art", id) && a.uri == Uri(run, id) && Digest(a.sha256) && a.sizeBytes > 0 && a.createdAt != 0
  }

  predicate Describes(env: Env, a: ArtifactRef, data: Bytes) {
    |data| == a.sizeBytes && env.hash(data) == a.sha256
  }

  /** The artifact is the input the manifest promised. */
  function ValidateArtifact(env: Env, run: Run, a: ArtifactRef, data: Result<Bytes, Error>): Result<(), Error> {
    var limit := Creation.InputLimit(env.limit);
    if run.terms.manifest.None? then Err(Conflict)
    else
      var m := run.terms.manifest.value;
      if a.sizeBytes > limit then Err(InputTooLarge)
      else if a.sha256 != m.sha256 || a.sizeBytes != m.sizeBytes || a.mediaType != m.mediaType then Err(InvalidRequest)
      else if data.Err? then Err(data.error)
      else if |data.value| > limit then Err(InputTooLarge)
      else if |data.value| != m.sizeBytes || env.hash(data.value) != m.sha256 then Err(InvalidRequest)
      else if !env.validInput(data.value) then Err(InvalidRequest)
      else Ok(())
  }

  // ---- The journal ----

  /** The schema its manifest promised; a run that is submitted has one. */
  function SchemaOf(run: Run): string {
    match run.terms.manifest
    case Some(m) => m.schema
    case None => ""
  }

  function SubmissionFor(env: Env, run: Run, a: ArtifactRef, e: EvidenceRef): Submission {
    var schema := SchemaOf(run);
    Submission(run.id, a.id, schema, a.sha256, a.sizeBytes, a.mediaType, e.id, e.collectedAt,
               "sas.manual-submit/v1:" + env.seal(SubmitKey(run.id, a.id, schema, a.sha256, a.sizeBytes, a.mediaType)))
  }

  function FrozenInput(j: Journal): seq<InputRef> {
    [InputRef("alert", j.artifact.uri, j.artifact.sha256, j.artifact.mediaType, j.artifact.sizeBytes,
              map["schema" := INPUT_SCHEMA])]
  }

  function InputEvidence(a: ArtifactRef, id: string, at: int): EvidenceRef {
    EvidenceRef(id, "input", a.uri, a.sha256, "", "sas-input-validator", "1", Some(map["schema" := INPUT_SCHEMA]),
                [a.id], at,
                Some(map["time_semantics" := "server_validation"]))
  }

  function NewJournal(env: Env, run: Run, a: ArtifactRef, id: string, at: int): Journal {
    var e := InputEvidence(a, id, at);
    Journal(JOURNAL_VERSION, run.Tenant(), run.id, a, e, SubmissionFor(env, run, a, e))
  }

  predicate ValidJournal(env: Env, run: Run, j: Journal) {
    run.terms.manifest.Some? &&
    var m, e := run.terms.manifest.value, j.evidence;
    && j.version == JOURNAL_VERSION && j.runId == run.id && j.tenantId == run.Tenant()
    && "input_" <= e.id && e.collectedAt != 0 && e == InputEvidence(j.artifact, e.id, e.collectedAt)
    && j.submission == SubmissionFor(env, run, j.artifact, e)
    && j.artifact.sha256 == m.sha256 && j.artifact.sizeBytes == m.sizeBytes && j.artifact.mediaType == m.mediaType
  }

  /** The one input and the submission of a run, in the fields of the record: they name the submitted artifact of this
      very run, with the digest, size and type that the manifest promised. */
  predicate Frozen(env: Env, run: Run, submission: Submission) {
    && run.submission == Some(submission) && |run.inputs| == 1
    && run.inputs[0].kind == "alert"
    && run.inputs[0].uri == "artifact://runs/" + run.id + "/" + submission.artifactId
    && run.inputs[0].metadata == map["schema" := "sas.synthetic-alert/v1"]
    && submission.runId == run.id && submission.submittedAt != 0
    && Promised(run, submission) && run.inputs[0].sha256 == submission.sha256
    && run.inputs[0].sizeBytes == submission.sizeBytes && run.inputs[0].mediaType == submission.mediaType
    && submission.fingerprint == "sas.manual-submit/v1:" +
         env.seal(SubmitKey(run.id, submission.artifactId, submission.schema, submission.sha256, submission.sizeBytes,
                            submission.mediaType))
  }

  ghost predicate Submitted(env: Env, run: Run, submission: Submission) {
    Frozen(env, run, submission) && Minted("art", submission.artifactId) && Minted("input", submission.evidenceId)
  }

  predicate Promised(run: Run, submission: Submission) {
    match run.terms.manifest
    case Some(m) =>
      && m.schema == submission.schema && m.sha256 == submission.sha256 && m.sizeBytes == submission.sizeBytes
      && m.mediaType == submission.mediaType
    case None => false
  }

  /** The evidence record of a submission. */
  predicate RecordOf(run: Run, submission: Submission, e: EvidenceRef) {
    && e.id == submission.evidenceId && e.collectedAt == submission.submittedAt && e.kind == "input"
    && e.sourceUri == "artifact://runs/" + run.id + "/" + submission.artifactId && e.sha256 == submission.sha256
    && e.artifactIds == [submission.artifactId] && e.excerpt == ""
    && e.tool == "sas-input-validator" && e.toolVersion == "1"
    && e.parameters == Some(map["schema" := "sas.synthetic-alert/v1"])
    && e.metadata == Some(map["time_semantics" := "server_validation"])
  }

  /** The metadata of the submitted artifact. */
  predicate ArtifactOf(run: Run, submission: Submission, a: ArtifactRef) {
    && a.id == submission.artifactId && a.uri == "artifact://runs/" + run.id + "/" + submission.artifactId
    && a.sha256 == submission.sha256 && a.sizeBytes == submission.sizeBytes && a.mediaType == submission.mediaType
  }

  /** What a run with a journal's submission and frozen input says; the URI is that of the artifact's metadata. */
  lemma JournalSays(env: Env, run: Run, j: Journal)
    requires ValidJournal(env, run, j) && j.artifact.uri == Uri(run.id, j.artifact.id)
    requires run.submission == Some(j.submission) && run.inputs == FrozenInput(j)
    ensures Frozen(env, run, j.submission) && RecordOf(run, j.submission, j.evidence)
    ensures ArtifactOf(run, j.submission, j.artifact)
    ensures j.version == "sas.input-journal/v1" && j.tenantId == run.terms.scope.tenantId && j.runId == run.id
  {
  }

  /** An artifact is accepted for a run exactly if its metadata and its bytes are what the manifest promised, the
      bytes are a valid input, and neither is over the limit. */
  lemma AcceptedArtifact(env: Env, run: Run, a: ArtifactRef, data: Result<Bytes, Error>)
    ensures ValidateArtifact(env, run, a, data).Ok? <==> MeetsManifest(env, run, a, data)
    ensures run.terms.manifest.Some? && a.sizeBytes > InputMaximum(env.limit) ==>
      ValidateArtifact(env, run, a, data) == Err(InputTooLarge)
  {
  }

  function InputMaximum(limit: int): int { if 0 < limit < 1048576 then limit else 1048576 }

  predicate MeetsManifest(env: Env, run: Run, a: ArtifactRef, data: Result<Bytes, Error>) {
    match run.terms.manifest
    case None => false
    case Some(m) =>
      && a.sha256 == m.sha256 && a.sizeBytes == m.sizeBytes && a.mediaType == m.mediaType
      && data.Ok? && |data.value| == m.sizeBytes && env.hash(data.value) == m.sha256 && env.validInput(data.value)
      && m.sizeBytes <= InputMaximum(env.limit)
  }

  /** A journal the service writes passes its own check. */
  lemma NewJournalIsValid(env: Env, run: Run, a: ArtifactRef, data: Bytes, id: string, at: int)
    requires ValidateArtifact(env, run, a, Ok(data)).Ok? && Minted("input", id) && at != 0
    ensures ValidJournal(env, run, NewJournal(env, run, a, id, at))
  {
    MintedIsIdentifier("input", id);
  }

  /** Journals depend on the run only through its id and its terms. */
  lemma JournalNeedsTerms(env: Env, a: Run, b: Run, j: Journal)
    requires a.id == b.id && a.terms == b.terms
    ensures ValidJournal(env, a, j) <==> ValidJournal(env, b, j)
  {
  }

  lemma UriShape(run: string, artifact: string)
    requires Minted("run", run) && Minted("art", artifact)
    ensures Trimmed(Uri(run, artifact)) && 0 < ByteLen(Uri(run, artifact)) <= 128 && "artifact://" <= Uri(run, artifact)
  {
    MintedIsIdentifier("run", run);
    MintedIsIdentifier("art", artifact);
    var u, head := Uri(run, artifact), "artifact://runs/";
    assert u == head + run + "/" + artifact;
    forall i | 0 <= i < |u| ensures u[i] < '\U{80}' {
      assert u[i] == if i < |head| then head[i] else if i < |head| + |run| then run[i - |head|]
                     else if i == |head| + |run| then '/' else artifact[i - |head| - |run| - 1];
      assert forall k :: 0 <= k < |run| ==> IdentifierChar(run[k]);
      assert forall k :: 0 <= k < |artifact| ==> IdentifierChar(artifact[k]);
    }
    AsciiLength(u);
    assert u[|u| - 1] == artifact[|artifact| - 1] && IdentifierChar(artifact[|artifact| - 1]);
    assert u[..|"artifact://"|] == "artifact://";
  }

  /** The record the submitter builds is already in normal form and is bound to its artifact: what the
      evidence store keeps and reads back is the record in the journal. */
  lemma SubmitterRecordIsNormal(run: string, a: ArtifactRef, id: string, at: int)
    requires Minted("run", run) && Registered(run, a.id, a) && Minted("input", id) && at != 0
    ensures Normalize(InputEvidence(a, id, at)) == Ok(InputEvidence(a, id, at))
    ensures forall artifact: ArtifactReader :: artifact(a.id) == Ok(a) ==> Bound(InputEvidence(a, id, at), artifact)
  {
    hide TrimSpace, Registered, Text, Bound;
    var e := InputEvidence(a, id, at);
    MintedIsIdentifier("input", id);
    IdentifierShape(id);
    ArtifactPartsFixed(run, a);
    ConstantsFixed();
    assert TrimIds(e.artifactIds) == e.artifactIds;
    assert Trim(e) == e;
    hide Normalize;
    forall artifact: ArtifactReader | artifact(a.id) == Ok(a) ensures Bound(e, artifact) {
      BoundToOne(e, a, artifact);
    }
  }

  lemma BoundToOne(e: EvidenceRef, a: ArtifactRef, artifact: ArtifactReader)
    requires artifact(a.id) == Ok(a) && e.artifactIds == [a.id] && e.sha256 == a.sha256 && e.sourceUri == a.uri
    ensures Bound(e, artifact)
  {
    assert Binds(e, artifact(e.artifactIds[0]).value);
  }

  lemma ArtifactPartsFixed(run: string, a: ArtifactRef)
    requires Minted("run", run) && Registered(run, a.id, a)
    ensures TrimSpace(a.uri) == a.uri && Named(a.uri, MAX_SOURCE_BYTES)
    ensures ToLower(TrimSpace(a.sha256)) == a.sha256 && Hex64(a.sha256)
    ensures TrimSpace(a.id) == a.id && IdsAccepted([a.id])
  {
    hide TrimSpace, Text;
    UriShape(run, a.id);
    TrimFixed(a.uri);
    MintedIsIdentifier("art", a.id);
    IdentifierShape(a.id);
    TrimFixed(a.sha256);
  }

  lemma PlainText(s: string)
    requires Trimmed(s) && 0 < |s| <= 128 && forall i :: 0 <= i < |s| ==> s[i] < '\U{80}'
    ensures TrimSpace(s) == s && Named(s, 128)
  {
    hide TrimSpace, Text;
    TrimFixed(s);
    AsciiLength(s);
  }

  lemma ConstantsFixed()
    ensures TrimSpace("input") == "input" && TrimSpace("sas-input-validator") == "sas-input-validator"
    ensures TrimSpace("1") == "1"
    ensures Named("input", 128) && Named("sas-input-validator", 128) && Named("1", 128) && ByteLen("") == 0
    ensures MapAccepted(map["schema" := INPUT_SCHEMA]) && MapAccepted(map["time_semantics" := "server_validation"])
  {
    hide TrimSpace, Text, Named, MapAccepted, ByteLen;
    PlainText("input");
    PlainText("sas-input-validator");
    PlainText("1");
    AsciiLength("");
    SmallMap("schema", INPUT_SCHEMA);
    SmallMap("time_semantics", "server_validation");
  }

  lemma SmallMap(k: string, v: string)
    requires k != "" && !IsSpace(k[0]) && |k| <= 128 && |v| <= 128
    requires (forall i :: 0 <= i < |k| ==> k[i] < '\U{80}') && (forall i :: 0 <= i < |v| ==> v[i] < '\U{80}')
    ensures MapAccepted(map[k := v])
  {
    AsciiLength(k);
    AsciiLength(v);
    assert !Blank(k);
  }
}
