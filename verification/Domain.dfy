/** The records the program stores: runs, events, results, evidence, artifacts,
    submissions. Instants are integers; 0 is Go's zero time. */
module Domain {
  import opened Prelude
  import opened Utf8

  const MAX_SUMMARY_BYTES := 4096
  const MAX_ERROR_MESSAGE_BYTES := 16384
  const INPUT_SCHEMA := "sas.synthetic-alert/v1"
  const MAX_INPUT_BYTES := 1048576

  datatype Error =
    | NotFound | AlreadyExists | Conflict | InvalidRequest | Forbidden | InputTooLarge | InvalidTransition | IoError

  datatype Status =
    | Preparing | Queued | Validating | WaitingApproval | Running
    | Succeeded | Partial | Failed | Cancelled
  {
    predicate Terminal() {
      this == Succeeded || this == Partial || this == Failed || this == Cancelled
    }
  }

  datatype Manifest = Manifest(schema: string, sha256: string, sizeBytes: int, mediaType: string)

  datatype Submission = Submission(
    runId: string, artifactId: string, schema: string, sha256: string, sizeBytes: int,
    mediaType: string, evidenceId: string, submittedAt: int, fingerprint: string)

  datatype InputRef = InputRef(
    kind: string, uri: string, sha256: string, mediaType: string, sizeBytes: int, metadata: map<string, string>)

  datatype TimeRange = TimeRange(start: int, end: int)

  datatype Scope = Scope(
    tenantId: string, authorizationRef: string, assets: seq<string>, networks: seq<string>,
    domains: seq<string>, timeRange: Option<TimeRange>)

  datatype Policy = Policy(
    networkAccess: string, activeValidation: bool, approvalId: string, maxRequests: int, maxDuration: string)

  datatype Output = Output(language: string, formats: seq<string>)

  datatype Approval = Approval(id: string, actor: string, reason: string, createdAt: int)

  datatype EvidenceRef = EvidenceRef(
    id: string, kind: string, sourceUri: string, sha256: string, excerpt: string, tool: string, toolVersion: string,
    parameters: Option<map<string, string>>, artifactIds: seq<string>, collectedAt: int,
    metadata: Option<map<string, string>>)

  datatype ArtifactRef = ArtifactRef(
    id: string, name: string, uri: string, mediaType: string, sha256: string, sizeBytes: int, createdAt: int)

  datatype Finding = Finding(
    id: string, kind: string, title: string, severity: string, status: string, description: string,
    evidenceRefs: seq<string>, assetRefs: seq<string>, attackTechniques: seq<string>)

  datatype RunResult = RunResult(
    executor: string, summary: Bytes, evidence: seq<EvidenceRef>, findings: seq<Finding>,
    artifacts: seq<ArtifactRef>, limitations: seq<string>, rawOutput: Bytes, errorCode: string, errorMessage: Bytes)

  datatype ExecutionResult = ExecutionResult(status: Status, result: RunResult)

  datatype EventKind = RunCreated | PreflightPassed | StatusChanged | RunApproved | CancelRequested

  datatype Event = Event(
    sequence: nat, kind: EventKind, from: Option<Status>, to: Option<Status>, message: string, actor: string, at: int)

  /** What is settled when a run is created and never changes afterwards. */
  datatype Terms = Terms(
    requestId: string, agentId: string, executionMode: string, manifest: Option<Manifest>, creationFingerprint: string,
    caseId: string, mode: string, scope: Scope, output: Output, metadata: map<string, string>, createdAt: int)

  datatype Run = Run(
    id: string, terms: Terms, inputs: seq<InputRef>, submission: Option<Submission>, policy: Policy, status: Status,
    approval: Option<Approval>, result: Option<RunResult>, events: seq<Event>, updatedAt: int,
    startedAt: Option<int>, completedAt: Option<int>, version: nat)
  {
    predicate Manual() { terms.executionMode == "manual" }
    function Tenant(): string { terms.scope.tenantId }
  }

  /** What the submission stage writes down before it publishes anything. */
  datatype Journal = Journal(
    version: string, tenantId: string, runId: string, artifact: ArtifactRef, evidence: EvidenceRef,
        submission: Submission)
}
