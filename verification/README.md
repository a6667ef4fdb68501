# Verified model of the security agent suite

The suite is a Go service that runs security agents. A *run* is created over an API, checked by a
preflight policy, perhaps approved, executed by a worker through an external agent runtime, and ends
with a result. *Manual* runs are created in `preparing`, receive an uploaded input, and are submitted.
Everything is kept in files whose directory entries become durable only when the directory is synced.

The project models the parts of the service that are hard to get right and proves what they are for.

**The disk** (`Disk.dfy`). A tree of directory entries. Publishing an entry makes it visible; until
its directory is synced, a power loss may bring back any value the entry had since the last sync, and
takes away whatever lies in a directory that is lost. `Safe` is proved to be exactly durability.

**Run records and stores** (`Domain.dfy`, `Runs.dfy`, `RunFiles.dfy`, `Stores.dfy`). The status machine
and its event log as a class updated in place, the closures that update it, the file store and the
memory store as classes. Every store write may fail before the rename, in the directory sync after it,
or in the audit append after that; and a record whose raw output is not JSON text cannot be encoded at all.

**The run service** (`RunService.dfy`, `RunServiceSteps.dfy`, `RunServiceTheorems.dfy`,
`RunServiceProgress.dfy`, `RunServiceRegistrations.dfy`, `RunServiceWitnesses.dfy`,
`RunServiceHistory.dfy`, `RunServiceConclusions.dfy`). Workers, callers that create, approve, cancel and submit, the dispatcher and the
recovery at start are threads with program counters over a bounded queue, the `cancels` map, the two mutexes
and the disk. A step is one store operation, lock, send or receive; any store operation may fail and the
process or machine may stop between any two steps. What an executor returns is judged before it is stored;
the judge is a parameter, and `RunServiceConclusions.dfy` puts the output gate in its place.
`RunServiceHistory.dfy` traces what a run file says back to the steps behind it.

**The manual submission** (`Evidence.dfy`, `InputRules.dfy`, `SubmissionSystem.dfy`,
`SubmissionFrames.dfy`, `SubmissionSteps.dfy`, `SubmissionTheorems.dfy`, `SubmissionFootprint.dfy`,
`SubmitService.dfy`, `SubmitProgress.dfy`). Submission, upload and evidence append down to single links,
renames and syncs, with failure possible before each; `SubmitService.dfy` is the call itself as an
imperative method that follows those steps. `SubmissionReload.dfy`, `SubmissionCareful.dfy` and
`SubmissionWitnesses.dfy` settle when the evidence store can be loaded again after a restart.
`Composition.dfy` joins this system and the run service over one disk, each reading what the other keeps;
`CompositionTheorems.dfy` says what they guarantee together.

**Creation** (`Creation.dfy`, `CreationSystem.dfy`). The preflight policy, the normal form of manual
requests, the fingerprint that decides whether a repeated request is the same one, and CreateRun as a step
system of callers that look up, store and look again.

**Output** (`Contracts.dfy`, `Gate.dfy`, `Adapter.dfy`) **and input texts** (`Utf8.dfy`,
`EscapeScanner.dfy`, `StrictInput.dfy`, `DecimalLimit.dfy`). The contract validator over JSON trees,
the gate, the agent-compose adapter, and the byte-level scanners. `Prelude.dfy` and `Strings.dfy` hold
what the others share.

## Assumptions

- An id that `id.New` mints differs from every id minted or chosen by a client before it.
- Evidence file names are injective in the evidence id, so the model names the file by the id.
- A record whose raw output is empty or JSON text, and whose texts are valid UTF-8, survives JSON encoding and
  decoding up to nil and empty values and to white space and escapes inside the raw output; encoding a record with
  other raw output fails; what decodes as JSON is JSON text to the encoder too. Decoder and encoder refuse more than
  10000 nested levels, and the record puts two levels around its raw output: raw output that comes within two levels of
  the bound decodes but cannot be encoded, and is not covered. A printed duration parses back.
- `mime.FormatMediaType` prints the media types of uploads as non-empty text. For some media types that the upload
  accepts, such as `text/plain; *0=x`, it prints nothing, and the artifact's metadata is then refused when it is read;
  such uploads are not part of the model.
- SHA-256 in hex has 64 lower-case digits; the statements about equal creation keys also take the creation
  digest to be free of collisions.
- The evidence store, the journals and the artifact store are configured.
- Configuration is the same after a restart, and no API call is served before `Start` has returned.
- The state, `runs`, `evidence` and artifact root directories are durable before the stores are used.
- Strings are sequences of Unicode scalar values, so the checks that stored texts are valid UTF-8 always
  pass; a byte length is the length of the UTF-8 encoding.

Instants are integers with 0 for Go's zero time. JSON numbers are reals.

## Model

| member | source | states |
|---|---|---|
| Disk.SafeSurvives | internal/store/file/file.go:217-254 | what is synced, with every directory above it, stays in place through any power loss or restart |
| Disk.UnsafeCanBeLost | internal/store/file/file.go:240-253 | anything else is lost or changed by some power loss, which the lemma constructs and which leaves what lies elsewhere in place |
| Disk.SettledBySync | internal/store/file/file.go:240-253 | a published value is settled by a sync of its own directory and by no other, and what lies elsewhere is as it was |
| Disk.SafeIsDurable | internal/store/file/file.go:217-254 | a value is safe if and only if every power loss leaves it |
| Runs.RunRecord.Transition | internal/domain/run.go:284-304 | the in-place transition takes allowed edges only, and otherwise changes nothing |
| Runs.MovedWrites | internal/domain/run.go:284-304 | the sixteen edges of the status machine, and the whole record after each: status, times, version and one event; start time on entering running, end time on ending |
| Runs.RunRecord.RecordEvent | internal/domain/run.go:306-310 | the whole new record, one event longer |
| Runs.RunRecord.SetApproval | internal/domain/run.go:312-316 | the whole new record: approval, the id in the policy, version, time and the event |
| Runs.RunRecord.SetResult | internal/domain/run.go:317-323 | the result is stored as given, summary and message cut to their longest valid prefix within 4096 and 16384 bytes |
| Runs.AppendKeeps | internal/domain/run.go:325-328 | appending keeps the numbering 1..n and the replay of statuses |
| Runs.MovedKeeps | internal/domain/run.go:284-304 | a transition that lowers the rank extends a faithful log to a faithful log |
| RunUpdates.MutateStatus | internal/app/service.go:227-530 | every service update leads to one known status, along an allowed edge that strictly lowers the rank; ended runs never change |
| RunUpdates.MutateFrame | internal/app/input.go:177-185 | only a submission touches inputs and submission; nothing touches scope, manifest, fingerprint or frozen policy |
| RunUpdates.MutateHistory | internal/app/service.go:353-530 | every update extends the log and keeps it faithful, the approval directly before the run leaves waiting_approval |
| RunUpdates.EndWith | internal/app/service.go:512-524 | setting a result and ending the run in place is the specified update |
| RunUpdates.Apply | internal/app/service.go:353-530 | the closures, run in place on the working copy, compute the specified update or its refusal; an approval or a cancellation by another tenant than the run's is answered not found and changes nothing |
| RunUpdates.ClaimWrites | internal/app/service.go:353-370 | the record after a worker takes up a queued run, an ended run as it was, any other a conflict |
| RunUpdates.BeginWrites | internal/app/service.go:402-418 | the record after the executor is invoked; the first start time stays |
| RunUpdates.ApproveWrites | internal/app/service.go:241-252 | the record after an approval by the run's tenant while the run waits, and otherwise a conflict |
| RunUpdates.SubmitWrites | internal/app/input.go:177-190 | the record after the one submission of a prepared run, and otherwise a conflict |
| RunUpdates.FinishWrites | internal/app/service.go:452-506 | the record after an execution: what the executor returned, or the status and code of a timeout, a cancellation, an error or a status that ends nothing |
| RunUpdates.FailWrites | internal/app/service.go:512-530 | the record after a failure outside an execution, with its code |
| RunUpdates.CancelWrites | internal/app/service.go:296-321 | the record after a cancellation, with code cancelled and the reason |
| RunUpdates.RequestCancelWrites | internal/app/service.go:275-294 | a request to cancel an executing run adds one event and nothing else; an ended run stays as it was |
| RunUpdates.EncodesExactly | internal/app/service.go:452-506 | the record an update leaves can be encoded if and only if the update is not the end of an execution with raw output that is neither empty nor JSON text |
| RunFiles.RequestKeyInjective | internal/store/file/file.go:53 | tenants without NUL make the request key unambiguous |
| RunFiles.UpdateKeeps | internal/store/file/file.go:149-180 | after any update and any fault, every value a run file may revert to is a version of the same run, and keys stay unique |
| RunFiles.CreateKeeps | internal/store/file/file.go:89-115 | creation keeps that invariant, so at most one run answers to a tenant and request id |
| RunFiles.RestartKeeps | internal/store/file/file.go:55-87 | the invariant survives power loss and restart |
| RunFiles.DurableReads | internal/store/file/file.go:117-213 | a version that was once durable is never rolled back, over every later run of operations, failed syncs and restarts |
| RunFiles.ReachableStores | internal/store/file/file.go:55-254 | from an empty disk every reachable state satisfies the invariant |
| Stores.FileStore.Load | internal/store/file/file.go:55-87 | reading back never fails on duplicate keys, and the maps then mirror the visible files |
| Stores.EncodedSurvives | internal/store/file/file.go:217-221 | no restart brings up a record that could not be encoded |
| Stores.FileStore.Persist | internal/store/file/file.go:217-254 | which faults and which records publish, which also sync, and what the caller is told |
| Stores.FileStore.Create | internal/store/file/file.go:89-115 | disk, maps and answer after a creation under every fault and for every record; taken exactly if the run id or the tenant's request id is; the index stays the inverse of the runs |
| Stores.FileStore.Get | internal/store/file/file.go:117-131 | a returned run is on disk for good |
| Stores.FileStore.FindByRequestID | internal/store/file/file.go:133-147 | finds the run of that tenant and request id exactly if there is one, and what it returns is on disk for good |
| Stores.FileStore.Update | internal/store/file/file.go:149-180 | disk, maps and answer after an update under every fault and for every record, one that cannot be encoded leaving all as it was; a returned run is on disk for good |
| Stores.FileStore.List | internal/store/file/file.go:182-213 | runs of the tenant, agent and status asked for and no others, each once and newest first; all of them without a limit, and under a limit none newer than a listed one is left out; each durable |
| Stores.MemoryStore.Create | internal/store/memory/memory.go:26-46 | the same creation on maps, taken exactly if the run id or the tenant's request id is |
| Stores.MemoryStore.Update | internal/store/memory/memory.go:74-93 | the update on maps: a record that cannot be copied is refused before it, and one that it makes uncopyable is kept and answered with an error |
| Stores.MemoryStore.Get | internal/store/memory/memory.go:48-59 | the copy of the run, or an error if it cannot be copied |
| Stores.MemoryStore.FindByRequestID | internal/store/memory/memory.go:61-72 | the copy of the run of that tenant and request id, or an error if there is none or it cannot be copied |
| Stores.MemoryStore.List | internal/store/memory/memory.go:95-123 | the same listing in the same terms, or an error exactly if a matching run cannot be copied |
| Stores.ListingsAgree | internal/store/memory/memory.go:95-123 | two listings of the same runs agree up to the order of equal creation times |
| Stores.UpdatesAgree | internal/store/file/file.go:149-180 | without a disk fault the updates of the two stores leave the same records and answer alike if and only if the update is not the end of an execution with raw output that is neither empty nor JSON text |
| Stores.BadEndParts | internal/store/memory/memory.go:74-93 | after such an end the file store still shows the run running, the memory store keeps the end and answers every read of it with an error |
| Stores.SameListings | internal/store/file/file.go:182-213 | two full listings of the same runs cut at one limit agree in length and ages, and in the runs but for those as old as the last |
| Stores.AnswersAgree | internal/store/memory/memory.go:26-123 | any two answers to one call over one set of records are the same up to the order of equal creation times |
| Stores.AnswerBoth | internal/store/memory/memory.go:26-123 | without faults both stores answer every sequence of calls that bring no other raw output than JSON text as the records demand that the calls before left, and so alike |
| RunServiceTheorems.NextKeeps | internal/app/service.go:81-556 | every step of every thread, with any fault, or a restart, keeps the invariant of locks, ownership, registrations, launches and tokens |
| RunServiceTheorems.Reachable | internal/app/service.go:81-556 | every reachable state satisfies it |
| RunServiceTheorems.AtMostOneExecution | internal/app/service.go:400-423 | a run is handed to the executor at most once in its life, across duplicates in the queue, several workers, failed writes and restarts |
| RunServiceTheorems.ExecutedRunsWereApproved | internal/policy/engine.go:114-127 | every run ever handed to the executor had the approval its agent, mode or policy demands, with an id and an actor, and an authorization reference |
| RunServiceTheorems.ExecutorExclusion | internal/app/service.go:402-423 | while an executor works on a run, until its result is written, the run is running, registered under that worker and owned by no other |
| RunServiceTheorems.RegistrationsAreLive | internal/app/service.go:275-294 | every registration belongs to a worker that still holds that run |
| RunServiceRegistrations.RunningIsRegistered | internal/app/service.go:400-506 | after recovery a running run is registered, or about to be by the worker that began it, if and only if no write of its beginning or its end was answered with an error since the last start, one that cannot be encoded included |
| RunServiceWitnesses.StrayAfterBegin | internal/app/service.go:402-418 | a run of the service in which a failed sync of the beginning leaves a running run that nobody holds and no cancellation interrupts |
| RunServiceWitnesses.StrayAfterFinish | internal/app/service.go:452-506 | the same after a failed write of the end, when the worker has deregistered the run |
| RunServiceWitnesses.StrayWithoutFault | internal/app/service.go:452-506 | the same with no fault at all, when the concluded raw output is neither empty nor JSON text |
| RunServiceConclusions.PlainTextStrays | internal/validation/validation.go:159-182 | behind the output gate: output that is no JSON text is refused as malformed, and a run of the service without any fault never stores that failure and leaves the run running and held by nobody |
| RunServiceConclusions.RefusalStrays | internal/executor/agentcompose/cli.go:303-312 | such a run of the service exists for the message "I cannot do that" |
| RunServiceTheorems.EndIsStored | internal/store/file/file.go:217-221 | where the disk works the end of an execution is stored, and then for good, if and only if its raw output is empty or JSON text; otherwise the run stays running |
| RunServiceConclusions.ConclusionsAreEarned | internal/app/service.go:424-446 | in every reachable state every version of a run that is succeeded or partial keeps the very output that its own executor returned in a step of one execution, and that output passed the gate of the run's agent, its findings backed by the evidence listing of that execution, those of high or critical severity with a reference |
| RunServiceTheorems.NewConclusion | internal/app/service.go:452-504 | only a worker's finish makes a run succeeded or partial, and it stores exactly the status and the result it concluded |
| RunServiceHistory.ExecutionBehind | internal/app/service.go:422-504 | behind every version of a run stored as succeeded or partial stand three steps of one worker, in this order: its executor returned for this run without an error, it judged what was returned for the run's agent, and it wrote what the record says |
| RunServiceHistory.NewCancellation | internal/app/service.go:463-471 | a version new on disk is cancelled if and only if the step that wrote it is a caller's cancellation of a run no executor is registered for, the end of an execution that was interrupted with run.cancel_requested in its log, or an executor's own cancelled result |
| RunServiceHistory.CancellationBehind | internal/app/service.go:296-321 | in every reachable state such a step stands behind every version of a run that is stored as cancelled |
| RunServiceHistory.CallersOwnTheRun | internal/app/service.go:227-321 | a version new on disk by an approval or a caller's cancellation belongs to the tenant that called |
| RunServiceHistory.ForeignCallsChangeNothing | internal/app/service.go:241-311 | in the name of any other tenant these calls leave the disk as it is |
| RunServiceHistory.ApprovalBehind | internal/app/service.go:227-262 | in every reachable state, behind every version that carries an approval stands a call that gave this very approval in the name of the run's tenant, with id, actor and reason |
| RunServiceHistory.FailuresSayWhy | internal/app/service.go:512-556 | a run failed by the recovery, for a full queue or by a worker's check says so in its code, with no findings and no output |
| RunServiceTheorems.EndIsFinal | internal/app/service.go:300-320 | once a run has ended on disk its record never changes and no execution of it starts, across restarts |
| RunServiceTheorems.AnsweredEnd | internal/app/service.go:298-321 | an answered update that ends a run, such as CancelRun returning it cancelled, has ended it on disk for good |
| RunServiceTheorems.EventLogIsFaithful | internal/app/service.go:353-530 | in every reachable state every version of every run has a faithful log with at most four changes |
| RunServiceTheorems.EventLogGrows | internal/app/service.go:353-530 | between restarts every step extends each log |
| RunServiceSteps.CancelFacts | internal/app/service.go:275-320 | a cancellation breaks nothing another thread relies on: a run about to begin or executing is either locked out or registered |
| RunServiceProgress.NoWorkLost | internal/app/service.go:323-351 | while the store works, every automatic queued run is in exactly one place: a queue slot, the recovery list, or one thread |
| RunServiceProgress.OnePlace | internal/app/service.go:196-203 | an automatic run is never in two places, whatever fails |
| RunServiceProgress.TickOffersEach | internal/app/input.go:260-282 | in each tick, however workers and callers move between its sends, every manual run queued on disk when it listed the runs is offered exactly once and enters the queue unless that is full at the moment |
| RunServiceProgress.TickOffersOnly | internal/app/input.go:275-281 | what a tick puts into the queue was a queued manual run when it listed them |
| RunServiceProgress.StoreLists | internal/store/file/file.go:182-213 | the file store's unlimited listing by status is the listing the tick and the recovery go through |
| RunServiceProgress.QueueIsChannel | internal/app/service.go:323-351 | a step appends one run where there is room, hands the head to a worker, empties the queue at a restart, or leaves it alone |
| RunServiceProgress.WithinCapacity | internal/app/service.go:323-335 | in every reachable state no more runs wait than the channel holds |
| RunServiceProgress.RunQueue.Enqueue | internal/app/service.go:323-335 | received and waiting runs are what was sent, in order; a send fails exactly when as many wait as the channel holds |
| RunServiceProgress.RunQueue.Receive | internal/app/service.go:337-351 | the n-th receive gets what was sent n-th |
| RunServiceProgress.RunQueue.DispatchTick | internal/app/input.go:275-281 | the loop over a listing takes the dispatcher's steps and no others |
| Evidence.NormalizeEvidence | internal/store/store.go:62-126 | computes the normal form, or refuses, as specified |
| Evidence.NormalizeIds | internal/store/store.go:109-124 | the in-place loop accepts exactly distinct valid identifiers and leaves them trimmed |
| Evidence.NormalForm | internal/store/store.go:62-126 | a record has this normal form if and only if its texts are trimmed to it and each part is within its limit of the source |
| Evidence.NormalizeTwice | internal/store/store.go:62-126 | normalising a stored record again changes nothing |
| Evidence.ValidateEvidenceScope | internal/store/store.go:128-175 | passes if and only if run and tenant match, every referenced artifact is registered and one of them is the record's source or digest |
| Evidence.IdentifierShape | internal/store/store.go:200-210 | an identifier has nothing to trim and one byte a character |
| InputRules.MintedIsIdentifier | internal/id/id.go:10-16 | a minted id is a bounded identifier with its prefix |
| InputRules.AcceptedArtifact | internal/app/input.go:65-84 | accepted if and only if metadata and bytes have the digest, size and type of the manifest, the bytes are a valid input and the size is within the limit |
| SubmissionFootprint.AcceptedForGood | internal/app/input.go:65-84 | an artifact a submission once accepted stays accepted: over every later step, failure and crash its metadata and bytes are durable and pass the same check |
| InputRules.NewJournalIsValid | internal/app/input.go:100-166 | the journal a submission writes passes the service's own check |
| InputRules.JournalSays | internal/app/input.go:86-107 | run, evidence record and artifact metadata of a journal that passes its check, field by field: one alert input that names the submitted artifact of this run with the digest, size and type of submission and manifest |
| InputRules.SubmitterRecordIsNormal | internal/app/input.go:149-176 | the record the submitter builds is a fixed point of NormalizeEvidence and bound to its artifact |
| SubmissionSteps.NextKeeps | internal/app/input.go:33-229 | every step, with a failure possible before each, keeps the invariant of disk, memory, uploads and answers |
| SubmissionSteps.ArtifactIsSafe | internal/artifacts/store.go:373-394 | after ReadInput's three syncs metadata and bytes of a registered artifact are durable |
| SubmissionSteps.JournalIsSafe | internal/store/file/input.go:14-44 | a journal that was read is durable |
| SubmissionSteps.ScanIsComplete | internal/app/input.go:206-227 | if the scan of visible journals finds an id free, no journal, durable or not, reserves it |
| SubmissionSteps.JournalRecordIsNormal | internal/app/input.go:168-176 | the record of a durable journal is accepted by the evidence store unchanged |
| SubmissionSteps.PutKeeps | internal/artifacts/store.go:57-209 | every step of an upload, and its failure with or without removal of the bytes, keeps the invariant |
| SubmissionSteps.LoadedIsSafe | internal/store/file/evidence.go:55-124 | a record visible when the evidence store loads is durable and normal afterwards |
| SubmissionFootprint.StepGently | internal/app/input.go:33-229 | every step but a crash changes one name, respecting what others rely on |
| SubmissionReload.ProvenanceThroughout | internal/store/file/evidence.go:126-164 | in every reachable state each record, durable or not, has its run on disk for good, and as far as its artifacts are still registered it is bound to them |
| SubmissionReload.RecordNamesArtifact | internal/store/store.go:128-175 | in every reachable state a record whose artifacts are all registered has the digest of one of them and, if its source is an artifact, that one's URI |
| SubmissionReload.ReloadsExactly | internal/store/file/evidence.go:55-124 | in every reachable state, every possible restart leaves an evidence store that loads if and only if every artifact a record names is registered for good and no evidence id lies under two runs |
| SubmissionCareful.CarefulClientsNeverBlock | internal/app/input.go:197-229 | if every append named only artifacts whose upload to that run had been answered as successful and an id that no append of another run was begun with, the service can start after every restart |
| SubmissionWitnesses.IdUnderTwoRuns | internal/store/file/evidence.go:126-164 | a run of the system: an append fails at its sync, its id is used for another run, and the service never starts again |
| SubmissionWitnesses.RecordOutlivesMetadata | internal/artifacts/store.go:197-247 | a run of the system: an append bound to published but unsynced metadata is answered, a power loss takes the metadata back, and the service never starts again |
| SubmissionSteps.CrashKeeps | internal/store/file/evidence.go:221-272 | the invariant survives a power loss at any point |
| SubmissionTheorems.WriteAhead | internal/app/input.go:109-193 | in every reachable state a run file with a submission, durable or not, is backed by a durable journal with that submission, the journal's evidence record, the artifact's metadata, and bytes of the recorded size and digest |
| SubmissionTheorems.SubmittedInput | internal/app/input.go:86-193 | in every reachable state a run with a submission has exactly one input, of kind alert, whose URI names the submitted artifact of that run and whose digest, size and type are those of submission and manifest; evidence record, metadata and bytes on disk are of that artifact |
| SubmissionTheorems.OneSubmission | internal/app/input.go:109-193 | all successful submits of a run, over any failures, crashes and interleavings, answer with one submission of the one artifact it names |
| SubmissionTheorems.OneRegistration | internal/app/input.go:149-176 | submits publish one evidence record for a run, the one its journal names |
| SubmissionTheorems.ReservedIds | internal/app/input.go:195-229 | any stored record with the evidence id of a visible journal is the journal's record under the journal's run |
| SubmissionTheorems.FrozenInputsPass | internal/app/input.go:230-259 | while the service is up every submitted manual run passes checkFrozen |
| SubmissionTheorems.CheckedInput | internal/app/input.go:230-259 | what passes checkFrozen is that input: record in memory, bytes on disk of the promised size and digest, a valid input within the limit |
| SubmissionTheorems.CallsOfTheTenant | internal/app/input.go:33-63 | submissions, appends and uploads begin for the run's own tenant alone, and an upload for a prepared run must bring what its manifest promised |
| SubmitService.InputService.SubmitRun | internal/app/input.go:109-193 | the call follows the step system; only the run's tenant is answered, and the run then carries the answered submission, of this artifact, and the one input that names it; a journalled run is never submitted with another artifact; if nothing fails the journal's submission, or that of a first submission's journal, is the answer |
| SubmitProgress.UndisturbedSubmits | internal/app/input.go:109-193 | with uploads, run updates, creations and syncs between its steps, a submission that can succeed and meets no failure stands at its commit after at most fourteen steps of its own, and a commit whose write works is answered with the submission of the run's journal, the one of before if there was one |
| SubmitService.StepTrack | internal/app/input.go:131-176 | a step without a failure stays on the way to committing the journal |
| SubmitService.RecordIsOurs | internal/app/input.go:168-176 | memory and disk hold the journal's record under its id or no record |
| Composition.NextKeeps | internal/app/service.go:353-423 | the run service and the submission, interleaved over one disk, keep both invariants |
| CompositionTheorems.HonestInputsAreNeverRejected | internal/app/service.go:371-376 | whatever manual run a worker has claimed, also if it was cancelled meanwhile, and every queued one, passes the frozen-input check in every interleaving of the two systems |
| CompositionTheorems.OnlyFailingReadsReject | internal/app/service.go:81-95 | a worker ends a run for its input, and Start refuses to start, only if one of its own reads fails |
| CompositionTheorems.ConclusionsRestOnEvidence | internal/app/service.go:424-446 | in every reachable state a run stored as succeeded or partial keeps the very output that its own executor returned in an earlier step, that output passed the gate of its agent, each evidence reference of each stored finding names a record on disk for good under that run, and those of high or critical severity have one |
| Composition.CreatedRunsEnter | internal/app/service.go:137-183 | every run that CreateRun stores for an accepted request meets what the two systems assume of a new run |
| Composition.InputIsElsewhere | internal/app/input.go:109-193 | all of a submission but its commit leaves run files alone |
| Creation.Draft.NormalizeAndEvaluate | internal/policy/engine.go:29-112 | the in-place preflight computes the specified normal form, first status or refusal |
| Creation.Draft.NormalizeForManual | internal/policy/input.go:15-65 | the in-place manual normalisation computes the specified form or refusal |
| Creation.Draft.Trim | internal/policy/engine.go:129-147 | the whole request after trimming |
| Creation.NormalFields | internal/policy/engine.go:29-147 | each field of the normalised request: the given text trimmed, or the default |
| Creation.PreflightExactly | internal/policy/engine.go:29-175 | the preflight accepts if and only if nothing is malformed and nothing off limits, each spelled out; a refusal says which; waiting for approval exactly if active or the mode demands it |
| Creation.ManualExactly | internal/policy/input.go:15-65 | the same for the rules of manual requests, and what accepting rewrites |
| Creation.PrepareExactly | internal/app/service.go:137-163 | a request is accepted exactly if its mode is known, it has a manifest only if manual, and it passes the preflight and, if manual, the manual rules |
| Creation.EvaluateTwice | internal/policy/engine.go:29-112 | a normalised request passes again unchanged to the same status |
| Creation.ManualTwice | internal/policy/input.go:15-65 | an accepted manual request is in its normal form, with a hex digest and a bounded size |
| Creation.CreatedRunIsGood | internal/app/service.go:137-182 | a created run has a faithful log, no submission and, if manual, a fingerprint that checks |
| Creation.PreparedMode | internal/app/service.go:142-163 | a manifest and manual execution go together, and keep the run off the network and without active validation |
| Creation.RunCarriesRequest | internal/domain/run.go:261-283 | the new run, field by field, with the two events of its creation |
| Creation.FingerprintSurvives | internal/app/input.go:93-99 | no update changes whether the creation fingerprint checks |
| Creation.ManualRepeat | internal/app/service.go:164-173 | given the stored run, a repeated manual creation is answered with it if and only if it is manual and agent, mode, case, manifest, scope, network access, active validation, request and time budget, output and metadata agree; otherwise a conflict |
| Creation.AutomaticRepeat | internal/app/service.go:164-173 | any other repeated creation is answered with the stored run exactly if that is not manual and of the same agent |
| CreationSystem.OneRunPerRequest | internal/app/service.go:137-196 | any two callers ever answered for one tenant and request id got the same run, over every interleaving, failed write and restart; two manual ones asked for the same in every field |
| CreationSystem.SameRunForSameWish | internal/app/service.go:164-193 | once somebody was answered, a manual caller with the same tenant and request id whose lookup works gets that run if and only if the run was answered to a manual request that agrees in every field |
| CreationSystem.LoserLooksAgain | internal/app/service.go:184-187 | a caller that comes too late with its own run stores nothing and looks again |
| Creation.RaceSkipsTheAgent | internal/app/service.go:184-193 | the answer after losing a race differs from the ordinary one exactly for an automatic run of another agent |
| CreationSystem.RaceHandsOutOtherAgent | internal/app/service.go:164-193 | for any two automatic requests of different agents for one request id, the steps by which the loser of the race is answered with the other agent's run |
| CreationSystem.RaceHappens | internal/app/service.go:164-193 | such a run of the system from an empty disk, for a concrete request |
| Contracts.ValidateField | internal/validation/validation.go:588-655 | the recursive validator accepts if and only if every value in the tree is what the contract expects at its path |
| Contracts.ValidateObject | internal/validation/validation.go:562-586 | the same for objects, for every order of keys |
| Contracts.RecordUnfolds | internal/validation/validation.go:562-586 | an object conforms exactly if it fits and each of its fields conforms |
| Gate.Walk | internal/validation/validation.go:217-245 | the recursive walk accepts exactly if the five kinds of reference list, at any depth, name allowed ids only |
| Gate.ValidateTrustedClaims | internal/validation/validation.go:204-257 | passes exactly if all evidence and references are the executor's and there are no metrics or citations |
| Gate.ValidateIntegrity | internal/validation/validation.go:443-510 | verdict and error code, the first bad declaration deciding |
| Gate.ParseOutput | internal/validation/validation.go:73-117 | verdict and error code are the same for every order of map keys; findings of high or critical severity in an accepted output have references |
| Gate.CollectFindings | internal/validation/validation.go:383-437 | the findings are those of the list's objects, in order |
| Gate.FindingsExact | internal/validation/validation.go:383-437 | every finding comes from an object of the list and every object gives one |
| Gate.FindingRefsTrusted | internal/validation/validation.go:415-421 | every reference of an extracted finding is trusted |
| Gate.Gate | internal/validation/validation.go:159-182 | what passes is trustworthy and bounded, with the lower of the two statuses and the output's own summary; what does not pass fails with the code of its cause |
| Gate.ValidateResultEvidence | internal/validation/validation.go:42-57 | passes exactly if every reference of every finding is in the store and findings of high or critical severity have one |
| Gate.Conclude | internal/app/service.go:425-445 | a conclusion passed the gate and the evidence store |
| Gate.DeclaredIdsMeaning | internal/validation/validation.go:443-462 | the declared ids are accepted exactly if every item is an object with a string id and no two agree, and are then the items' ids; otherwise the first item that has none, or repeats one, decides the code |
| Gate.PassedEncodes | internal/validation/validation.go:67-117 | whatever passes the gate can be stored |
| Gate.MalformedIsKept | internal/validation/validation.go:159-182 | output that does not decode fails as malformed and is kept as it is |
| Gate.EndRun | internal/app/service.go:425-502 | one call, from the executor's result to the stored record, on a disk that works: the end is stored if and only if its raw output is empty or JSON text, and the record keeps it; a run ended as succeeded or partial keeps output that meets its contract, with every reference trusted, every finding backed, those of high or critical severity with a reference, and a status no better than executor's and payload's |
| Adapter.CappedBuffer.Write | internal/executor/agentcompose/cli.go:486-502 | the buffer holds the first bytes written up to its limit and is marked exactly when more came |
| Adapter.EnvelopeFields | internal/executor/agentcompose/cli.go:73-109 | output is an envelope with these values exactly if its fields read so, absent and null as empty |
| Adapter.ProviderFields | internal/executor/agentcompose/cli.go:132-178 | a provider's result comes with it exactly if status and exit code are there and the result names provider, source and a final text that is not blank |
| Adapter.StatusMeans | internal/executor/agentcompose/cli.go:402-420 | a cancellation outweighs exit code and error text, which outweigh a reported success |
| Adapter.Execute | internal/executor/agentcompose/cli.go:210-391 | business output only from a known provider's own message, and always from it; success is reported if and only if the process ended cleanly and its output is no envelope or one that says so, parsed or not; every other end has its code |
| Adapter.UnparsedSuccess | internal/executor/agentcompose/cli.go:348-373 | a process whose unparsed output is reported as success, as no envelope and as an envelope without its exit code |
| Adapter.ExecuteAndGate | internal/executor/agentcompose/cli.go:259-391 | through the gate a conclusion needs a clean end, nothing truncated, a parsed envelope, a known provider's own message and a runtime status at least as good |
| Utf8.BoundedText | internal/domain/run.go:17-26 | the loop returns the bounded text |
| Utf8.BoundedIsLongestValidPrefix | internal/domain/run.go:17-26 | which is the longest valid UTF-8 prefix within the limit |
| Utf8.BoundedDropsAtMostThree | internal/domain/run.go:17-26 | and of valid input drops at most three bytes below the limit |
| Utf8.BoundedIdempotent | internal/domain/run.go:317-323 | bounding again changes nothing |
| EscapeScanner.ValidEscapes | internal/validation/input.go:94-134 | true exactly if quotes balance, escapes are four hex digits, and surrogates come only in pairs; never out of bounds |
| EscapeScanner.Hex4Reads | internal/validation/input.go:112-116 | four bytes are read as the number whose hexadecimal digits they write, in either case |
| EscapeScanner.Hex4Refuses | internal/validation/input.go:112-116 | and as no number if one of them writes no digit |
| EscapeScanner.AcceptedDecodesToScalars | internal/validation/input.go:94-134 | decoding an accepted text yields scalar values only and replaces nothing |
| EscapeScanner.AcceptsMeaning | internal/validation/input.go:94-134 | the scanner's rule means lexing succeeds and surrogates are paired |
| StrictInput.Walk | internal/validation/input.go:26-67 | accepts exactly documents with no null, no repeated key and no value below 10000 levels |
| StrictInput.ExactFields | internal/validation/input.go:165-208 | accepts exactly documents whose structs are objects with known keys only, at every path |
| DecimalLimit.ManifestSizeLimit | internal/httpapi/input.go:143-166 | reports too large exactly if the integer literal, of any length, exceeds the limit |
| DecimalLimit.LengthThenDigits | internal/httpapi/input.go:158-164 | without leading zeros, comparing lengths and then digits is comparing values |
| DecimalLimit.FormatDenotes | internal/httpapi/input.go:158-160 | the printed limit denotes the limit and has no leading zero |

## Where the code differs from what one might expect

- Losing a creation race returns an automatic run without comparing its agent
  (`internal/app/service.go:184-193`). `Creation.RaceSkipsTheAgent` gives the exact condition,
  `CreationSystem.RaceHandsOutOtherAgent` and `CreationSystem.RaceHappens` the steps that lead there.
- The adapter reports output it cannot parse as succeeded (`internal/executor/agentcompose/cli.go:348-373`)
  and relies on the gate to refuse it. `Adapter.Execute` says exactly when, `Adapter.UnparsedSuccess` shows
  both ways, `Adapter.ExecuteAndGate` states what remains after the gate.
- The end of an execution whose raw output is neither empty nor JSON text is never stored, although no disk is at fault:
  the gate refuses a provider message such as `I cannot do that` as malformed and keeps it
  (`internal/validation/validation.go:159-182`), and encoding the record then fails
  (`internal/store/file/file.go:217-221`). The run stays running, held by nobody, until the next start fails it as
  interrupted, and the outcome that `docs/architecture/integration-agent-compose.md:125` promises is not recorded.
  The memory store keeps the end instead and answers every read of it with an error
  (`internal/store/memory/memory.go:74-93`). `RunServiceTheorems.EndIsStored`, `Gate.EndRun` and
  `Stores.UpdatesAgree` are the exact conditions, `RunServiceConclusions.RefusalStrays` and `Stores.BadEndParts`
  show the failure; what passes the gate is stored (`Gate.PassedEncodes`).
- Not every running run is registered for cancellation: a beginning answered with an error leaves a running
  record that no worker holds, and so does a failed write of the end, after which the worker deregisters the
  run (`internal/app/service.go:402-418`, `501-505`), whether the disk failed or the record could not be encoded; the
  next start fails all of them. These are the only ways:
  `RunServiceRegistrations.RunningIsRegistered`, with a run of the service for each in
  `RunServiceWitnesses`.
- A service may be unable to start because its evidence store refuses to load. An append whose sync failed
  leaves a record on disk that memory does not know, and a second append of its id under another run makes
  two; and an append may be bound to metadata that is visible but not yet synced
  (`internal/artifacts/store.go:197-247`), which a power loss takes back. `SubmissionReload.ReloadsExactly` is the
  exact condition, `SubmissionWitnesses` holds a run of the system for each, and
  `SubmissionCareful.CarefulClientsNeverBlock` says what clients can do to exclude both.

## Left out

- HTTP routing, authentication, configuration, metrics, prompts, the catalog, the doctor and the scripts.
- The child process, signals and timers: `Adapter.Execute` takes the finished process as input.
- The libraries for JSON text, SHA-256, URLs, MIME types, dates and durations: parameters with the laws above.
- The audit log, which repeats events and is not the log the proofs are about.
- The five agents' contract tables: the validator is proved for every contract.
- Error texts that depend on map order: the gate takes them as a parameter.
- Confidence and recommendations of findings, and provenance of results: copied, not decided upon.
- Case folding beyond ASCII, and the case-insensitive matching of JSON keys by the decoder.
- Artifact listing and opening for download.
- The evidence, journal and artifact stores are step systems over the disk instead of classes, because what matters is
  what a failure between two of their steps leaves.
- RunServiceProgress.NoWorkLost: holds while the store works; after a failed write a queued run waits for the next start.
- SubmitService.InputService.SubmitRun: one call at a time; SubmitProgress.UndisturbedSubmits has the other threads between its steps.
- Gate.EndRun: takes the run as running, the evidence listing as given and the disk as working; CompositionTheorems.ConclusionsRestOnEvidence has none of these restrictions, and RunServiceTheorems.EndIsStored is about a step of the whole service.
- Uploads with a media type that prints as nothing, and the entries of their run that then cannot be read.
- Creation.ManualRepeat: takes the stored run as given; CreationSystem.SameRunForSameWish is about whole runs of the system.
- SubmissionFootprint.AcceptedForGood: the strict input validator is a parameter; its parts are EscapeScanner and StrictInput.
- SubmissionSteps.LoadedIsSafe: about a load that succeeds; when it does is SubmissionReload.ReloadsExactly.
- The frozen-input check is one step, as everything it reads is durable and no longer changes once a run is submitted.
