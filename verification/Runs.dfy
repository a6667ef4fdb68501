/** Run records: the status machine and the event log. */
module Runs {
  import opened Prelude
  import opened Utf8
  import opened Domain

  predicate Allowed(from: Status, to: Status) {
    match from
    case Preparing => to == Queued || to == Cancelled
    case Queued => to == Validating || to == Cancelled || to == Failed
    case Validating => to == WaitingApproval || to == Running || to == Failed || to == Cancelled
    case WaitingApproval => to == Queued || to == Cancelled || to == Failed
    case Running => to.Terminal()
    case _ => false
  }

  /** The edges of the status machine. */
  const EDGES: set<(Status, Status)> := {
    (Preparing, Queued), (Preparing, Cancelled),
    (Queued, Validating), (Queued, Cancelled), (Queued, Failed),
    (Validating, WaitingApproval), (Validating, Running), (Validating, Failed), (Validating, Cancelled),
    (WaitingApproval, Queued), (WaitingApproval, Cancelled), (WaitingApproval, Failed),
    (Running, Succeeded), (Running, Partial), (Running, Failed), (Running, Cancelled)}

  function Appended(r: Run, e: Event): Run {
    r.(events := r.events + [e.(sequence := |r.events| + 1)])
  }

  function NewRun(id: string, terms: Terms, inputs: seq<InputRef>, policy: Policy, initial: Status): Run {
    var now := terms.createdAt;
    Appended(
      Run(id, terms, inputs, None, policy, initial, None, None, [], now, None, None, 1),
      Event(0, RunCreated, None, Some(initial), "run created", "system", now))
  }

  /** JSON encoding refuses raw output that is not JSON text; empty raw output is left out of the record. */
  predicate Encodes(isJson: Bytes -> bool, result: RunResult) {
    result.rawOutput == [] || isJson(result.rawOutput)
  }

  predicate Encodable(isJson: Bytes -> bool, r: Run) {
    match r.result
    case Some(result) => Encodes(isJson, result)
    case None => true
  }

  function Moved(r: Run, to: Status, message: string, actor: string, now: int): Result<Run, Error> {
    if r.status == to then Ok(r)
    else if !Allowed(r.status, to) then Err(InvalidTransition)
    else
      var moved := r.(
        status := to, updatedAt := now, version := r.version + 1,
        startedAt := if to == Running && r.startedAt.None? then Some(now) else r.startedAt,
        completedAt := if to.Terminal() then Some(now) else r.completedAt);
      Ok(Appended(moved, Event(0, StatusChanged, Some(r.status), Some(to), message, actor, now)))
  }

  lemma EdgesAllowed(from: Status, to: Status)
    ensures Allowed(from, to) <==> (from, to) in EDGES
  {
  }

  /** A transition takes an edge of the status machine, or stays where it is; it moves the status, the times and
      the log. */
  lemma MovedWrites(r: Run, to: Status, message: string, actor: string, now: int)
    ensures r.status == to ==> Moved(r, to, message, actor, now) == Ok(r)
    ensures r.status != to && (r.status, to) in EDGES ==>
      Moved(r, to, message, actor, now) == Ok(r.(
        status := to, updatedAt := now, version := r.version + 1,
        startedAt := if to == Running && r.startedAt == None then Some(now) else r.startedAt,
        completedAt := if to in {Succeeded, Partial, Failed, Cancelled} then Some(now) else r.completedAt,
        events := r.events + [Event(|r.events| + 1, StatusChanged, Some(r.status), Some(to), message, actor, now)]))
    ensures r.status != to && (r.status, to) !in EDGES ==> Moved(r, to, message, actor, now) == Err(InvalidTransition)
  {
    hide Allowed, EDGES;
    EdgesAllowed(r.status, to);
  }

  function Recorded(r: Run, kind: EventKind, message: string, actor: string, now: int): Run {
    Appended(r.(updatedAt := now, version := r.version + 1), Event(0, kind, None, None, message, actor, now))
  }

  function Approved(r: Run, approval: Approval, now: int): Run {
    Recorded(r.(approval := Some(approval), policy := r.policy.(approvalId := approval.id)),
                RunApproved, "run approved", approval.actor, now)
  }

  /** `cut` is the text, or of a text over the limit its longest valid prefix within the limit. */
  ghost predicate CutTo(text: Bytes, limit: nat, cut: Bytes) {
    if |text| <= limit then cut == text else LongestValidPrefix(text, limit, cut)
  }

  function BoundResult(result: RunResult): RunResult {
    result.(summary := Bounded(result.summary, MAX_SUMMARY_BYTES),
            errorMessage := Bounded(result.errorMessage, MAX_ERROR_MESSAGE_BYTES))
  }

  function Resulted(r: Run, result: RunResult, now: int): Run {
    r.(result := Some(BoundResult(result)), updatedAt := now, version := r.version + 1)
  }

  /** The record as the program updates it in place. */
  class RunRecord {
    const id: string
    const terms: Terms
    var inputs: seq<InputRef>
    var submission: Option<Submission>
    var status: Status
    var policy: Policy
    var approval: Option<Approval>
    var result: Option<RunResult>
    var events: seq<Event>
    var updatedAt: int
    var startedAt: Option<int>
    var completedAt: Option<int>
    var version: nat

    function Value(): Run
      reads this
    {
      Run(id, terms, inputs, submission, policy, status, approval, result, events, updatedAt, startedAt, completedAt,
          version)
    }

    /** The working copy that a store update mutates. */
    constructor (r: Run)
      ensures Value() == r
    {
      id, terms, inputs, submission := r.id, r.terms, r.inputs, r.submission;
      status, policy, approval, result, events := r.status, r.policy, r.approval, r.result, r.events;
      updatedAt, startedAt, completedAt, version := r.updatedAt, r.startedAt, r.completedAt, r.version;
    }

    method AppendEvent(e: Event)
      modifies this`events
      ensures Value() == Appended(old(Value()), e)
    {
      events := events + [e.(sequence := |events| + 1)];
    }

    method Transition(to: Status, message: string, actor: string, now: int) returns (ok: bool)
      modifies this
      ensures ok ==> Moved(old(Value()), to, message, actor, now) == Ok(Value())
      ensures !ok ==> Moved(old(Value()), to, message, actor, now).Err? && Value() == old(Value())
    {
      hide Allowed;
      if status == to {
        return true;
      }
      if !Allowed(status, to) {
        return false;
      }
      var from := status;
      status := to;
      updatedAt := now;
      version := version + 1;
      if to == Running && startedAt == None {
        startedAt := Some(now);
      }
      if to.Terminal() {
        completedAt := Some(now);
      }
      AppendEvent(Event(0, StatusChanged, Some(from), Some(to), message, actor, now));
      return true;
    }

    method RecordEvent(kind: EventKind, message: string, actor: string, now: int)
      modifies this
      ensures Value() == Recorded(old(Value()), kind, message, actor, now)
      ensures Value() == old(Value()).(
        updatedAt := now, version := old(version) + 1,
        events := old(events) + [Event(|old(events)| + 1, kind, None, None, message, actor, now)])
    {
      updatedAt := now;
      version := version + 1;
      AppendEvent(Event(0, kind, None, None, message, actor, now));
    }

    method SetApproval(a: Approval, now: int)
      modifies this
      ensures Value() == Approved(old(Value()), a, now)
      ensures Value() == old(Value()).(
        approval := Some(a), policy := old(policy).(approvalId := a.id), updatedAt := now, version := old(version) + 1,
        events := old(events) + [Event(|old(events)| + 1, RunApproved, None, None, "run approved", a.actor, now)])
    {
      approval := Some(a);
      policy := policy.(approvalId := a.id);
      RecordEvent(RunApproved, "run approved", a.actor, now);
    }

    method SetResult(res: RunResult, now: int)
      modifies this
      ensures Value() == Resulted(old(Value()), res, now)
      ensures result.Some? && Value() == old(Value()).(result := result, updatedAt := now, version := old(version) + 1)
      ensures result == Some(res.(summary := result.value.summary, errorMessage := result.value.errorMessage))
      ensures CutTo(res.summary, 4096, result.value.summary)
      ensures CutTo(res.errorMessage, 16384, result.value.errorMessage)
    {
      var summary := BoundedText(res.summary, MAX_SUMMARY_BYTES);
      var message := BoundedText(res.errorMessage, MAX_ERROR_MESSAGE_BYTES);
      result := Some(res.(summary := summary, errorMessage := message));
      updatedAt := now;
      version := version + 1;
    }
  }

  // ---- The event log ----

  /** The status that the first `n` events leave behind. */
  function Replay(events: seq<Event>, n: nat): Option<Status>
    requires n <= |events|
  {
    if n == 0 then None else if events[n - 1].to.Some? then events[n - 1].to else Replay(events, n - 1)
  }

  /** Event `i` follows from the events before it. */
  ghost predicate EventFollows(events: seq<Event>, i: nat)
    requires i < |events|
  {
    var e := events[i];
    && e.sequence == i + 1
    && (e.kind == RunCreated <==> i == 0)
    && (e.to.Some? <==> e.kind == RunCreated || e.kind == StatusChanged)
    && (e.kind == StatusChanged ==>
          && e.from.Some? && Replay(events, i) == e.from && Allowed(e.from.value, e.to.value)
          && (e.from.value == WaitingApproval && e.to.value == Queued ==> i > 0 && events[i - 1].kind == RunApproved))
  }

  /** Status changes recorded so far. */
  function Changes(events: seq<Event>, n: nat): nat
    requires n <= |events|
  {
    if n == 0 then 0 else Changes(events, n - 1) + (if events[n - 1].kind == StatusChanged then 1 else 0)
  }

  /** How many status changes the service can still make. */
  function Rank(s: Status): nat {
    match s
    case Preparing => 4
    case WaitingApproval => 4
    case Queued => 3
    case Validating => 2
    case Running => 1
    case _ => 0
  }

  /** The log is numbered 1..n, its status changes form a path of allowed edges from the
      creation to the present status, and what is left of the rank pays for every change made. */
  ghost predicate History(r: Run) {
    && |r.events| > 0
    && (forall i :: 0 <= i < |r.events| ==> EventFollows(r.events, i))
    && Replay(r.events, |r.events|) == Some(r.status)
    && Changes(r.events, |r.events|) + Rank(r.status) <= 4
  }

  lemma {:induction false} PrefixAgrees(a: seq<Event>, b: seq<Event>, n: nat)
    requires n <= |a| && a <= b
    ensures Replay(a, n) == Replay(b, n) && Changes(a, n) == Changes(b, n)
  {
    if n > 0 {
      PrefixAgrees(a, b, n - 1);
    }
  }

  lemma AppendKeeps(r: Run, e: Event)
    requires |r.events| > 0 && (forall i :: 0 <= i < |r.events| ==> EventFollows(r.events, i))
    requires e.kind != RunCreated && (e.to.Some? <==> e.kind == StatusChanged)
    requires e.kind == StatusChanged ==>
               && e.from.Some? && Replay(r.events, |r.events|) == e.from && Allowed(e.from.value, e.to.value)
               && (e.from.value == WaitingApproval && e.to.value == Queued ==>
                   r.events[|r.events| - 1].kind == RunApproved)
    ensures r.events <= Appended(r, e).events
    ensures forall i :: 0 <= i <= |r.events| ==> EventFollows(Appended(r, e).events, i)
    ensures Replay(Appended(r, e).events, |r.events| + 1) == if e.to.Some? then e.to else Replay(r.events, |r.events|)
    ensures Changes(Appended(r, e).events, |r.events| + 1) ==
            Changes(r.events, |r.events|) + (if e.kind == StatusChanged then 1 else 0)
  {
    var after := Appended(r, e).events;
    forall i | 0 <= i <= |r.events| ensures EventFollows(after, i) {
      PrefixAgrees(r.events, after, i);
      if i < |r.events| {
        assert EventFollows(r.events, i);
      }
    }
    PrefixAgrees(r.events, after, |r.events|);
  }

  lemma NewRunHistory(id: string, terms: Terms, inputs: seq<InputRef>, policy: Policy, initial: Status)
    requires initial == Preparing || initial == Queued || initial == WaitingApproval
    ensures History(NewRun(id, terms, inputs, policy, initial))
  {
    var r := NewRun(id, terms, inputs, policy, initial);
    assert Replay(r.events, 1) == Some(initial) && Changes(r.events, 1) == 0 + Changes(r.events, 0);
  }

  lemma MovedKeeps(r: Run, to: Status, message: string, actor: string, now: int)
    requires History(r) && Moved(r, to, message, actor, now).Ok?
    requires to == r.status || Rank(to) < Rank(r.status)
    requires r.status == WaitingApproval && to == Queued ==> r.events[|r.events| - 1].kind == RunApproved
    ensures History(Moved(r, to, message, actor, now).value)
    ensures r.events <= Moved(r, to, message, actor, now).value.events
  {
    hide Replay, Changes, EventFollows;
    if r.status != to {
      AppendKeeps(r, Event(0, StatusChanged, Some(r.status), Some(to), message, actor, now));
    }
  }

  lemma RecordKeeps(r: Run, kind: EventKind, message: string, actor: string, now: int)
    requires History(r) && kind != RunCreated && kind != StatusChanged
    ensures History(Recorded(r, kind, message, actor, now))
    ensures r.events <= Recorded(r, kind, message, actor, now).events
  {
    AppendKeeps(r, Event(0, kind, None, None, message, actor, now));
  }
}

/** The updates the service applies to a stored run: the closures it passes to the store. */
module RunUpdates {
  import opened Prelude
  import opened Utf8
  import opened Domain
  import opened Runs

  datatype ExecError = NoError | DeadlineExceeded | ContextCanceled | OtherError

  datatype Mutation =
    | Claim(now: int)
    | Begin(executor: string, now: int)
    | Finish(executor: string, outcome: ExecutionResult, err: ExecError, errText: string, now: int)
    | Fail(executor: string, code: string, message: string, now: int)
    | RequestCancel(tenant: string, actor: string, reason: string, now: int)
    | Cancel(tenant: string, executor: string, actor: string, reason: string, now: int)
    | Approve(tenant: string, approval: Approval, now: int)
    | Submit(inputs: seq<InputRef>, submission: Submission, now: int)

  predicate CancelWasRequested(r: Run) {
    exists i :: 0 <= i < |r.events| && r.events[i].kind == CancelRequested
  }

  const NO_RESULT := RunResult("", [], [], [], [], [], [], "", [])
  const FAILED_SUMMARY := Text("\U{8FD0}\U{884C}\U{5931}\U{8D25}\U{3002}")
  const CANCELLED_SUMMARY := Text("\U{8FD0}\U{884C}\U{5DF2}\U{53D6}\U{6D88}\U{3002}")
  const UNFINISHED_SUMMARY := Text("\U{6267}\U{884C}\U{5668}\U{672A}\U{5B8C}\U{6210}\U{8FD0}\U{884C}\U{3002}")

  /** The status in which an executed run ends. */
  function FinalStatus(r: Run, m: Mutation): (s: Status)
    requires m.Finish?
    ensures s.Terminal()
  {
    if m.err == ContextCanceled && CancelWasRequested(r) then Cancelled
    else if m.err != NoError then Failed
    else if m.outcome.status.Terminal() then m.outcome.status
    else Failed
  }

  /** The result with which an executed run ends. */
  function FinalResult(m: Mutation): RunResult
    requires m.Finish?
  {
    var given := m.outcome.result;
    if m.err != NoError then
      given.(
        executor := m.executor,
        errorCode := if m.err == DeadlineExceeded then "executor_timeout"
                     else if m.err == ContextCanceled then "executor_cancelled" else "executor_error",
        errorMessage := Text(m.errText),
        summary := if given.summary == [] then UNFINISHED_SUMMARY else given.summary)
    else if m.outcome.status.Terminal() then given
    else given.(errorCode := "invalid_executor_status", errorMessage := Text("executor returned a non-terminal status"))
  }

  function FailedResult(executor: string, code: string, message: string): RunResult {
    NO_RESULT.(executor := executor, summary := FAILED_SUMMARY, errorCode := code, errorMessage := Text(message))
  }

  function CancelledResult(executor: string, reason: string): RunResult {
    NO_RESULT.(executor := executor, summary := CANCELLED_SUMMARY, errorCode := "cancelled",
               errorMessage := Text(reason))
  }

  function Mutate(m: Mutation, r: Run): Result<Run, Error> {
    match m
    case Claim(now) =>
      if r.status.Terminal() then Ok(r)
      else if r.status != Queued then Err(Conflict)
      else Moved(r, Validating, "worker started deterministic validation", "worker", now)
    case Begin(executor, now) =>
      if r.status.Terminal() then Ok(r)
      else Moved(r, Running, "executor invocation started", executor, now)
    case Finish(executor, _, err, errText, now) =>
      if r.status.Terminal() then Ok(r)
      else
        var message := if err != NoError then errText else "executor invocation completed";
        Moved(Resulted(r, FinalResult(m), now), FinalStatus(r, m), message, executor, now)
    case Fail(executor, code, message, now) =>
      if r.status.Terminal() then Ok(r)
      else Moved(Resulted(r, FailedResult(executor, code, message), now), Failed, message, "system", now)
    case RequestCancel(tenant, actor, reason, now) =>
      if r.Tenant() != tenant then Err(NotFound)
      else if r.status.Terminal() then Ok(r)
      else Ok(Recorded(r, CancelRequested, reason, actor, now))
    case Cancel(tenant, executor, actor, reason, now) =>
      if r.Tenant() != tenant then Err(NotFound)
      else if r.status.Terminal() then Ok(r)
      else Moved(Resulted(r, CancelledResult(executor, reason), now), Cancelled, reason, actor, now)
    case Approve(tenant, approval, now) =>
      if r.Tenant() != tenant then Err(NotFound)
      else if r.status != WaitingApproval then Err(Conflict)
      else Moved(Approved(r, approval, now), Queued, "approved run queued", approval.actor, now)
    case Submit(inputs, submission, now) =>
      if r.status != Preparing || r.submission.Some? then Err(Conflict)
      else Moved(r.(inputs := inputs, submission := Some(submission)), Queued, "validated input submitted", "api", now)
  }

  // ---- What each update writes ----

  /** Approvals and cancellations of another tenant find no run. */
  lemma ForeignTenantRefused(m: Mutation, r: Run)
    requires (m.Approve? || m.RequestCancel? || m.Cancel?) && m.tenant != r.terms.scope.tenantId
    ensures Mutate(m, r) == Err(NotFound)
  {
  }

  /** A worker takes up what is queued; an ended run is left alone. */
  lemma ClaimWrites(now: int, r: Run)
    ensures r.status == Queued ==>
      Mutate(Claim(now), r) == Ok(r.(
        status := Validating, updatedAt := now, version := r.version + 1,
        events := r.events + [Event(|r.events| + 1, StatusChanged, Some(Queued), Some(Validating),
                                    "worker started deterministic validation", "worker", now)]))
    ensures r.status in {Succeeded, Partial, Failed, Cancelled} ==> Mutate(Claim(now), r) == Ok(r)
    ensures r.status in {Preparing, Validating, WaitingApproval, Running} ==> Mutate(Claim(now), r) == Err(Conflict)
  {
  }

  /** It begins what it has validated; the time of the first beginning stays. */
  lemma BeginWrites(executor: string, now: int, r: Run)
    ensures r.status == Validating ==>
      Mutate(Begin(executor, now), r) == Ok(r.(
        status := Running, updatedAt := now, version := r.version + 1,
        startedAt := if r.startedAt == None then Some(now) else r.startedAt,
        events := r.events + [Event(|r.events| + 1, StatusChanged, Some(Validating), Some(Running),
                                    "executor invocation started", executor, now)]))
    ensures r.status in {Succeeded, Partial, Failed, Cancelled, Running} ==> Mutate(Begin(executor, now), r) == Ok(r)
    ensures r.status in {Preparing, Queued, WaitingApproval} ==>
        Mutate(Begin(executor, now), r) == Err(InvalidTransition)
  {
  }

  /** An approval counts for the run's own tenant and while the run waits for it. */
  lemma ApproveWrites(tenant: string, a: Approval, now: int, r: Run)
    ensures tenant == r.terms.scope.tenantId && r.status == WaitingApproval ==>
      Mutate(Approve(tenant, a, now), r) == Ok(r.(
        approval := Some(a), policy := r.policy.(approvalId := a.id), status := Queued, updatedAt := now,
        version := r.version + 2,
        events := r.events
          + [Event(|r.events| + 1, RunApproved, None, None, "run approved", a.actor, now),
             Event(|r.events| + 2, StatusChanged, Some(WaitingApproval), Some(Queued), "approved run queued", a.actor,
                   now)]))
    ensures tenant == r.terms.scope.tenantId && r.status != WaitingApproval ==>
      Mutate(Approve(tenant, a, now), r) == Err(Conflict)
  {
    var first, second :=
      Event(|r.events| + 1, RunApproved, None, None, "run approved", a.actor, now),
      Event(|r.events| + 2, StatusChanged, Some(WaitingApproval), Some(Queued), "approved run queued", a.actor, now);
    assert r.events + [first] + [second] == r.events + [first, second];
  }

  /** A submission enters once, while the run is prepared. */
  lemma SubmitWrites(inputs: seq<InputRef>, submission: Submission, now: int, r: Run)
    ensures r.status == Preparing && r.submission == None ==>
      Mutate(Submit(inputs, submission, now), r) == Ok(r.(
        inputs := inputs, submission := Some(submission), status := Queued, updatedAt := now, version := r.version + 1,
        events := r.events + [Event(|r.events| + 1, StatusChanged, Some(Preparing), Some(Queued),
                                    "validated input submitted", "api", now)]))
    ensures r.status != Preparing || r.submission != None ==>
      Mutate(Submit(inputs, submission, now), r) == Err(Conflict)
  {
  }

  /** A request to an executing run is noted in its log alone. */
  lemma RequestCancelWrites(tenant: string, actor: string, reason: string, now: int, r: Run)
    requires tenant == r.terms.scope.tenantId
    ensures Mutate(RequestCancel(tenant, actor, reason, now), r) ==
      if r.status in {Succeeded, Partial, Failed, Cancelled} then Ok(r)
      else Ok(r.(updatedAt := now, version := r.version + 1,
                 events := r.events + [Event(|r.events| + 1, CancelRequested, None, None, reason, actor, now)]))
  {
  }

  /** The record of a run that ended now, with this status, code and message, and all else as it was. */
  ghost predicate EndedNow(r: Run, after: Run, to: Status, message: string, actor: string, now: int) {
    && after.result.Some?
    && after == r.(
         status := to, result := after.result, updatedAt := now, completedAt := Some(now), version := r.version + 2,
         events := r.events + [Event(|r.events| + 1, StatusChanged, Some(r.status), Some(to), message, actor, now)])
  }

  /** A failed run says which check failed; one that is still prepared cannot fail. */
  lemma FailWrites(executor: string, code: string, message: string, now: int, r: Run)
    requires r.status !in {Succeeded, Partial, Failed, Cancelled}
    ensures r.status == Preparing ==> Mutate(Fail(executor, code, message, now), r) == Err(InvalidTransition)
    ensures r.status != Preparing ==>
      && Mutate(Fail(executor, code, message, now), r).Ok?
      && var after := Mutate(Fail(executor, code, message, now), r).value;
         && EndedNow(r, after, Failed, message, "system", now)
         && after.result.value.executor == executor && after.result.value.errorCode == code
         && CutTo(Text(message), 16384, after.result.value.errorMessage)
         && after.result.value.rawOutput == [] && after.result.value.findings == []
  {
    hide Text;
    BoundedCuts(FailedResult(executor, code, message));
  }

  lemma CancelWrites(tenant: string, executor: string, actor: string, reason: string, now: int, r: Run)
    requires tenant == r.terms.scope.tenantId
    ensures r.status in {Succeeded, Partial, Failed, Cancelled} ==>
      Mutate(Cancel(tenant, executor, actor, reason, now), r) == Ok(r)
    ensures r.status !in {Succeeded, Partial, Failed, Cancelled} ==>
      && Mutate(Cancel(tenant, executor, actor, reason, now), r).Ok?
      && var after := Mutate(Cancel(tenant, executor, actor, reason, now), r).value;
         && EndedNow(r, after, Cancelled, reason, actor, now)
         && after.result.value.executor == executor && after.result.value.errorCode == "cancelled"
         && CutTo(Text(reason), 16384, after.result.value.errorMessage)
         && after.result.value.rawOutput == [] && after.result.value.findings == []
  {
    hide Text;
    BoundedCuts(CancelledResult(executor, reason));
  }

  /** How an execution ends: with what the executor returned, or with the code and the status of what went wrong. */
  lemma FinishWrites(m: Mutation, r: Run)
    requires m.Finish? && r.status == Running
    ensures Mutate(m, r).Ok? && Mutate(m, r).value.result.Some?
    ensures var after, given := Mutate(m, r).value, m.outcome.result;
      var stored := after.result.value;
      && EndedNow(r, after, after.status, if m.err == NoError then "executor invocation completed" else m.errText,
                  m.executor, m.now)
      && stored == given.(executor := stored.executor, summary := stored.summary, errorCode := stored.errorCode,
                          errorMessage := stored.errorMessage)
      && (m.err == NoError && m.outcome.status in {Succeeded, Partial, Failed, Cancelled} ==>
            && after.status == m.outcome.status && stored.executor == given.executor
            && stored.errorCode == given.errorCode && CutTo(given.summary, 4096, stored.summary)
            && CutTo(given.errorMessage, 16384, stored.errorMessage))
      && (m.err == NoError && m.outcome.status !in {Succeeded, Partial, Failed, Cancelled} ==>
            after.status == Failed && stored.errorCode == "invalid_executor_status")
      && (m.err != NoError ==>
            && stored.executor == m.executor && CutTo(Text(m.errText), 16384, stored.errorMessage)
            && (after.status == Cancelled || after.status == Failed))
      && (m.err == DeadlineExceeded ==> after.status == Failed && stored.errorCode == "executor_timeout")
      && (m.err == ContextCanceled ==>
            && stored.errorCode == "executor_cancelled"
            && (after.status == Cancelled <==>
                  exists i :: 0 <= i < |r.events| && r.events[i].kind == CancelRequested))
      && (m.err == OtherError ==> after.status == Failed && stored.errorCode == "executor_error")
  {
    hide Text;
    BoundedCuts(FinalResult(m));
  }

  lemma BoundedCuts(result: RunResult)
    ensures CutTo(result.summary, 4096, Bounded(result.summary, MAX_SUMMARY_BYTES))
    ensures CutTo(result.errorMessage, 16384, Bounded(result.errorMessage, MAX_ERROR_MESSAGE_BYTES))
  {
    hide Bounded, LongestValidPrefix;
    if |result.summary| > 4096 {
      BoundedIsLongestValidPrefix(result.summary, 4096);
    } else {
      BoundedShort(result.summary, 4096);
    }
    if |result.errorMessage| > 16384 {
      BoundedIsLongestValidPrefix(result.errorMessage, 16384);
    } else {
      BoundedShort(result.errorMessage, 16384);
    }
  }

  lemma BoundedShort(text: Bytes, limit: int)
    requires |text| <= limit
    ensures Bounded(text, limit) == text
  {
  }

  /** The statuses each update leads to. */
  function Target(m: Mutation, r: Run): Status {
    if r.status.Terminal() && !m.Approve? && !m.Submit? then r.status
    else match m
      case Claim(_) => Validating
      case Begin(_, _) => Running
      case Finish(_, _, _, _, _) => FinalStatus(r, m)
      case Fail(_, _, _, _) => Failed
      case RequestCancel(_, _, _, _) => r.status
      case Cancel(_, _, _, _, _) => Cancelled
      case Approve(_, _, _) => Queued
      case Submit(_, _, _) => Queued
  }

  /** Everything but the submission keeps what a submission depends on. */
  ghost predicate SameInput(r: Run, after: Run) {
    && after.id == r.id && after.terms == r.terms && after.inputs == r.inputs && after.submission == r.submission
    && after.policy == r.policy.(approvalId := after.policy.approvalId)
  }

  /** Which status an accepted update leaves, and that it strictly lowers the rank when it changes it. */
  lemma MutateStatus(m: Mutation, r: Run)
    requires Mutate(m, r).Ok?
    ensures Mutate(m, r).value.status == Target(m, r)
    ensures Target(m, r) == r.status || (Allowed(r.status, Target(m, r)) && Rank(Target(m, r)) < Rank(r.status))
    ensures Target(m, r) == WaitingApproval || Target(m, r) == Preparing ==> r.status == Target(m, r)
    ensures r.status.Terminal() ==> Mutate(m, r).value == r
  {
    hide FinalResult, FailedResult, CancelledResult, BoundResult;
  }

  /** No update but a submission touches the inputs, the manifest, the fingerprint, the scope or the frozen policy. */
  lemma MutateFrame(m: Mutation, r: Run)
    requires Mutate(m, r).Ok?
    ensures !m.Submit? ==> SameInput(r, Mutate(m, r).value)
    ensures m.Submit? ==> SameInput(r.(inputs := m.inputs, submission := Some(m.submission)), Mutate(m, r).value)
  {
    hide FinalStatus, FinalResult, FailedResult, CancelledResult, Allowed, BoundResult;
    match m
    case Claim(_) =>
    case Begin(_, _) =>
    case Finish(_, _, _, _, _) =>
    case Fail(_, _, _, _) =>
    case RequestCancel(_, _, _, _) =>
    case Cancel(_, _, _, _, _) =>
    case Approve(_, _, _) =>
    case Submit(_, _, _) =>
  }

  lemma EndHistory(r: Run, result: RunResult, to: Status, message: string, actor: string, now: int)
    requires History(r) && to.Terminal() && !r.status.Terminal()
    requires Moved(Resulted(r, result, now), to, message, actor, now).Ok?
    ensures History(Moved(Resulted(r, result, now), to, message, actor, now).value)
    ensures r.events <= Moved(Resulted(r, result, now), to, message, actor, now).value.events
  {
    MovedKeeps(Resulted(r, result, now), to, message, actor, now);
  }

  lemma ApproveHistory(r: Run, approval: Approval, now: int)
    requires History(r) && r.status == WaitingApproval
    ensures Moved(Approved(r, approval, now), Queued, "approved run queued", approval.actor, now).Ok?
    ensures History(Moved(Approved(r, approval, now), Queued, "approved run queued", approval.actor, now).value)
    ensures r.events <= Moved(Approved(r, approval, now), Queued, "approved run queued", approval.actor,
                              now).value.events
  {
    RecordKeeps(r.(approval := Some(approval), policy := r.policy.(approvalId := approval.id)),
                RunApproved, "run approved", approval.actor, now);
    MovedKeeps(Approved(r, approval, now), Queued, "approved run queued", approval.actor, now);
  }

  /** Every update extends the log and keeps it a faithful account of the status. */
  lemma MutateHistory(m: Mutation, r: Run)
    requires History(r) && Mutate(m, r).Ok?
    ensures History(Mutate(m, r).value)
    ensures r.events <= Mutate(m, r).value.events
  {
    hide EventFollows, FinalResult, FailedResult, CancelledResult, BoundResult, Moved;
    if !r.status.Terminal() || m.Approve? || m.Submit? {
      match m {
        case Claim(now) =>
          MovedKeeps(r, Validating, "worker started deterministic validation", "worker", now);
        case Begin(executor, now) =>
          MovedKeeps(r, Running, "executor invocation started", executor, now);
        case Finish(executor, _, err, errText, now) =>
          var message := if err != NoError then errText else "executor invocation completed";
          EndHistory(r, FinalResult(m), FinalStatus(r, m), message, executor, now);
        case Fail(executor, code, message, now) =>
          EndHistory(r, FailedResult(executor, code, message), Failed, message, "system", now);
        case RequestCancel(_, actor, reason, now) =>
          RecordKeeps(r, CancelRequested, reason, actor, now);
        case Cancel(_, executor, actor, reason, now) =>
          EndHistory(r, CancelledResult(executor, reason), Cancelled, reason, actor, now);
        case Approve(_, approval, now) =>
          ApproveHistory(r, approval, now);
        case Submit(inputs, submission, now) =>
          MovedKeeps(r.(inputs := inputs, submission := Some(submission)), Queued, "validated input submitted", "api",
                     now);
      }
    }
  }

  /** How a running run ends, and with which result. */
  lemma FinishStores(m: Mutation, r: Run)
    requires m.Finish? && r.status == Running
    ensures Mutate(m, r).Ok? && Mutate(m, r).value.status == FinalStatus(r, m)
    ensures Mutate(m, r).value.result == Some(BoundResult(FinalResult(m)))
    ensures FinalStatus(r, m) == Succeeded || FinalStatus(r, m) == Partial ==>
              m.err == NoError && m.outcome.status == FinalStatus(r, m) && FinalResult(m) == m.outcome.result
  {
    hide BoundResult, CancelWasRequested;
  }

  /** The end of an execution keeps its raw output. */
  lemma FinishKeepsRaw(m: Mutation)
    requires m.Finish?
    ensures BoundResult(FinalResult(m)).rawOutput == m.outcome.result.rawOutput
  {
    hide Bounded;
  }

  /** The record an update leaves can be encoded: only the end of an execution brings raw output into one. */
  predicate LeavesText(isJson: Bytes -> bool, m: Mutation, r: Run) {
    match m
    case Finish(_, outcome, _, _, _) => r.status.Terminal() || Encodes(isJson, outcome.result)
    case _ => true
  }

  lemma EncodesExactly(isJson: Bytes -> bool, m: Mutation, r: Run)
    requires Mutate(m, r).Ok? && Encodable(isJson, r)
    ensures Encodable(isJson, Mutate(m, r).value) <==> LeavesText(isJson, m, r)
  {
    hide Bounded, Allowed, CancelWasRequested;
  }

  /** Only an approval by the run's own tenant brings an approval into a record. */
  lemma ApprovalsKept(m: Mutation, r: Run, after: Run)
    requires Mutate(m, r) == Ok(after)
    ensures if m.Approve? then m.tenant == r.terms.scope.tenantId && after.approval == Some(m.approval)
            else after.approval == r.approval
  {
    hide FinalStatus, FinalResult, FailedResult, CancelledResult, BoundResult, Allowed;
  }

  /** Only a caller's request enters a request into the log. */
  lemma RequestsKept(m: Mutation, r: Run)
    requires Mutate(m, r).Ok? && !m.RequestCancel?
    ensures CancelWasRequested(Mutate(m, r).value) <==> CancelWasRequested(r)
  {
    hide FinalStatus, FinalResult, FailedResult, CancelledResult, BoundResult, Allowed;
    var events := Mutate(m, r).value.events;
    assert events == r.events || (|events| > |r.events| && events[..|r.events|] == r.events);
    assert forall i :: |r.events| <= i < |events| ==> events[i].kind != CancelRequested;
    assert forall i :: 0 <= i < |r.events| ==> events[i] == r.events[i];
  }

  /** The update leaves a run cancelled: a cancellation does, and the end of an execution that was interrupted, if the
      log holds the request, or that says so itself. */
  predicate Cancels(m: Mutation, after: Run) {
    match m
    case Cancel(_, _, _, _, _) => true
    case Finish(_, outcome, err, _, _) =>
      if err == NoError then outcome.status == Cancelled else err == ContextCanceled && CancelWasRequested(after)
    case _ => false
  }

  lemma CancelledExactly(m: Mutation, r: Run, after: Run)
    requires Mutate(m, r) == Ok(after) && after != r
    ensures after.status == Cancelled <==> Cancels(m, after)
  {
    hide Mutate, CancelWasRequested;
    MutateStatus(m, r);
    if !m.RequestCancel? {
      RequestsKept(m, r);
    }
  }

  // ---- The updates as they work on the record ----

  /** Sets a result and ends the run. */
  method EndWith(r: RunRecord, result: RunResult, to: Status, message: string, actor: string, now: int)
    returns (ok: bool)
    modifies r
    ensures ok ==> Moved(Resulted(old(r.Value()), result, now), to, message, actor, now) == Ok(r.Value())
    ensures !ok ==> Moved(Resulted(old(r.Value()), result, now), to, message, actor, now) == Err(InvalidTransition)
  {
    hide Moved, Resulted;
    r.SetResult(result, now);
    ok := r.Transition(to, message, actor, now);
    OnlyInvalidEver();
  }

  lemma OnlyInvalidEver()
    ensures forall r, to, message, actor, now :: Moved(r, to, message, actor, now).Err? ==>
        Moved(r, to, message, actor, now) == Err(InvalidTransition)
  {
  }

  method Requested(r: RunRecord) returns (requested: bool)
    ensures requested == CancelWasRequested(r.Value())
  {
    for i := 0 to |r.events|
      invariant forall k :: 0 <= k < i ==> r.events[k].kind != CancelRequested
    {
      if r.events[i].kind == CancelRequested {
        return true;
      }
    }
    return false;
  }

  method EndStatus(m: Mutation, r: RunRecord) returns (to: Status)
    requires m.Finish?
    ensures to == FinalStatus(r.Value(), m)
  {
    hide CancelWasRequested;
    var requested := Requested(r);
    return if m.err == ContextCanceled && requested then Cancelled
           else if m.err != NoError || !m.outcome.status.Terminal() then Failed else m.outcome.status;
  }

  /** Taking a run up: the first two closures of the worker. */
  method ApplyTake(m: Mutation, r: RunRecord) returns (e: Option<Error>)
    requires m.Claim? || m.Begin?
    modifies r
    ensures e.None? ==> Mutate(m, old(r.Value())) == Ok(r.Value())
    ensures e.Some? ==> Mutate(m, old(r.Value())) == Err(e.value)
  {
    hide Moved, Allowed, FinalStatus, FinalResult, FailedResult, CancelledResult, Resulted, Recorded, Approved;
    if r.status.Terminal() {
      return None;
    }
    OnlyInvalidEver();
    var ok := true;
    match m {
      case Claim(now) =>
        if r.status != Queued {
          return Some(Conflict);
        }
        ok := r.Transition(Validating, "worker started deterministic validation", "worker", now);
      case Begin(executor, now) =>
        ok := r.Transition(Running, "executor invocation started", executor, now);
    }
    return if ok then None else Some(InvalidTransition);
  }

  /** Ending a run: after execution, or by a failure before it. */
  method ApplyEnd(m: Mutation, r: RunRecord) returns (e: Option<Error>)
    requires m.Finish? || m.Fail?
    modifies r
    ensures e.None? ==> Mutate(m, old(r.Value())) == Ok(r.Value())
    ensures e.Some? ==> Mutate(m, old(r.Value())) == Err(e.value)
  {
    hide Moved, Resulted, FinalResult, FinalStatus, FailedResult, Allowed, BoundResult;
    if r.status.Terminal() {
      return None;
    }
    OnlyInvalidEver();
    var ok := true;
    match m {
      case Finish(executor, _, err, errText, now) =>
        var to := EndStatus(m, r);
        ok := EndWith(r, FinalResult(m), to, if err != NoError then errText
                      else "executor invocation completed", executor, now);
      case Fail(executor, code, message, now) =>
        ok := EndWith(r, FailedResult(executor, code, message), Failed, message, "system", now);
    }
    return if ok then None else Some(InvalidTransition);
  }

  /** The two forms of cancellation. */
  method ApplyCancel(m: Mutation, r: RunRecord) returns (e: Option<Error>)
    requires m.RequestCancel? || m.Cancel?
    modifies r
    ensures e.None? ==> Mutate(m, old(r.Value())) == Ok(r.Value())
    ensures e.Some? ==> Mutate(m, old(r.Value())) == Err(e.value)
    ensures m.tenant != r.terms.scope.tenantId ==> e == Some(NotFound) && r.Value() == old(r.Value())
  {
    hide Moved, Resulted, Recorded, CancelledResult, Allowed, BoundResult;
    if r.terms.scope.tenantId != m.tenant {
      return Some(NotFound);
    }
    OnlyInvalidEver();
    var ok := true;
    match m {
      case RequestCancel(_, actor, reason, now) =>
        if !r.status.Terminal() {
          r.RecordEvent(CancelRequested, reason, actor, now);
        }
      case Cancel(_, executor, actor, reason, now) =>
        if !r.status.Terminal() {
          ok := EndWith(r, CancelledResult(executor, reason), Cancelled, reason, actor, now);
        }
    }
    return if ok then None else Some(InvalidTransition);
  }

  /** The closures that queue a run. */
  method ApplyQueue(m: Mutation, r: RunRecord) returns (e: Option<Error>)
    requires m.Approve? || m.Submit?
    modifies r
    ensures e.None? ==> Mutate(m, old(r.Value())) == Ok(r.Value())
    ensures e.Some? ==> Mutate(m, old(r.Value())) == Err(e.value)
    ensures m.Approve? && m.tenant != r.terms.scope.tenantId ==> e == Some(NotFound) && r.Value() == old(r.Value())
  {
    hide Moved, Approved, Allowed;
    OnlyInvalidEver();
    var ok := true;
    match m {
      case Approve(tenant, approval, now) =>
        if r.terms.scope.tenantId != tenant {
          return Some(NotFound);
        }
        if r.status != WaitingApproval {
          return Some(Conflict);
        }
        r.SetApproval(approval, now);
        ok := r.Transition(Queued, "approved run queued", approval.actor, now);
      case Submit(inputs, submission, now) =>
        if r.status != Preparing || r.submission.Some? {
          return Some(Conflict);
        }
        r.inputs := inputs;
        r.submission := Some(submission);
        ok := r.Transition(Queued, "validated input submitted", "api", now);
    }
    return if ok then None else Some(InvalidTransition);
  }

  /** Runs the closure of an update on the working copy of a record. An approval or cancellation by another tenant finds
      no run and changes nothing. */
  method Apply(m: Mutation, r: RunRecord) returns (e: Option<Error>)
    modifies r
    ensures e.None? ==> Mutate(m, old(r.Value())) == Ok(r.Value())
    ensures e.Some? ==> Mutate(m, old(r.Value())) == Err(e.value)
    ensures (m.Approve? || m.RequestCancel? || m.Cancel?) && m.tenant != r.terms.scope.tenantId ==>
        e == Some(NotFound) && r.Value() == old(r.Value())
  {
    hide Mutate;
    if m.Claim? || m.Begin? {
      e := ApplyTake(m, r);
    } else if m.Finish? || m.Fail? {
      e := ApplyEnd(m, r);
    } else if m.RequestCancel? || m.Cancel? {
      e := ApplyCancel(m, r);
    } else {
      e := ApplyQueue(m, r);
    }
  }
}
