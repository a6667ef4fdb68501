/** The agent-compose adapter: what it makes of a finished child process, and what survives the gate. */
module Adapter {
  import opened Prelude
  import opened Utf8
  import opened Domain
  import opened Strings
  import opened RunUpdates
  import opened Contracts
  import G = Gate

  const NAME := "agentcompose-cli"
  const UNAVAILABLE := 3
  const PROVIDERS := {"codex", "claude", "gemini", "opencode", "pi", "dsh"}

  // ---- Captured output ----

  /** Keeps the first `limit` bytes written to it. */
  class CappedBuffer {
    const limit: nat
    var buf: Bytes
    var truncated: bool
    ghost var written: Bytes

    ghost predicate Valid() reads this {
      buf == (if |written| <= limit then written else written[..limit]) && (truncated <==> |written| > limit)
    }

    constructor (limit: nat)
      ensures Valid() && written == [] && this.limit == limit
    {
      this.limit, buf, truncated, written := limit, [], false, [];
    }

    /** Claims to have taken all of `p`, so the child is never blocked. */
    method Write(p: Bytes) returns (n: nat)
      requires Valid()
      modifies this
      ensures Valid() && n == |p| && written == old(written) + p
    {
      n := |p|;
      written := written + p;
      if |p| == 0 {
        return;
      }
      if |buf| >= limit {
        truncated := true;
        return;
      }
      if |p| > limit - |buf| {
        buf := buf + p[..limit - |buf|];
        truncated := true;
      } else {
        buf := buf + p;
      }
    }
  }

  // ---- The runtime envelope ----

  /** The JSON decoder on bytes and on the text of a string field, and the typed decoding of the fields not named
      here. */
  datatype Decoder = Decoder(document: Bytes -> Option<Json>, text: string -> Option<Json>, otherFieldsOk: Json -> bool)

  datatype Envelope = Envelope(status: string, exitCode: int, error: string)

  datatype RuntimeResult = RuntimeResult(provider: string, finalText: string, finalTextSource: string)

  /** A string field; absent and null read as the empty string. */
  function TextField(v: Json, k: string): Option<string> {
    if !v.Object? || k !in v.fields || v.fields[k].Null? then Some("")
    else if v.fields[k].Str? then Some(v.fields[k].s) else None
  }

  predicate IsInt32(n: real) { n == n.Floor as real && -2147483648 <= n.Floor <= 2147483647 }

  function IntField(v: Json, k: string): Option<int> {
    if !v.Object? || k !in v.fields || v.fields[k].Null? then Some(0)
    else if v.fields[k].Number? && IsInt32(v.fields[k].n) then Some(v.fields[k].n.Floor) else None
  }

  function DecodeEnvelope(d: Decoder, raw: Bytes): Option<Envelope> {
    match d.document(raw)
    case None => None
    case Some(v) =>
      if !v.Object? && !v.Null? then None
      else if TextField(v, "status").None? || IntField(v, "exit_code").None? || TextField(v, "error").None? ||
          !d.otherFieldsOk(v) then None
      else Some(Envelope(TextField(v, "status").value, IntField(v, "exit_code").value, TextField(v, "error").value))
  }

  /** The provider result: an object, or the text of one. */
  function ResultObject(d: Decoder, v: Json): Option<Json> {
    if !v.Object? || "result_json" !in v.fields then None
    else
      var inner := if v.fields["result_json"].Str? then d.text(v.fields["result_json"].s)
          else Some(v.fields["result_json"]);
      if inner.Some? && inner.value.Object? then inner else None
  }

  function DecodeResult(v: Json): Option<RuntimeResult> {
    if !v.Object? || "finalText" !in v.fields then None
    else if exists k ::
        k in {"provider", "threadId", "stopReason", "finalText", "finalTextSource", "transcript", "stderr"} &&
            TextField(v, k).None? then None
    else
      var r := RuntimeResult(TextField(v, "provider").value, TextField(v, "finalText").value,
                             TextField(v, "finalTextSource").value);
      if Blank(r.finalText) then None else Some(r)
  }

  function ParseRuntimeEnvelope(d: Decoder, raw: Bytes): Option<(Envelope, RuntimeResult)> {
    match DecodeEnvelope(d, raw)
    case None => None
    case Some(e) =>
      var v := d.document(raw).value;
      if !v.Object? || "status" !in v.fields || "exit_code" !in v.fields || v.fields["exit_code"].Null? ||
          Blank(e.status) then None
      else match ResultObject(d, v)
        case None => None
        case Some(inner) => if DecodeResult(inner).Some? then Some((e, DecodeResult(inner).value)) else None
  }

  function RuntimeStatus(e: Envelope): Status {
    var status := ToLower(TrimSpace(e.status));
    if status == "canceled" || status == "cancelled" then Cancelled
    else if e.exitCode != 0 || !Blank(e.error) then Failed
    else if status == "completed" || status == "succeeded" || status == "success" then Succeeded
    else if status == "partial" then Partial
    else Failed
  }

  // ---- What the envelope says ----

  /** A field that is absent or null reads as empty. */
  predicate ReadsText(v: Json, k: string, s: string) {
    match v
    case Object(fields) => if k in fields && fields[k] != Null then fields[k] == Str(s) else s == ""
    case _ => s == ""
  }

  predicate ReadsInt(v: Json, k: string, n: int) {
    match v
    case Object(fields) =>
      if k in fields && fields[k] != Null then fields[k] == Number(n as real) && -0x8000_0000 <= n < 0x8000_0000
      else n == 0
    case _ => n == 0
  }

  /** The output is an envelope with this status, exit code and error exactly if it decodes to an object, or to null,
      whose fields read so. */
  lemma EnvelopeFields(d: Decoder, raw: Bytes, e: Envelope)
    ensures DecodeEnvelope(d, raw) == Some(e) <==> IsEnvelope(d, raw, e)
  {
    if d.document(raw).Some? {
      var v := d.document(raw).value;
      assert IntField(v, "exit_code") == Some(e.exitCode) <==> ReadsInt(v, "exit_code", e.exitCode);
    }
  }

  predicate IsEnvelope(d: Decoder, raw: Bytes, e: Envelope) {
    match d.document(raw)
    case None => false
    case Some(v) =>
      && (v.Object? || v.Null?) && d.otherFieldsOk(v)
      && ReadsText(v, "status", e.status) && ReadsInt(v, "exit_code", e.exitCode) && ReadsText(v, "error", e.error)
  }

  /** A provider's result came with the envelope exactly if status and exit code are there and the result, an object
      or the text of one, names its provider, its source and a final text that is not blank. */
  lemma ProviderFields(d: Decoder, raw: Bytes, e: Envelope, r: RuntimeResult)
    ensures ParseRuntimeEnvelope(d, raw) == Some((e, r)) <==>
              DecodeEnvelope(d, raw) == Some(e) && !Blank(e.status) && HasProvider(d, raw, r)
  {
    hide DecodeEnvelope, Blank, IntField;
    ParsedIsDecoded(d, raw);
    DocumentFirst(d, raw);
    if d.document(raw).Some? && ResultObject(d, d.document(raw).value).Some? {
      ResultFields(ResultObject(d, d.document(raw).value).value, r);
    }
  }

  lemma DocumentFirst(d: Decoder, raw: Bytes)
    ensures d.document(raw).None? ==> DecodeEnvelope(d, raw).None?
  {
  }

  ghost predicate HasProvider(d: Decoder, raw: Bytes, r: RuntimeResult) {
    match d.document(raw)
    case Some(Object(fields)) =>
      && "status" in fields && "exit_code" in fields && fields["exit_code"] != Null && "result_json" in fields
      && (match fields["result_json"]
          case Str(text) => (match d.text(text) case Some(v) => IsResult(v, r) case None => false)
          case v => IsResult(v, r))
    case _ => false
  }

  ghost predicate IsResult(v: Json, r: RuntimeResult) {
    && v.Object? && "finalText" in v.fields && !Blank(r.finalText)
    && ReadsText(v, "provider", r.provider) && ReadsText(v, "finalText", r.finalText)
    && ReadsText(v, "finalTextSource", r.finalTextSource)
    && IsText(v, "threadId") && IsText(v, "stopReason") && IsText(v, "transcript") && IsText(v, "stderr")
  }

  ghost predicate IsText(v: Json, k: string) { exists s: string :: ReadsText(v, k, s) }

  lemma TextReads(v: Json, k: string)
    ensures forall s: string :: ReadsText(v, k, s) <==> TextField(v, k) == Some(s)
    ensures IsText(v, k) <==> TextField(v, k).Some?
  {
    assert TextField(v, k).Some? ==> ReadsText(v, k, TextField(v, k).value);
  }

  lemma ResultFields(v: Json, r: RuntimeResult)
    ensures v.Object? ==> (DecodeResult(v) == Some(r) <==> IsResult(v, r))
  {
    hide TextField, ReadsText, IsText, Blank;
    TextReads(v, "provider");
    TextReads(v, "threadId");
    TextReads(v, "stopReason");
    TextReads(v, "finalText");
    TextReads(v, "finalTextSource");
    TextReads(v, "transcript");
    TextReads(v, "stderr");
  }

  /** A cancellation outweighs the exit code and the error text, and these outweigh a reported success. */
  lemma StatusMeans(e: Envelope)
    ensures var said := ToLower(TrimSpace(e.status));
      && (RuntimeStatus(e) == Cancelled <==> said == "canceled" || said == "cancelled")
      && (RuntimeStatus(e) == Succeeded <==>
            said in {"completed", "succeeded", "success"} && e.exitCode == 0 && Blank(e.error))
      && (RuntimeStatus(e) == Partial <==> said == "partial" && e.exitCode == 0 && Blank(e.error))
      && RuntimeStatus(e) in {Cancelled, Succeeded, Partial, Failed}
  {
    hide TrimSpace, ToLower;
  }

  // ---- Execute ----

  datatype Context = Live | Expired | Ended

  datatype Exit = Clean | Exited(code: int) | NotStarted

  /** A child process that is over: what it printed (its standard error without white space at the ends), whether
      a capture was cut, how the context and the process ended, and whether its artifacts could be stored. */
  datatype Process = Process(
    stdout: Bytes, stderr: Bytes, truncated: bool, context: Context, exit: Exit, stored: bool,
        artifacts: seq<ArtifactRef>)

  function Trusted(parsed: Option<(Envelope, RuntimeResult)>): bool {
    parsed.Some? && parsed.value.1.provider in PROVIDERS && parsed.value.1.finalTextSource == "provider_message"
  }

  function Message(given: Bytes, otherwise: string): Bytes {
    var bounded := Bounded(given, MAX_ERROR_MESSAGE_BYTES);
    if bounded == [] then Text(otherwise) else bounded
  }

  /** The process came to an end that allows a conclusion. */
  predicate EndedWell(p: Process) {
    p.stored && p.context.Live? && p.exit.Clean? && !p.truncated
  }

  predicate Success(s: Status) { s == Succeeded || s == Partial }

  /** What the output says of the run; output that is no envelope counts as success and is left to the gate. */
  function Reported(d: Decoder, raw: Bytes): Status {
    if DecodeEnvelope(d, raw).None? then Succeeded else RuntimeStatus(DecodeEnvelope(d, raw).value)
  }

  /** This is the final text that one of the known providers gave as its own message. */
  ghost predicate Spoken(d: Decoder, raw: Bytes, text: Bytes) {
    match ParseRuntimeEnvelope(d, raw)
    case Some((_, r)) =>
      && r.provider in {"codex", "claude", "gemini", "opencode", "pi", "dsh"}
      && r.finalTextSource == "provider_message" && text == Text(r.finalText)
    case None => false
  }

  method Execute(d: Decoder, p: Process) returns (r: ExecutionResult, err: ExecError)
    ensures err == NoError ==> r.status.Terminal()
    // The business output is the provider's final text or nothing: the text of a known provider's own message.
    ensures r.result.rawOutput != [] ==> !p.truncated && Spoken(d, p.stdout, r.result.rawOutput)
    ensures p.stored && !p.truncated && (!p.context.Live? || !p.exit.NotStarted?) ==>
      forall text :: Spoken(d, p.stdout, text) ==> r.result.rawOutput == text
    // Success is reported exactly after a clean end whose output is no envelope at all or an envelope that says so,
    // whether or not the envelope holds a provider's result.
    ensures err == NoError && Success(r.status) <==> EndedWell(p) && Success(Reported(d, p.stdout))
    ensures err == NoError && Success(r.status) ==> r.status == Reported(d, p.stdout)
    ensures ParseRuntimeEnvelope(d, p.stdout).None? ==> r.result.rawOutput == []
    ensures p.context.Expired? && p.stored ==> err == DeadlineExceeded
    ensures p.context.Ended? && p.stored ==> err == ContextCanceled
    // Every other end has its code.
    ensures !p.stored ==> err == OtherError
    ensures p.stored && p.context.Live? && p.truncated ==>
      err == NoError && r.status == Failed && r.result.errorCode == "agent_compose_output_truncated"
    ensures err == NoError && r.status == Cancelled <==>
      p.stored && p.context.Live? && !p.truncated && Reported(d, p.stdout) == Cancelled
    ensures err == NoError && r.status == Cancelled ==> r.result.errorCode == "agent_compose_cancelled"
    ensures p.stored && p.context.Live? && !p.truncated && Reported(d, p.stdout) != Cancelled ==>
      match p.exit
      case NotStarted => err == OtherError
      case Exited(code) =>
        && err == NoError && r.status == Failed
        && r.result.errorCode == (if code == 3 then "agent_compose_unavailable" else "agent_compose_exit")
      case Clean =>
        && err == NoError && r.status == Reported(d, p.stdout)
        && r.result.errorCode == (if r.status == Failed then "agent_compose_runtime" else "")
  {
    hide ParseRuntimeEnvelope, DecodeEnvelope, RuntimeStatus, Bounded, Text;
    ParsedIsDecoded(d, p.stdout);
    var result := NO_RESULT.(executor := NAME, summary := Text("agent-compose run completed"));
    var parsed := ParseRuntimeEnvelope(d, p.stdout);
    var envelope := DecodeEnvelope(d, p.stdout);
    if !p.stored {
      return ExecutionResult(Failed, NO_RESULT), OtherError;
    }
    if !p.truncated && Trusted(parsed) {
      result := result.(rawOutput := Text(parsed.value.1.finalText));
    }
    result := result.(artifacts := p.artifacts);
    if p.context.Expired? {
      return ExecutionResult(Failed, result), DeadlineExceeded;
    }
    if p.context.Ended? {
      return ExecutionResult(Failed, result), ContextCanceled;
    }
    if !p.exit.Clean? && !p.truncated && envelope.Some? && RuntimeStatus(envelope.value) == Cancelled {
      result := result.(errorCode := "agent_compose_cancelled",
                        errorMessage := Message(Text(envelope.value.error), "agent-compose runtime canceled"));
      return ExecutionResult(Cancelled, result), NoError;
    }
    if p.truncated {
      result := result.(errorCode := "agent_compose_output_truncated",
                        limitations := ["[agent-compose output truncated]"],
                        errorMessage := Bounded(Text("agent-compose output exceeded the capture limit"),
                                                MAX_ERROR_MESSAGE_BYTES));
      return ExecutionResult(Failed, result), NoError;
    }
    if p.exit.Exited? {
      result := result.(errorCode := if p.exit.code == UNAVAILABLE then "agent_compose_unavailable"
                        else "agent_compose_exit",
                        errorMessage := Message(p.stderr, "exit status"));
      return ExecutionResult(Failed, result), NoError;
    }
    if p.exit.NotStarted? {
      return ExecutionResult(Failed, NO_RESULT), OtherError;
    }
    if parsed.None? && envelope.None? {
      return ExecutionResult(Succeeded, result), NoError;
    }
    var status := RuntimeStatus(envelope.value);
    RuntimeStatusEnds(envelope.value);
    if status == Failed {
      result := result.(errorCode := "agent_compose_runtime",
                        errorMessage := Message(Text(envelope.value.error), "agent-compose runtime failed"));
    }
    if status == Cancelled {
      result := result.(errorCode := "agent_compose_cancelled",
                        errorMessage := Message(Text(envelope.value.error), "agent-compose runtime canceled"));
    }
    return ExecutionResult(status, result), NoError;
  }

  lemma ParsedIsDecoded(d: Decoder, raw: Bytes)
    ensures ParseRuntimeEnvelope(d, raw).Some? ==> DecodeEnvelope(d, raw) == Some(ParseRuntimeEnvelope(d, raw).value.0)
  {
    hide DecodeEnvelope, ResultObject, DecodeResult, Blank;
  }

  lemma RuntimeStatusEnds(e: Envelope)
    ensures RuntimeStatus(e).Terminal()
  {
    hide TrimSpace;
  }

  /** Output without a provider's result is reported as success in both ways: as no envelope, and as an envelope
      that lacks its exit code. */
  lemma UnparsedSuccess() returns (p: Process, nothing: Decoder, partly: Decoder)
    ensures EndedWell(p)
    ensures DecodeEnvelope(nothing, p.stdout).None? && ParseRuntimeEnvelope(nothing, p.stdout).None?
    ensures Reported(nothing, p.stdout) == Succeeded
    ensures DecodeEnvelope(partly, p.stdout).Some? && ParseRuntimeEnvelope(partly, p.stdout).None?
    ensures Reported(partly, p.stdout) == Succeeded
  {
    p := Process([], [], false, Live, Clean, true, []);
    nothing := Decoder(_ => None, _ => None, _ => true);
    var envelope := Object(map["status" := Str("success")]);
    partly := Decoder(_ => Some(envelope), _ => None, _ => true);
    assert DecodeEnvelope(partly, []) == Some(Envelope("success", 0, ""));
    TrimFixed("success");
    assert ToLower("success") == "success";
  }

  /** Through the gate a child process yields a conclusion only if it ended well with nothing cut off, its
      envelope parsed, a known provider produced the final message itself, the runtime's own status allows it, and
      that final text is what the gate accepted. */
  method ExecuteAndGate(d: Decoder, lib: G.Library, agent: string, p: Process, message: Bytes)
    returns (r: ExecutionResult, err: ExecError)
    requires lib.blank([])
    ensures err == NoError && (r.status == Succeeded || r.status == Partial) ==>
      && EndedWell(p)
      && var parsed := ParseRuntimeEnvelope(d, p.stdout);
         && parsed.Some? && Spoken(d, p.stdout, Text(parsed.value.1.finalText))
         && (r.status == Succeeded ==> RuntimeStatus(parsed.value.0) == Succeeded)
         && (r.status == Partial ==> RuntimeStatus(parsed.value.0) in {Succeeded, Partial})
         && lib.decode(Text(parsed.value.1.finalText)).Some?
         && agent in lib.contracts
         && Conforms(lib.dates, Record(lib.contracts[agent]), lib.decode(Text(parsed.value.1.finalText)).value)
  {
    hide ParseRuntimeEnvelope, RuntimeStatus, DecodeEnvelope, Conforms, G.Verdict, G.TrustedClaims, G.Integrity,
         G.TrustedIds, G.FindingsOf;
    ParsedIsDecoded(d, p.stdout);
    var given: ExecutionResult;
    given, err := Execute(d, p);
    r := given;
    if err == NoError {
      r := G.Gate(lib, agent, given, message);
      EmptyIsRefused(lib, agent, given);
    }
  }

  lemma EmptyIsRefused(lib: G.Library, agent: string, given: ExecutionResult)
    requires lib.blank([])
    ensures given.result.rawOutput == [] ==>
        G.Verdict(lib, agent, given.result.rawOutput, G.TrustedIds(given.result.evidence)).Err?
  {
  }
}
