/** Creating a run: the preflight policy, the normal form of a manual request, and the
    fingerprint that decides whether a repeated request is the same one. */
module Creation {
  import opened Prelude
  import opened Domain
  import opened Strings
  import opened Utf8
  import opened Runs
  import opened RunUpdates

  const MAX_INPUTS := 64
  const MAX_ACTIVE_REQUESTS := 1000
  const DAY := 86400000000000
  const DEFAULT_DURATION := "20m"
  const INPUT_SCHEMES := {"artifact", "file", "s3", "https", "http", "case", "evidence"}

  datatype Agent = Agent(
    id: string, modes: set<string>, inputTypes: set<string>, formats: set<string>, approvalModes: set<string>)

  datatype Request = Request(
    requestId: string, caseId: string, mode: string, executionMode: string, manifest: Option<Manifest>,
    inputs: seq<InputRef>, scope: Scope, policy: Policy, output: Output, metadata: map<string, string>)

  /** What a creation fingerprint covers: everything the caller chose except the request id and the approval. What is
      fingerprinted has a manifest. */
  datatype CreationKey = CreationKey(
    agentId: string, mode: string, caseId: string, manifest: Option<Manifest>, scope: Scope, networkAccess: string,
    activeValidation: bool, maxRequests: int, maxDuration: string, output: Output, metadata: map<string, string>)

  /** The library functions the policy calls: durations in nanoseconds, the scheme of a URL (empty when
      it does not parse), and the digest over the encoded key. */
  datatype Library = Library(
    parseDuration: string -> Option<int>, formatDuration: int -> string, scheme: string -> string,
        seal: CreationKey -> string)

  /** A printed duration reads back as itself, and the default one is twenty minutes. */
  ghost predicate Lawful(lib: Library) {
    && (forall d :: lib.parseDuration(lib.formatDuration(d)) == Some(d))
    && (forall d :: Trimmed(lib.formatDuration(d)) && lib.formatDuration(d) != "")
    && lib.parseDuration(DEFAULT_DURATION) == Some(DAY / 72)
  }

  // ---- The preflight policy ----

  function TrimInput(i: InputRef): InputRef {
    i.(kind := TrimSpace(i.kind), uri := TrimSpace(i.uri), sha256 := ToLower(TrimSpace(i.sha256)))
  }

  function TrimFormat(f: string): string { ToLower(TrimSpace(f)) }

  function TrimRequest(q: Request): Request {
    q.(requestId := TrimSpace(q.requestId), caseId := TrimSpace(q.caseId), mode := TrimSpace(q.mode),
       scope := q.scope.(tenantId := TrimSpace(q.scope.tenantId),
                         authorizationRef := TrimSpace(q.scope.authorizationRef)),
       policy := q.policy.(networkAccess := TrimSpace(q.policy.networkAccess),
                           approvalId := TrimSpace(q.policy.approvalId),
                           maxDuration := TrimSpace(q.policy.maxDuration)),
       output := q.output.(language := TrimSpace(q.output.language),
                           formats := seq(|q.output.formats|,
                                          i requires 0 <= i < |q.output.formats| => TrimFormat(q.output.formats[i]))),
       inputs := seq(|q.inputs|, i requires 0 <= i < |q.inputs| => TrimInput(q.inputs[i])))
  }

  predicate InputAccepted(lib: Library, agent: Agent, i: InputRef) {
    && i.kind != "" && i.kind in agent.inputTypes && i.uri != "" && ByteLen(i.uri) <= 2048
    && lib.scheme(i.uri) in INPUT_SCHEMES && (i.sha256 != "" ==> Hex64(i.sha256)) && i.sizeBytes >= 0
  }

  /** The defaults the policy fills in. */
  function Defaulted(q: Request): Request {
    var n := q.(output := Output(if q.output.language == "" then "zh-CN" else q.output.language,
                                 if q.output.formats == [] then ["json"] else q.output.formats),
                policy := q.policy.(networkAccess := if q.policy.networkAccess == "" then "deny"
                                    else q.policy.networkAccess));
    if n.policy.activeValidation && n.policy.maxRequests == 0 then n.(policy := n.policy.(maxRequests := 100)) else n
  }

  function Refusal(lib: Library, agent: Agent, unrestricted: bool, q: Request): Option<Error> {
    var p, s := q.policy, q.scope;
    if q.requestId == "" || ByteLen(q.requestId) > 128 || s.tenantId == "" || ByteLen(s.tenantId) > 128 then
        Some(InvalidRequest)
    else if q.mode !in agent.modes || |q.inputs| > MAX_INPUTS then Some(InvalidRequest)
    else if !forall i :: 0 <= i < |q.inputs| ==> InputAccepted(lib, agent, q.inputs[i]) then Some(InvalidRequest)
    else if s.timeRange.Some? && s.timeRange.value.start >= s.timeRange.value.end then Some(InvalidRequest)
    else if !forall i :: 0 <= i < |q.output.formats| ==> q.output.formats[i] in agent.formats then Some(InvalidRequest)
    else if p.approvalId != "" then Some(InvalidRequest)
    else if p.networkAccess == "allow" && !unrestricted then Some(Forbidden)
    else if p.networkAccess !in {"deny", "restricted", "allow"} then Some(InvalidRequest)
    else if p.maxRequests < 0 || p.maxRequests > MAX_ACTIVE_REQUESTS then Some(InvalidRequest)
    else if p.maxDuration != "" &&
            !(lib.parseDuration(p.maxDuration).Some? && 0 < lib.parseDuration(p.maxDuration).value <= DAY) then
                Some(InvalidRequest)
    else if p.activeValidation && agent.id != "attack-path-validation" then Some(Forbidden)
    else if q.mode == "active_validate" && !p.activeValidation then Some(InvalidRequest)
    else if p.activeValidation && s.authorizationRef == "" then Some(Forbidden)
    else if p.activeValidation && |s.assets| + |s.networks| + |s.domains| == 0 then Some(Forbidden)
    else if p.activeValidation && p.networkAccess != "restricted" then Some(Forbidden)
    else None
  }

  function InitialStatus(agent: Agent, q: Request): Status {
    if q.policy.activeValidation || q.mode in agent.approvalModes then WaitingApproval else Queued
  }

  /** The normalised request and the status the run starts in. */
  function Evaluate(lib: Library, agent: Agent, unrestricted: bool, q: Request): Result<(Request, Status), Error> {
    var n := Defaulted(TrimRequest(q));
    match Refusal(lib, agent, unrestricted, n)
    case Some(e) => Err(e)
    case None => Ok((n, InitialStatus(agent, n)))
  }

  // ---- Manual requests ----

  predicate Distinct(s: seq<string>) { forall i, j :: 0 <= i < j < |s| ==> s[i] != s[j] }

  predicate MetadataAccepted(m: map<string, string>) {
    |m| <= 128 && forall k :: k in m ==> !Blank(k) && ByteLen(k) <= 128 && ByteLen(m[k]) <= 4096
  }

  function InputLimit(limit: int): int {
    if limit <= 0 || limit > MAX_INPUT_BYTES then MAX_INPUT_BYTES else limit
  }

  function WithDuration(lib: Library, q: Request): Option<Request> {
    var given := if q.policy.maxDuration == "" then DEFAULT_DURATION else q.policy.maxDuration;
    match lib.parseDuration(given)
    case None => None
    case Some(d) => Some(q.(policy := q.policy.(maxDuration := lib.formatDuration(d))))
  }

  /** The normal form of a manual request. */
  function NormalizeManual(lib: Library, agent: Agent, q: Request, limit: int): Result<Request, Error> {
    if agent.id != "event-triage" || q.mode != "triage" || q.manifest.None? || q.inputs != [] then Err(InvalidRequest)
    else if q.policy.networkAccess != "deny" || q.policy.activeValidation then Err(Forbidden)
    else if ByteLen(q.caseId) > 128 || '\0' in q.requestId || '\0' in q.scope.tenantId then Err(InvalidRequest)
    else
      var m := q.manifest.value.(sha256 := ToLower(TrimSpace(q.manifest.value.sha256)));
      if !Hex64(m.sha256) || m.schema != INPUT_SCHEMA || m.mediaType != "application/json" || m.sizeBytes <= 0 then
          Err(InvalidRequest)
      else if m.sizeBytes > InputLimit(limit) then Err(InputTooLarge)
      else if !Distinct(q.output.formats) then Err(InvalidRequest)
      else match WithDuration(lib, q.(manifest := Some(m)))
        case None => Err(InvalidRequest)
        case Some(n) => if MetadataAccepted(n.metadata) then Ok(n) else Err(InvalidRequest)
  }

  /** The request as the program rewrites it in place. */
  class Draft {
    var requestId: string
    var caseId: string
    var mode: string
    const executionMode: string
    var manifest: Option<Manifest>
    var inputs: array<InputRef>
    var scope: Scope
    var policy: Policy
    var language: string
    var formats: array<string>
    const metadata: map<string, string>

    ghost function Value(): Request
      reads this, inputs, formats
    {
      Request(requestId, caseId, mode, executionMode, manifest, inputs[..], scope, policy,
              Output(language, formats[..]), metadata)
    }

    method Trim()
      modifies this, inputs, formats
      ensures inputs == old(inputs) && formats == old(formats)
      ensures Value() == TrimRequest(old(Value()))
    {
      hide TrimSpace, TrimInput, TrimFormat;
      requestId, caseId, mode := TrimSpace(requestId), TrimSpace(caseId), TrimSpace(mode);
      scope := scope.(tenantId := TrimSpace(scope.tenantId), authorizationRef := TrimSpace(scope.authorizationRef));
      policy := policy.(networkAccess := TrimSpace(policy.networkAccess), approvalId := TrimSpace(policy.approvalId),
                        maxDuration := TrimSpace(policy.maxDuration));
      language := TrimSpace(language);
      TrimInputs(inputs);
      TrimFormats(formats);
    }

    method FillDefaults()
      modifies this
      ensures inputs == old(inputs) && (formats == old(formats) || fresh(formats))
      ensures Value() == Defaulted(old(Value()))
    {
      if language == "" {
        language := "zh-CN";
      }
      if formats.Length == 0 {
        formats := new string[] ["json"];
      }
      if policy.networkAccess == "" {
        policy := policy.(networkAccess := "deny");
      }
      if policy.activeValidation && policy.maxRequests == 0 {
        policy := policy.(maxRequests := 100);
      }
    }

    /** Preflight: fills in the defaults and decides where the run starts. */
    method NormalizeAndEvaluate(lib: Library, agent: Agent, unrestricted: bool) returns (r: Result<Status, Error>)
      modifies this, inputs, formats
      ensures r.Ok? ==> Evaluate(lib, agent, unrestricted, old(Value())) == Ok((Value(), r.value))
      ensures r.Err? ==> Evaluate(lib, agent, unrestricted, old(Value())) == Err(r.error)
    {
      hide Refusal, TrimRequest, Defaulted, InputAccepted;
      Trim();
      FillDefaults();
      var inputsOk := AllAccepted(lib, agent, inputs);
      var formatsOk := AllSupported(agent, formats);
      assert Value().inputs == inputs[..] && Value().output.formats == formats[..];
      var refusal := FirstRefusal(lib, agent, unrestricted, inputsOk, formatsOk);
      if refusal.Some? {
        return Err(refusal.value);
      }
      return Ok(if policy.activeValidation || mode in agent.approvalModes then WaitingApproval else Queued);
    }

    /** Brings a manual request into the form its fingerprint is taken of. */
    method NormalizeForManual(lib: Library, agent: Agent, limit: int) returns (r: Result<(), Error>)
      modifies this
      ensures r.Ok? ==> NormalizeManual(lib, agent, old(Value()), limit) == Ok(Value())
      ensures r.Err? ==> NormalizeManual(lib, agent, old(Value()), limit) == Err(r.error)
    {
      hide TrimSpace;
      if agent.id != "event-triage" || mode != "triage" || manifest.None? || inputs.Length != 0 {
        return Err(InvalidRequest);
      }
      if policy.networkAccess != "deny" || policy.activeValidation {
        return Err(Forbidden);
      }
      if ByteLen(caseId) > 128 || '\0' in requestId || '\0' in scope.tenantId {
        return Err(InvalidRequest);
      }
      var m := manifest.value.(sha256 := ToLower(TrimSpace(manifest.value.sha256)));
      manifest := Some(m);
      if !Hex64(m.sha256) || m.schema != INPUT_SCHEMA || m.mediaType != "application/json" || m.sizeBytes <= 0 {
        return Err(InvalidRequest);
      }
      if m.sizeBytes > InputLimit(limit) {
        return Err(InputTooLarge);
      }
      var distinct := NoRepeats(formats);
      if !distinct {
        return Err(InvalidRequest);
      }
      if policy.maxDuration == "" {
        policy := policy.(maxDuration := DEFAULT_DURATION);
      }
      var duration := lib.parseDuration(policy.maxDuration);
      if duration.None? {
        return Err(InvalidRequest);
      }
      policy := policy.(maxDuration := lib.formatDuration(duration.value));
      var accepted := CheckMetadata(metadata);
      if !accepted {
        return Err(InvalidRequest);
      }
      return Ok(());
    }

    /** The checks, in the order the program makes them. */
    method FirstRefusal(lib: Library, agent: Agent, unrestricted: bool, inputsOk: bool, formatsOk: bool)
      returns (r: Option<Error>)
      requires inputsOk == forall i :: 0 <= i < |Value().inputs| ==> InputAccepted(lib, agent, Value().inputs[i])
      requires formatsOk == forall i :: 0 <= i < |Value().output.formats| ==> Value().output.formats[i] in agent.formats
      ensures r == Refusal(lib, agent, unrestricted, Value())
    {
      if requestId == "" || ByteLen(requestId) > 128 || scope.tenantId == "" || ByteLen(scope.tenantId) > 128 {
        return Some(InvalidRequest);
      }
      if mode !in agent.modes || inputs.Length > MAX_INPUTS || !inputsOk {
        return Some(InvalidRequest);
      }
      if scope.timeRange.Some? && scope.timeRange.value.start >= scope.timeRange.value.end {
        return Some(InvalidRequest);
      }
      if !formatsOk || policy.approvalId != "" {
        return Some(InvalidRequest);
      }
      if policy.networkAccess == "allow" && !unrestricted {
        return Some(Forbidden);
      }
      if policy.networkAccess !in {"deny", "restricted", "allow"} || policy.maxRequests < 0 ||
          policy.maxRequests > MAX_ACTIVE_REQUESTS {
        return Some(InvalidRequest);
      }
      if policy.maxDuration != "" {
        var d := lib.parseDuration(policy.maxDuration);
        if d.None? || d.value <= 0 || d.value > DAY {
          return Some(InvalidRequest);
        }
      }
      if policy.activeValidation && agent.id != "attack-path-validation" {
        return Some(Forbidden);
      }
      if mode == "active_validate" && !policy.activeValidation {
        return Some(InvalidRequest);
      }
      if policy.activeValidation {
        if scope.authorizationRef == "" || |scope.assets| + |scope.networks| + |scope.domains| == 0 ||
            policy.networkAccess != "restricted" {
          return Some(Forbidden);
        }
      }
      return None;
    }
  }

  method TrimInputs(inputs: array<InputRef>)
    modifies inputs
    ensures inputs[..] == seq(inputs.Length, i requires 0 <= i < inputs.Length => TrimInput(old(inputs[..])[i]))
  {
    var i := 0;
    while i < inputs.Length
      invariant 0 <= i <= inputs.Length
      invariant forall k :: 0 <= k < i ==> inputs[k] == TrimInput(old(inputs[..])[k])
      invariant forall k :: i <= k < inputs.Length ==> inputs[k] == old(inputs[..])[k]
    {
      inputs[i] := TrimInput(inputs[i]);
      i := i + 1;
    }
  }

  method TrimFormats(formats: array<string>)
    modifies formats
    ensures formats[..] == seq(formats.Length, i requires 0 <= i < formats.Length => TrimFormat(old(formats[..])[i]))
  {
    var i := 0;
    while i < formats.Length
      invariant 0 <= i <= formats.Length
      invariant forall k :: 0 <= k < i ==> formats[k] == TrimFormat(old(formats[..])[k])
      invariant forall k :: i <= k < formats.Length ==> formats[k] == old(formats[..])[k]
    {
      formats[i] := TrimFormat(formats[i]);
      i := i + 1;
    }
  }

  method AllAccepted(lib: Library, agent: Agent, inputs: array<InputRef>) returns (ok: bool)
    ensures ok == forall i :: 0 <= i < inputs.Length ==> InputAccepted(lib, agent, inputs[i])
  {
    for i := 0 to inputs.Length
      invariant forall k :: 0 <= k < i ==> InputAccepted(lib, agent, inputs[k])
    {
      if !InputAccepted(lib, agent, inputs[i]) {
        return false;
      }
    }
    return true;
  }

  method AllSupported(agent: Agent, formats: array<string>) returns (ok: bool)
    ensures ok == forall i :: 0 <= i < formats.Length ==> formats[i] in agent.formats
  {
    for i := 0 to formats.Length
      invariant forall k :: 0 <= k < i ==> formats[k] in agent.formats
    {
      if formats[i] !in agent.formats {
        return false;
      }
    }
    return true;
  }

  method NoRepeats(formats: array<string>) returns (distinct: bool)
    ensures distinct == Distinct(formats[..])
  {
    var seen: set<string> := {};
    for i := 0 to formats.Length
      invariant forall x :: x in seen <==> exists k :: 0 <= k < i && formats[k] == x
      invariant Distinct(formats[..i])
    {
      if formats[i] in seen {
        return false;
      }
      seen := seen + {formats[i]};
    }
    assert formats[..formats.Length] == formats[..];
    return true;
  }

  method CheckMetadata(m: map<string, string>) returns (ok: bool)
    ensures ok == MetadataAccepted(m)
  {
    if |m| > 128 {
      return false;
    }
    var todo := m.Keys;
    while todo != {}
      invariant todo <= m.Keys
      invariant forall k :: k in m && k !in todo ==> !Blank(k) && ByteLen(k) <= 128 && ByteLen(m[k]) <= 4096
    {
      var k :| k in todo;
      TrimEmpty(k);
      if TrimSpace(k) == "" || ByteLen(k) > 128 || ByteLen(m[k]) > 4096 {
        return false;
      }
      todo := todo - {k};
    }
    return true;
  }

  // ---- What the preflight guarantees ----

  lemma {:induction false} TrimTwice(s: string)
    ensures TrimSpace(TrimSpace(s)) == TrimSpace(s)
  {
    TrimFixed(TrimSpace(s));
  }

  lemma LowerOfTrimmed(s: string)
    ensures ToLower(TrimSpace(ToLower(TrimSpace(s)))) == ToLower(TrimSpace(s))
  {
    var t := TrimSpace(s);
    TrimFixed(ToLower(t));
    assert ToLower(ToLower(t)) == ToLower(t);
  }

  lemma TrimRequestTwice(q: Request)
    ensures TrimRequest(TrimRequest(q)) == TrimRequest(q)
  {
    var n := TrimRequest(q);
    forall i | 0 <= i < |q.inputs| ensures TrimInput(n.inputs[i]) == n.inputs[i] {
      TrimTwice(q.inputs[i].kind);
      TrimTwice(q.inputs[i].uri);
      LowerOfTrimmed(q.inputs[i].sha256);
    }
    forall i | 0 <= i < |q.output.formats| ensures TrimFormat(n.output.formats[i]) == n.output.formats[i] {
      LowerOfTrimmed(q.output.formats[i]);
    }
    TrimTwice(q.requestId);
    TrimTwice(q.caseId);
    TrimTwice(q.mode);
    TrimTwice(q.scope.tenantId);
    TrimTwice(q.scope.authorizationRef);
    TrimTwice(q.policy.networkAccess);
    TrimTwice(q.policy.approvalId);
    TrimTwice(q.policy.maxDuration);
    TrimTwice(q.output.language);
    hide TrimSpace, TrimInput, TrimFormat;
    assert TrimRequest(n).inputs == n.inputs;
    assert TrimRequest(n).output.formats == n.output.formats;
  }

  lemma DefaultsStay(q: Request)
    requires TrimRequest(q) == q
    ensures TrimRequest(Defaulted(q)) == Defaulted(q) && Defaulted(Defaulted(q)) == Defaulted(q)
  {
    hide TrimSpace, TrimInput, TrimFormat;
    TrimFixed("zh-CN");
    TrimFixed("deny");
    DefaultFormats(q);
    assert TrimRequest(Defaulted(q)).inputs == TrimRequest(q).inputs;
  }

  lemma DefaultFormats(q: Request)
    requires TrimRequest(q).output.formats == q.output.formats
    ensures TrimRequest(Defaulted(q)).output.formats == Defaulted(q).output.formats
  {
    hide TrimSpace, TrimInput;
    TrimFixed("json");
    if q.output.formats == [] {
      assert Defaulted(q).output.formats == ["json"] && TrimFormat("json") == "json";
    } else {
      assert Defaulted(q).output.formats == q.output.formats;
    }
  }

  /** Normalising is idempotent: a normalised request passes again, unchanged, to the same status. */
  lemma EvaluateTwice(lib: Library, agent: Agent, unrestricted: bool, q: Request)
    requires Evaluate(lib, agent, unrestricted, q).Ok?
    ensures var (n, status) := Evaluate(lib, agent, unrestricted, q).value;
            Evaluate(lib, agent, unrestricted, n) == Ok((n, status))
  {
    hide Refusal;
    TrimRequestTwice(q);
    DefaultsStay(TrimRequest(q));
  }

  /** The normalised request, field by field: what was given without the white space around it, or the default. */
  lemma NormalFields(q: Request)
    ensures var n := Defaulted(TrimRequest(q));
      && n.requestId == TrimSpace(q.requestId) && n.caseId == TrimSpace(q.caseId) && n.mode == TrimSpace(q.mode)
      && n.executionMode == q.executionMode && n.manifest == q.manifest && n.metadata == q.metadata
      && n.scope == Scope(TrimSpace(q.scope.tenantId), TrimSpace(q.scope.authorizationRef), q.scope.assets,
                          q.scope.networks, q.scope.domains, q.scope.timeRange)
      && n.policy.networkAccess == (if TrimSpace(q.policy.networkAccess) == "" then "deny"
                                    else TrimSpace(q.policy.networkAccess))
      && n.policy.activeValidation == q.policy.activeValidation
      && n.policy.approvalId == TrimSpace(q.policy.approvalId)
      && n.policy.maxRequests == (if q.policy.activeValidation && q.policy.maxRequests == 0 then 100
                                  else q.policy.maxRequests)
      && n.policy.maxDuration == TrimSpace(q.policy.maxDuration)
      && n.output.language == (if TrimSpace(q.output.language) == "" then "zh-CN" else TrimSpace(q.output.language))
      && (q.output.formats == [] ==> n.output.formats == ["json"])
      && (q.output.formats != [] ==> |n.output.formats| == |q.output.formats|)
      && (q.output.formats != [] ==> forall i :: 0 <= i < |q.output.formats| ==>
            n.output.formats[i] == ToLower(TrimSpace(q.output.formats[i])))
      && |n.inputs| == |q.inputs|
      && forall i :: 0 <= i < |q.inputs| ==> n.inputs[i] == q.inputs[i].(
           kind := TrimSpace(q.inputs[i].kind), uri := TrimSpace(q.inputs[i].uri),
           sha256 := ToLower(TrimSpace(q.inputs[i].sha256)))
  {
    hide TrimSpace, ToLower;
  }

  /** What makes a request invalid, whoever makes it. */
  predicate Malformed(lib: Library, agent: Agent, n: Request) {
    || n.requestId == "" || ByteLen(n.requestId) > 128 || n.scope.tenantId == "" || ByteLen(n.scope.tenantId) > 128
    || n.mode !in agent.modes || |n.inputs| > 64
    || (exists i :: 0 <= i < |n.inputs| && BadInput(lib, agent, n.inputs[i]))
    || (match n.scope.timeRange case Some(range) => range.start >= range.end case None => false)
    || (exists i :: 0 <= i < |n.output.formats| && n.output.formats[i] !in agent.formats)
    || n.policy.approvalId != ""
    || n.policy.networkAccess !in {"deny", "restricted", "allow"}
    || n.policy.maxRequests < 0 || n.policy.maxRequests > 1000
    || (n.policy.maxDuration != "" &&
          match lib.parseDuration(n.policy.maxDuration)
          case Some(d) => d <= 0 || d > 24 * 3600 * 1000000000
          case None => true)
    || (n.mode == "active_validate" && !n.policy.activeValidation)
  }

  predicate BadInput(lib: Library, agent: Agent, i: InputRef) {
    || i.kind == "" || i.kind !in agent.inputTypes || i.uri == "" || ByteLen(i.uri) > 2048
    || lib.scheme(i.uri) !in {"artifact", "file", "s3", "https", "http", "case", "evidence"}
    || (i.sha256 != "" && !(|i.sha256| == 64 && forall k :: 0 <= k < 64 ==> HexChar(i.sha256[k])))
    || i.sizeBytes < 0
  }

  /** What no caller may ask of this agent. */
  predicate OffLimits(agent: Agent, unrestricted: bool, n: Request) {
    || (n.policy.networkAccess == "allow" && !unrestricted)
    || (n.policy.activeValidation &&
          (|| agent.id != "attack-path-validation" || n.scope.authorizationRef == ""
           || (n.scope.assets == [] && n.scope.networks == [] && n.scope.domains == [])
           || n.policy.networkAccess != "restricted"))
  }

  /** The preflight accepts a request exactly if nothing is wrong with it; a refusal says which kind of thing is. */
  lemma PreflightExactly(lib: Library, agent: Agent, unrestricted: bool, q: Request)
    ensures var n, r := Defaulted(TrimRequest(q)), Evaluate(lib, agent, unrestricted, q);
      && (r.Ok? <==> !Malformed(lib, agent, n) && !OffLimits(agent, unrestricted, n))
      && (r == Err(InvalidRequest) ==> Malformed(lib, agent, n))
      && (r == Err(Forbidden) ==> OffLimits(agent, unrestricted, n))
      && (r.Err? ==> r.error in {InvalidRequest, Forbidden})
      && (r.Ok? ==> r.value.0 == n && r.value.1 in {Queued, WaitingApproval})
      && (r.Ok? ==> (r.value.1 == WaitingApproval <==> n.policy.activeValidation || n.mode in agent.approvalModes))
  {
    hide TrimRequest, Defaulted, ByteLen;
    var n := Defaulted(TrimRequest(q));
    assert forall i :: 0 <= i < |n.inputs| ==>
        InputAccepted(lib, agent, n.inputs[i]) == !BadInput(lib, agent, n.inputs[i]);
  }

  /** A run that starts without waiting needs no approval, and one that validates actively waits, is authorised,
      has a target and a request budget, and may reach only the restricted network. */
  lemma PreflightGuards(lib: Library, agent: Agent, unrestricted: bool, q: Request)
    requires Evaluate(lib, agent, unrestricted, q).Ok?
    ensures var (n, status) := Evaluate(lib, agent, unrestricted, q).value;
      && (status == WaitingApproval <==> n.policy.activeValidation || n.mode in agent.approvalModes)
      && (status == Queued || status == WaitingApproval)
      && (n.policy.activeValidation ==>
            && agent.id == "attack-path-validation" && n.scope.authorizationRef != ""
            && n.policy.networkAccess == "restricted"
            && 0 < n.policy.maxRequests <= MAX_ACTIVE_REQUESTS
            && (n.scope.assets != [] || n.scope.networks != [] || n.scope.domains != []))
      && (n.policy.networkAccess == "allow" ==> unrestricted)
      && n.policy.approvalId == "" && Trimmed(n.scope.tenantId) && n.scope.tenantId != ""
      && ByteLen(n.scope.tenantId) <= 128
  {
    hide TrimSpace;
  }

  lemma HexLower(s: string)
    requires Hex64(ToLower(s))
    ensures LowerHex(ToLower(s))
  {
  }

  /** Every accepted manual request is in its normal form. */
  lemma ManualTwice(lib: Library, agent: Agent, q: Request, limit: int)
    requires Lawful(lib) && NormalizeManual(lib, agent, q, limit).Ok?
    ensures var n := NormalizeManual(lib, agent, q, limit).value;
      && NormalizeManual(lib, agent, n, limit) == Ok(n)
      && n.manifest.Some? && Digest(n.manifest.value.sha256) && 0 < n.manifest.value.sizeBytes <= InputLimit(limit)
      && n.manifest.value.schema == INPUT_SCHEMA && n.manifest.value.mediaType == "application/json"
      && '\0' !in n.scope.tenantId
  {
    hide TrimSpace, Blank, ByteLen;
    LowerOfTrimmed(q.manifest.value.sha256);
    HexLower(TrimSpace(q.manifest.value.sha256));
  }

  /** What makes a manual request invalid, beyond what the preflight asks. */
  predicate ManualMalformed(lib: Library, agent: Agent, n: Request) {
    || agent.id != "event-triage" || n.mode != "triage" || n.inputs != []
    || ByteLen(n.caseId) > 128 || '\0' in n.requestId || '\0' in n.scope.tenantId
    || (match n.manifest case Some(m) => BadManifest(m) case None => true)
    || (exists i, j :: 0 <= i < j < |n.output.formats| && n.output.formats[i] == n.output.formats[j])
    || lib.parseDuration(if n.policy.maxDuration == "" then "20m" else n.policy.maxDuration).None?
    || |n.metadata| > 128
    || (exists k :: k in n.metadata && (Blank(k) || ByteLen(k) > 128 || ByteLen(n.metadata[k]) > 4096))
  }

  predicate BadManifest(m: Manifest) {
    || m.schema != "sas.synthetic-alert/v1" || m.mediaType != "application/json" || m.sizeBytes <= 0
    || !Hex64(TrimSpace(m.sha256))
  }

  predicate TooLarge(n: Request, limit: int) {
    match n.manifest
    case Some(m) => m.sizeBytes > (if 0 < limit <= 1048576 then limit else 1048576)
    case None => false
  }

  /** A manual request is accepted exactly if nothing is wrong with it; accepting it rewrites the digest of its
      manifest and its duration. */
  lemma ManualExactly(lib: Library, agent: Agent, n: Request, limit: int)
    ensures var r, active := NormalizeManual(lib, agent, n, limit), n.policy.networkAccess != "deny" ||
        n.policy.activeValidation;
      && (r.Ok? <==> !ManualMalformed(lib, agent, n) && !active && !TooLarge(n, limit))
      && (r == Err(InvalidRequest) ==> ManualMalformed(lib, agent, n)) && (r == Err(Forbidden) ==> active)
      && (r == Err(InputTooLarge) ==> TooLarge(n, limit))
      && (r.Err? ==> r.error in {InvalidRequest, Forbidden, InputTooLarge})
      && (r.Ok? ==> Rewritten(lib, n, r.value))
  {
    hide TrimSpace, ByteLen, Blank;
    if n.manifest.Some? {
      HexOfLower(TrimSpace(n.manifest.value.sha256));
    }
  }

  /** All as it was but for the digest, now in lower case, and the duration, now in its printed form. */
  predicate Rewritten(lib: Library, n: Request, m: Request) {
    match (n.manifest, m.manifest)
    case (Some(given), Some(written)) =>
      && m == n.(manifest := m.manifest, policy := n.policy.(maxDuration := m.policy.maxDuration))
      && written == given.(sha256 := ToLower(TrimSpace(given.sha256)))
      && (match lib.parseDuration(if n.policy.maxDuration == "" then "20m" else n.policy.maxDuration)
          case Some(d) => m.policy.maxDuration == lib.formatDuration(d)
          case None => false)
    case _ => false
  }

  lemma HexOfLower(s: string)
    ensures Hex64(ToLower(s)) <==> Hex64(s)
  {
    assert forall i :: 0 <= i < |s| ==> ToLower(s)[i] == LowerChar(s[i]);
  }

  // ---- The fingerprint ----

  function RequestKey(agentId: string, q: Request): CreationKey {
    CreationKey(agentId, q.mode, q.caseId, q.manifest, q.scope, q.policy.networkAccess, q.policy.activeValidation,
                q.policy.maxRequests, q.policy.maxDuration, q.output, q.metadata)
  }

  /** The key read back from a stored run. */
  function RunKey(r: Run): CreationKey {
    CreationKey(r.terms.agentId, r.terms.mode, r.terms.caseId, r.terms.manifest, r.terms.scope, r.policy.networkAccess,
                r.policy.activeValidation, r.policy.maxRequests, r.policy.maxDuration, r.terms.output, r.terms.metadata)
  }

  function Fingerprint(lib: Library, key: CreationKey): string {
    "sas.manual-create/v1:" + lib.seal(key)
  }

  predicate ValidCreation(lib: Library, r: Run) {
    r.terms.manifest.Some? && r.terms.creationFingerprint == Fingerprint(lib, RunKey(r))
  }

  /** A request that may become a run: normalised, with its first status and its fingerprint. */
  datatype Prepared = Prepared(request: Request, status: Status, fingerprint: string)

  function Prepare(lib: Library, agent: Agent, unrestricted: bool, limit: int,
                   given: Request): Result<Prepared, Error> {
    var q := given.(executionMode := TrimSpace(given.executionMode));
    if q.executionMode !in {"", "automatic", "manual"} || (q.executionMode != "manual" && q.manifest.Some?) then
        Err(InvalidRequest)
    else if q.executionMode == "manual" &&
        (TrimSpace(q.policy.networkAccess) !in {"", "deny"} || q.policy.activeValidation) then Err(Forbidden)
    else
      match Evaluate(lib, agent, unrestricted, q)
      case Err(e) => Err(e)
      case Ok((n, status)) =>
        if q.executionMode != "manual" then Ok(Prepared(n, status, ""))
        else
          match NormalizeManual(lib, agent, n, limit)
          case Err(e) => Err(e)
          case Ok(m) => Ok(Prepared(m, Preparing, Fingerprint(lib, RequestKey(agent.id, m))))
  }

  /** A request is accepted exactly if its mode is known, it has a manifest only if manual, and it passes the preflight
      and, if manual, the rules for manual requests; asking early for the network decides the error alone. */
  lemma PrepareExactly(lib: Library, agent: Agent, unrestricted: bool, limit: int, q: Request)
    ensures var mode, r := TrimSpace(q.executionMode), Prepare(lib, agent, unrestricted, limit, q);
      var preflight := Evaluate(lib, agent, unrestricted, q.(executionMode := mode));
      && (mode == "manual" ==>
            (r.Ok? <==> preflight.Ok? && NormalizeManual(lib, agent, preflight.value.0, limit).Ok?))
      && (mode == "manual" && (TrimSpace(q.policy.networkAccess) !in {"", "deny"} || q.policy.activeValidation) ==>
            r == Err(Forbidden))
      && (mode in {"", "automatic"} && q.manifest == None ==> (r.Ok? <==> preflight.Ok?))
      && (mode !in {"", "automatic", "manual"} ==> r == Err(InvalidRequest))
      && (mode != "manual" && q.manifest.Some? ==> r == Err(InvalidRequest))
  {
    hide TrimSpace, Refusal, MetadataAccepted, ByteLen;
    var given := q.(executionMode := TrimSpace(q.executionMode));
    NormalFields(given);
  }

  /** A manifest and manual execution go together, and keep the run off the network. */
  lemma PreparedMode(lib: Library, agent: Agent, unrestricted: bool, limit: int, q: Request)
    requires Prepare(lib, agent, unrestricted, limit, q).Ok?
    ensures var p := Prepare(lib, agent, unrestricted, limit, q).value;
      && p.request.executionMode == TrimSpace(q.executionMode)
      && p.request.executionMode in {"", "automatic", "manual"}
      && (p.request.executionMode == "manual" <==> p.request.manifest.Some?)
      && (p.request.executionMode == "manual" ==>
            p.status == Preparing && p.request.policy.networkAccess == "deny" && !p.request.policy.activeValidation)
  {
    hide TrimSpace, Refusal, ByteLen, MetadataAccepted;
    var trimmed := q.(executionMode := TrimSpace(q.executionMode));
    ManualKeeps(lib, agent, Evaluate(lib, agent, unrestricted, trimmed).value.0, limit);
  }

  /** The run record a creation stores. */
  function RunFor(id: string, agent: Agent, p: Prepared, now: int): Run {
    var q := p.request;
    var terms :=
        Terms(q.requestId, agent.id, q.executionMode, q.manifest, p.fingerprint, q.caseId, q.mode, q.scope, q.output,
              q.metadata, now);
    Recorded(NewRun(id, terms, q.inputs, q.policy, p.status), PreflightPassed, "preflight", "policy-engine", now)
  }

  /** The run carries what this request of this agent asks for, the request id aside. */
  predicate AsRequested(agentId: string, q: Request, r: Run) {
    && r.terms.agentId == agentId && r.terms.mode == q.mode && r.terms.caseId == q.caseId
    && r.terms.manifest == q.manifest && r.terms.scope == q.scope && r.terms.output == q.output
    && r.terms.metadata == q.metadata
    && r.policy.networkAccess == q.policy.networkAccess && r.policy.activeValidation == q.policy.activeValidation
    && r.policy.maxRequests == q.policy.maxRequests && r.policy.maxDuration == q.policy.maxDuration
  }

  /** A run begins as its request asks, with the creation and the preflight in its log. */
  lemma RunCarriesRequest(id: string, agent: Agent, p: Prepared, now: int)
    ensures var r, q := RunFor(id, agent, p, now), p.request;
      && AsRequested(agent.id, q, r) && r.id == id && r.terms.requestId == q.requestId && r.policy == q.policy
      && r.terms.executionMode == q.executionMode && r.terms.creationFingerprint == p.fingerprint
      && r.inputs == q.inputs && r.status == p.status && r.terms.createdAt == now && r.updatedAt == now
      && r.version == 2
      && r.submission == None && r.approval == None && r.result == None && r.startedAt == None && r.completedAt == None
      && r.events == [Event(1, RunCreated, None, Some(p.status), "run created", "system", now),
                      Event(2, PreflightPassed, None, None, "preflight", "policy-engine", now)]
  {
    var q := p.request;
    var terms :=
      Terms(q.requestId, agent.id, q.executionMode, q.manifest, p.fingerprint, q.caseId, q.mode, q.scope, q.output,
            q.metadata, now);
    var created := NewRun(id, terms, q.inputs, q.policy, p.status);
    assert created.events == [Event(1, RunCreated, None, Some(p.status), "run created", "system", now)];
  }

  /** A created run has a faithful log, no submission, and, if manual, a fingerprint that checks. */
  lemma CreatedRunIsGood(lib: Library, agent: Agent, unrestricted: bool, limit: int, q: Request, id: string, now: int)
    requires Prepare(lib, agent, unrestricted, limit, q).Ok?
    ensures var r := RunFor(id, agent, Prepare(lib, agent, unrestricted, limit, q).value, now);
      && History(r) && r.id == id && r.submission.None? && r.approval.None?
      && (r.Manual() ==> r.status == Preparing && ValidCreation(lib, r))
      && (!r.Manual() ==> r.status == Queued || r.status == WaitingApproval)
      && Trimmed(r.Tenant()) && r.Tenant() != "" && ByteLen(r.Tenant()) <= 128
  {
    hide TrimSpace, Refusal, ByteLen, EventFollows;
    var p := Prepare(lib, agent, unrestricted, limit, q).value;
    var trimmed := q.(executionMode := TrimSpace(q.executionMode));
    PreflightGuards(lib, agent, unrestricted, trimmed);
    ManualKeeps(lib, agent, Evaluate(lib, agent, unrestricted, trimmed).value.0, limit);
    var n := p.request;
    var terms :=
        Terms(n.requestId, agent.id, n.executionMode, n.manifest, p.fingerprint, n.caseId, n.mode, n.scope, n.output,
              n.metadata, now);
    NewRunHistory(id, terms, n.inputs, n.policy, p.status);
    RecordKeeps(NewRun(id, terms, n.inputs, n.policy, p.status), PreflightPassed, "preflight", "policy-engine", now);
  }

  /** The manual normal form leaves scope, mode and network alone. */
  lemma ManualKeeps(lib: Library, agent: Agent, q: Request, limit: int)
    ensures NormalizeManual(lib, agent, q, limit).Ok? ==>
              var n := NormalizeManual(lib, agent, q, limit).value;
              n.scope == q.scope && n.executionMode == q.executionMode && n.requestId == q.requestId && n.manifest.Some?
  {
    hide TrimSpace, MetadataAccepted, ByteLen;
  }

  /** No update, the submission included, changes what the fingerprint covers: it checks for the life of the run. */
  lemma FingerprintSurvives(lib: Library, m: Mutation, r: Run)
    requires Mutate(m, r).Ok?
    ensures ValidCreation(lib, Mutate(m, r).value) <==> ValidCreation(lib, r)
  {
    hide Mutate;
    MutateFrame(m, r);
  }

  // ---- Repeated requests ----

  function CompareCreation(existing: Run, mode: string, fingerprint: string): Option<Error> {
    if existing.Manual() || mode == "manual" then
      if !existing.Manual() || mode != "manual" || fingerprint == "" ||
          existing.terms.creationFingerprint != fingerprint then Some(Conflict)
      else None
    else None
  }

  /** What CreateRun answers when a run with the same tenant and request id exists. */
  function Repeat(existing: Run, agent: Agent, p: Prepared): Result<Run, Error> {
    if CompareCreation(existing, p.request.executionMode, p.fingerprint).Some? then Err(Conflict)
    else if existing.terms.agentId != agent.id then Err(Conflict)
    else Ok(existing)
  }

  /** A repeated manual creation is answered with the stored run exactly when that run is manual and asks for the same
      in every field, whatever has happened to it since; the digest is taken to be free of collisions. */
  lemma ManualRepeat(lib: Library, agent: Agent, unrestricted: bool, limit: int, q: Request, existing: Run)
    requires forall a, b :: lib.seal(a) == lib.seal(b) ==> a == b
    requires Prepare(lib, agent, unrestricted, limit, q).Ok?
    requires var p := Prepare(lib, agent, unrestricted, limit, q).value; p.request.executionMode == "manual"
    requires existing.Manual() ==> ValidCreation(lib, existing)
    ensures var p := Prepare(lib, agent, unrestricted, limit, q).value;
      && (Repeat(existing, agent, p) == Ok(existing) <==>
            existing.terms.executionMode == "manual" && AsRequested(agent.id, p.request, existing))
      && (Repeat(existing, agent, p) != Ok(existing) ==> Repeat(existing, agent, p) == Err(Conflict))
  {
    hide TrimSpace, Refusal, ByteLen, MetadataAccepted;
    var trimmed := q.(executionMode := TrimSpace(q.executionMode));
    var p := Prepare(lib, agent, unrestricted, limit, q).value;
    ManualKeeps(lib, agent, Evaluate(lib, agent, unrestricted, trimmed).value.0, limit);
    assert p.fingerprint == Fingerprint(lib, RequestKey(agent.id, p.request));
    if existing.Manual() && existing.terms.creationFingerprint == p.fingerprint {
      FingerprintInjective(lib, RunKey(existing), RequestKey(agent.id, p.request));
    }
  }

  /** Any other repeated creation is answered with the stored run exactly when that is no manual run either and of the
      same agent. */
  lemma AutomaticRepeat(existing: Run, agent: Agent, p: Prepared)
    requires p.request.executionMode != "manual"
    ensures Repeat(existing, agent, p) ==
      if existing.terms.executionMode != "manual" && existing.terms.agentId == agent.id then Ok(existing)
      else Err(Conflict)
  {
  }

  lemma FingerprintInjective(lib: Library, a: CreationKey, b: CreationKey)
    requires forall a, b :: lib.seal(a) == lib.seal(b) ==> a == b
    requires Fingerprint(lib, a) == Fingerprint(lib, b)
    ensures a == b
  {
    assert Fingerprint(lib, a)[|"sas.manual-create/v1:"|..] == lib.seal(a);
    assert Fingerprint(lib, b)[|"sas.manual-create/v1:"|..] == lib.seal(b);
  }

  /** When Create itself reports the key taken, the stored run is compared but its agent is not. */
  function RepeatAfterRace(existing: Run, p: Prepared): Result<Run, Error> {
    if CompareCreation(existing, p.request.executionMode, p.fingerprint).Some? then Err(Conflict) else Ok(existing)
  }

  /** The two answers differ exactly for an automatic run of another agent, which the race hands out. */
  lemma RaceSkipsTheAgent(lib: Library, agent: Agent, unrestricted: bool, limit: int, q: Request, existing: Run)
    requires forall a, b :: lib.seal(a) == lib.seal(b) ==> a == b
    requires Prepare(lib, agent, unrestricted, limit, q).Ok?
    requires existing.Manual() ==> ValidCreation(lib, existing)
    ensures var p := Prepare(lib, agent, unrestricted, limit, q).value;
      RepeatAfterRace(existing, p) == Repeat(existing, agent, p) <==>
        !(existing.terms.agentId != agent.id && !existing.Manual() && p.request.executionMode != "manual")
  {
    hide TrimSpace, Refusal, ByteLen, MetadataAccepted;
    var trimmed := q.(executionMode := TrimSpace(q.executionMode));
    var p := Prepare(lib, agent, unrestricted, limit, q).value;
    if p.request.executionMode == "manual" && existing.Manual() {
      ManualKeeps(lib, agent, Evaluate(lib, agent, unrestricted, trimmed).value.0, limit);
      if existing.terms.creationFingerprint == p.fingerprint {
        FingerprintInjective(lib, RunKey(existing), RequestKey(agent.id, p.request));
      }
    }
  }
}
