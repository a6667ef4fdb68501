/** The output gate: which agent outputs may become conclusions of a run. */
module Gate {
  import opened Prelude
  import opened Utf8
  import opened Domain
  import opened Strings
  import opened Runs
  import opened RunUpdates
  import opened Contracts

  /** The JSON decoder (one value and nothing after it), the check of the JSON encoder, the white-space check, RFC
      3339 dates, and the registered contracts. */
  datatype Library = Library(
    decode: Bytes -> Option<Json>, isJson: Bytes -> bool, blank: Bytes -> bool, dates: Dates,
    contracts: map<string, ObjectSpec>)

  /** What decodes can be encoded. */
  ghost predicate Lawful(lib: Library) {
    forall raw :: lib.decode(raw).Some? ==> lib.isJson(raw)
  }

  const REFERENCE_KEYS :=
      {"evidence_refs", "supporting_evidence", "contradicting_evidence", "source_refs", "customer_evidence_refs"}

  // ---- Evidence references at any depth ----

  predicate RefOk(ref: Json, allowed: set<string>) { ref.Str? && ref.s in allowed }

  /** The value has this list under the key. */
  predicate HasList(v: Json, k: string, items: seq<Json>) { v.Object? && k in v.fields && v.fields[k] == Array(items) }

  /** The value has this text under the key. */
  predicate HasText(v: Json, k: string, s: string) { v.Object? && k in v.fields && v.fields[k] == Str(s) }

  ghost predicate ListNames(v: Json, k: string, allowed: set<string>) {
    forall items: seq<Json>, i :: HasList(v, k, items) && 0 <= i < |items| ==> items[i].Str? && items[i].s in allowed
  }

  /** The five lists of references in an object name allowed ids only. */
  ghost predicate RefsHere(v: Json, allowed: set<string>) {
    && ListNames(v, "evidence_refs", allowed) && ListNames(v, "supporting_evidence", allowed)
    && ListNames(v, "contradicting_evidence", allowed) && ListNames(v, "source_refs", allowed)
    && ListNames(v, "customer_evidence_refs", allowed)
  }

  lemma RefsUnderKeys(v: Json, allowed: set<string>)
    ensures RefsHere(v, allowed) <==> forall k :: k in REFERENCE_KEYS ==> ListNames(v, k, allowed)
  {
    hide ListNames;
  }

  /** Wherever in the tree a reference list is, it names allowed ids only. */
  ghost predicate RefsOk(v: Json, allowed: set<string>) {
    forall path :: At(v, path).Some? ==> RefsHere(At(v, path).value, allowed)
  }

  lemma RefsInside(v: Json, head: Segment, allowed: set<string>)
    requires RefsOk(v, allowed) && Child(v, head).Some?
    ensures RefsOk(Child(v, head).value, allowed)
  {
    var c := Child(v, head).value;
    forall path: seq<Segment> | At(c, path).Some? ensures RefsHere(At(c, path).value, allowed) {
      assert ([head] + path)[1..] == path;
      assert At(v, [head] + path) == At(c, path);
    }
  }

  lemma RefsUnfold(v: Json, allowed: set<string>)
    ensures RefsOk(v, allowed) <==>
              RefsHere(v, allowed) && forall head :: Child(v, head).Some? ==> RefsOk(Child(v, head).value, allowed)
  {
    hide RefsHere;
    if RefsOk(v, allowed) {
      assert At(v, []) == Some(v);
      forall head | Child(v, head).Some? ensures RefsOk(Child(v, head).value, allowed) {
        RefsInside(v, head, allowed);
      }
    }
    if RefsHere(v, allowed) && forall head :: Child(v, head).Some? ==> RefsOk(Child(v, head).value, allowed) {
      forall path: seq<Segment> | At(v, path).Some? ensures RefsHere(At(v, path).value, allowed) {
        if path != [] {
          assert Child(v, path[0]).Some?;
        }
      }
    }
  }

  method AllRefs(items: seq<Json>, allowed: set<string>) returns (ok: bool)
    ensures ok <==> forall i :: 0 <= i < |items| ==> RefOk(items[i], allowed)
  {
    for i := 0 to |items|
      invariant forall k :: 0 <= k < i ==> RefOk(items[k], allowed)
    {
      if !items[i].Str? || items[i].s !in allowed {
        return false;
      }
    }
    return true;
  }

  /** The recursive walk; the order in which it takes the keys does not matter. */
  method Walk(v: Json, allowed: set<string>) returns (ok: bool)
    ensures ok <==> RefsOk(v, allowed)
    decreases v
  {
    RefsUnfold(v, allowed);
    RefsUnderKeys(v, allowed);
    if v.Object? {
      var todo := v.fields.Keys;
      while todo != {}
        invariant todo <= v.fields.Keys
        invariant forall k :: k in v.fields && k !in todo ==> KeyRefs(v, k, allowed)
      {
        var key :| key in todo;
        todo := todo - {key};
        if key in REFERENCE_KEYS && v.fields[key].Array? {
          var listed := AllRefs(v.fields[key].items, allowed);
          if !listed {
            assert HasList(v, key, v.fields[key].items);
            return false;
          }
        }
        var inside := Walk(v.fields[key], allowed);
        if !inside {
          assert Child(v, Key(key)) == Some(v.fields[key]);
          return false;
        }
      }
    } else if v.Array? {
      for i := 0 to |v.items|
        invariant forall k :: 0 <= k < i ==> RefsOk(v.items[k], allowed)
      {
        var inside := Walk(v.items[i], allowed);
        if !inside {
          assert Child(v, Index(i)) == Some(v.items[i]);
          return false;
        }
      }
    }
    return true;
  }

  ghost predicate KeyRefs(v: Json, k: string, allowed: set<string>)
    requires v.Object? && k in v.fields
  {
    && (k in REFERENCE_KEYS ==> ListNames(v, k, allowed))
    && RefsOk(v.fields[k], allowed)
  }

  // ---- Claims and integrity ----

  function ItemsAt(root: Json, k: string): seq<Json> {
    if root.Object? && k in root.fields && root.fields[k].Array? then root.fields[k].items else []
  }

  function TextAt(v: Json, k: string): string {
    if v.Object? && k in v.fields && v.fields[k].Str? then v.fields[k].s else ""
  }

  /** An output claims nothing the executor does not vouch for: neither evidence nor references beyond the trusted
      ids, and no metrics or citations. */
  ghost predicate TrustedClaims(root: Json, trusted: set<string>) {
    && (forall items: seq<Json>, i :: HasList(root, "evidence", items) && 0 <= i < |items| && items[i].Object? ==>
          Vouched(items[i], trusted))
    && RefsOk(root, trusted)
    && (forall items :: HasList(root, "metrics", items) || HasList(root, "citations", items) ==> items == [])
  }

  /** An id that is no text counts as the empty one. */
  predicate Vouched(item: Json, trusted: set<string>)
    requires item.Object?
  {
    if "id" in item.fields && item.fields["id"].Str? then item.fields["id"].s in trusted else "" in trusted
  }

  lemma ListAt(root: Json, k: string)
    ensures forall items :: HasList(root, k, items) ==> items == ItemsAt(root, k)
    ensures ItemsAt(root, k) != [] ==> HasList(root, k, ItemsAt(root, k))
  {
  }

  lemma ListAtAll(k: string)
    ensures forall root: Json, items :: HasList(root, k, items) ==> items == ItemsAt(root, k)
  {
  }

  method ValidateTrustedClaims(root: Json, trusted: set<string>) returns (r: Option<Code>)
    ensures r.None? <==> TrustedClaims(root, trusted)
    ensures r.Some? ==> r.value == UntrustedClaims
  {
    ListAt(root, "evidence");
    ListAt(root, "metrics");
    ListAt(root, "citations");
    hide HasList, ItemsAt;
    var items := ItemsAt(root, "evidence");
    for i := 0 to |items|
      invariant forall k :: 0 <= k < i && items[k].Object? ==> Vouched(items[k], trusted)
    {
      if items[i].Object? && TextAt(items[i], "id") !in trusted {
        return Some(UntrustedClaims);
      }
    }
    var ok := Walk(root, trusted);
    if !ok || ItemsAt(root, "metrics") != [] || ItemsAt(root, "citations") != [] {
      return Some(UntrustedClaims);
    }
    return None;
  }

  /** The evidence ids an output declares, or what is wrong with them first. */
  function DeclaredIds(items: seq<Json>): Result<set<string>, Code> {
    if items == [] then Ok({})
    else
      var n := |items| - 1;
      match DeclaredIds(items[..n])
      case Err(c) => Err(c)
      case Ok(ids) =>
        if !items[n].Object? || "id" !in items[n].fields || !items[n].fields["id"].Str? then Err(ContractInvalid)
        else if items[n].fields["id"].s in ids then Err(EvidenceInvalid)
        else Ok(ids + {items[n].fields["id"].s})
  }

  predicate Declares(item: Json) { item.Object? && "id" in item.fields && item.fields["id"].Str? }

  function IdOf(item: Json): string
    requires Declares(item)
  {
    item.fields["id"].s
  }

  /** Every item declares an id and no id twice. */
  predicate Declaring(items: seq<Json>) {
    && (forall i :: 0 <= i < |items| ==> Declares(items[i]))
    && (forall i, j :: 0 <= i < j < |items| ==> IdOf(items[i]) != IdOf(items[j]))
  }

  predicate Repeats(items: seq<Json>, n: nat)
    requires n < |items| && Declares(items[n]) && Declaring(items[..n])
  {
    exists k :: 0 <= k < n && IdOf(items[..n][k]) == IdOf(items[n])
  }

  /** Item `n` is the first with something wrong, and this is its code. */
  predicate FirstBad(items: seq<Json>, n: nat, c: Code) {
    && n < |items| && Declaring(items[..n])
    && if Declares(items[n]) then c == EvidenceInvalid && Repeats(items, n) else c == ContractInvalid
  }

  /** The ids are accepted exactly if every item declares one and no two the same, and they are then the items'
      ids; otherwise the first item that declares none, or repeats one, decides the code. */
  lemma {:induction false} DeclaredIdsMeaning(items: seq<Json>)
    ensures DeclaredIds(items).Ok? <==> Declaring(items)
    ensures DeclaredIds(items).Ok? ==>
      forall x :: x in DeclaredIds(items).value <==> exists i :: 0 <= i < |items| && IdOf(items[i]) == x
    ensures DeclaredIds(items).Err? ==> exists n: nat :: FirstBad(items, n, DeclaredIds(items).error)
  {
    if items != [] {
      var n := |items| - 1;
      var rest := items[..n];
      DeclaredIdsMeaning(rest);
      if DeclaredIds(rest).Err? {
        var k: nat :| FirstBad(rest, k, DeclaredIds(rest).error);
        assert items[..k] == rest[..k] && items[k] == rest[k];
        assert FirstBad(items, k, DeclaredIds(rest).error);
        assert Declaring(items) ==> Declaring(rest);
      } else {
        LastItem(items, rest, DeclaredIds(rest).value);
      }
    }
  }

  lemma LastItem(items: seq<Json>, rest: seq<Json>, ids: set<string>)
    requires items != [] && rest == items[..|items| - 1] && Declaring(rest)
    requires forall x :: x in ids <==> exists i :: 0 <= i < |rest| && IdOf(rest[i]) == x
    ensures var item := items[|items| - 1];
      && (Declares(item) && IdOf(item) !in ids <==> Declaring(items))
      && (!Declares(item) ==> FirstBad(items, |items| - 1, ContractInvalid))
      && (Declares(item) && IdOf(item) in ids ==> FirstBad(items, |items| - 1, EvidenceInvalid))
      && (Declaring(items) ==> forall x :: x in ids + {IdOf(item)} <==>
          exists i :: 0 <= i < |items| && IdOf(items[i]) == x)
  {
    var n := |items| - 1;
    assert forall i :: 0 <= i < n ==> rest[i] == items[i];
    if Declaring(items) {
      assert IdOf(items[n]) !in ids;
      forall x | x in ids + {IdOf(items[n])} ensures exists i :: 0 <= i < |items| && IdOf(items[i]) == x {
        if x in ids {
          var i :| 0 <= i < n && IdOf(rest[i]) == x;
          assert IdOf(items[i]) == x;
        } else {
          assert IdOf(items[n]) == x;
        }
      }
    }
  }

  predicate Severe(severity: string) { severity == "high" || severity == "critical" }

  /** Findings of high or critical severity name evidence. */
  ghost predicate SevereBacked(items: seq<Json>) {
    forall i :: 0 <= i < |items| && (HasText(items[i], "severity", "high") || HasText(items[i], "severity", "critical"))
      ==> Refers(items[i])
  }

  ghost predicate Refers(v: Json) { exists refs :: HasList(v, "evidence_refs", refs) && refs != [] }

  lemma RefersHere(v: Json)
    ensures Refers(v) <==> ItemsAt(v, "evidence_refs") != []
  {
    ListAt(v, "evidence_refs");
  }

  ghost function Integrity(root: Json, trusted: set<string>): Option<Code> {
    match DeclaredIds(ItemsAt(root, "evidence"))
    case Err(c) => Some(c)
    case Ok(ids) =>
      if RefsOk(root, ids + trusted - {""}) && SevereBacked(ItemsAt(root, "findings")) then None
          else Some(EvidenceInvalid)
  }

  lemma {:induction false} DeclaredErrStays(items: seq<Json>, n: nat)
    requires n <= |items| && DeclaredIds(items[..n]).Err?
    ensures DeclaredIds(items) == DeclaredIds(items[..n])
    decreases |items|
  {
    if n == |items| {
      assert items[..n] == items;
    } else {
      assert items[..|items| - 1][..n] == items[..n];
      DeclaredErrStays(items[..|items| - 1], n);
    }
  }

  method CollectIds(items: seq<Json>) returns (r: Result<set<string>, Code>)
    ensures r == DeclaredIds(items)
  {
    var ids: set<string> := {};
    for i := 0 to |items|
      invariant DeclaredIds(items[..i]) == Ok(ids)
    {
      assert items[..i + 1][..i] == items[..i];
      if !items[i].Object? || "id" !in items[i].fields || !items[i].fields["id"].Str? {
        DeclaredErrStays(items, i + 1);
        return Err(ContractInvalid);
      }
      if items[i].fields["id"].s in ids {
        DeclaredErrStays(items, i + 1);
        return Err(EvidenceInvalid);
      }
      ids := ids + {items[i].fields["id"].s};
    }
    assert items[..|items|] == items;
    return Ok(ids);
  }

  method ValidateIntegrity(root: Json, trusted: set<string>) returns (r: Option<Code>)
    ensures r == Integrity(root, trusted)
  {
    hide DeclaredIds, RefsOk;
    var declared := CollectIds(ItemsAt(root, "evidence"));
    if declared.Err? {
      return Some(declared.error);
    }
    var ok := Walk(root, declared.value + trusted - {""});
    if !ok {
      return Some(EvidenceInvalid);
    }
    var items := ItemsAt(root, "findings");
    for i := 0 to |items|
      invariant SevereBacked(items[..i])
    {
      RefersHere(items[i]);
      if items[i].Object? && Severe(TextAt(items[i], "severity")) && ItemsAt(items[i], "evidence_refs") == [] {
        return Some(EvidenceInvalid);
      }
    }
    assert items[..|items|] == items;
    return None;
  }

  // ---- Parsing ----

  /** What the gate makes of an output, without regard to any order of keys. */
  ghost function Verdict(lib: Library, agent: string, raw: Bytes, trusted: set<string>): Result<Json, Code> {
    if lib.blank(raw) then Err(EmptyOutput)
    else if lib.decode(raw).None? then Err(Malformed)
    else
      var root := lib.decode(raw).value;
      if !root.Object? || "protocol" !in root.fields || agent !in lib.contracts then Err(ContractInvalid)
      else if !Conforms(lib.dates, Record(lib.contracts[agent]), root) then Err(ContractInvalid)
      else if !TrustedClaims(root, trusted) then Err(UntrustedClaims)
      else match Integrity(root, trusted)
        case Some(c) => Err(c)
        case None => Ok(root)
  }

  /** Parsing takes map keys in whatever order; verdict and error code are the same in all. */
  method ParseOutput(lib: Library, agent: string, raw: Bytes, trusted: set<string>) returns (r: Result<Json, Code>)
    ensures r == Verdict(lib, agent, raw, trusted)
    // Every finding of high or critical severity names evidence.
    ensures r.Ok? ==> forall items: seq<Json>, i ::
      && HasList(r.value, "findings", items) && 0 <= i < |items|
      && (HasText(items[i], "severity", "high") || HasText(items[i], "severity", "critical")) ==>
        exists refs :: HasList(items[i], "evidence_refs", refs) && refs != []
  {
    ListAtAll("findings");
    if lib.blank(raw) {
      return Err(EmptyOutput);
    }
    var decoded := lib.decode(raw);
    if decoded.None? {
      return Err(Malformed);
    }
    var root := decoded.value;
    if !root.Object? || "protocol" !in root.fields || agent !in lib.contracts {
      return Err(ContractInvalid);
    }
    var bad := ValidateObject(lib.dates, lib.contracts[agent], root);
    if bad.Some? {
      return Err(bad.value);
    }
    bad := ValidateTrustedClaims(root, trusted);
    if bad.Some? {
      return Err(bad.value);
    }
    bad := ValidateIntegrity(root, trusted);
    if bad.Some? {
      return Err(bad.value);
    }
    return Ok(root);
  }

  // ---- Findings ----

  function Texts(items: seq<Json>): seq<string> {
    if items == [] then []
    else Texts(items[..|items| - 1]) + (if items[|items| - 1].Str? then [items[|items| - 1].s] else [])
  }

  lemma {:induction false} TextsExact(items: seq<Json>, s: string)
    ensures s in Texts(items) <==> exists i :: 0 <= i < |items| && items[i] == Str(s)
  {
    if items != [] {
      var n := |items| - 1;
      TextsExact(items[..n], s);
      assert forall i :: 0 <= i < n ==> items[..n][i] == items[i];
      assert s in Texts(items) <==> s in Texts(items[..n]) || items[n] == Str(s);
    }
  }

  function FindingOf(v: Json): Finding {
    Finding(TextAt(v, "id"), TextAt(v, "type"), TextAt(v, "title"), TextAt(v, "severity"), TextAt(v, "status"),
            TextAt(v, "description"),
            Texts(ItemsAt(v, "evidence_refs")), Texts(ItemsAt(v, "asset_refs")), Texts(ItemsAt(v, "attack_techniques")))
  }

  function FindingsOf(items: seq<Json>): seq<Finding> {
    if items == [] then []
    else FindingsOf(items[..|items| - 1]) + (if items[|items| - 1].Object? then [FindingOf(items[|items| - 1])] else [])
  }

  method CollectTexts(items: seq<Json>) returns (r: seq<string>)
    ensures r == Texts(items)
  {
    r := [];
    for i := 0 to |items|
      invariant r == Texts(items[..i])
    {
      assert items[..i + 1][..i] == items[..i];
      if items[i].Str? {
        r := r + [items[i].s];
      }
    }
    assert items[..|items|] == items;
  }

  method CollectFindings(root: Json) returns (r: seq<Finding>)
    ensures r == FindingsOf(ItemsAt(root, "findings"))
  {
    var items := ItemsAt(root, "findings");
    r := [];
    for i := 0 to |items|
      invariant r == FindingsOf(items[..i])
    {
      assert items[..i + 1][..i] == items[..i];
      if items[i].Object? {
        var refs := CollectTexts(ItemsAt(items[i], "evidence_refs"));
        var assets := CollectTexts(ItemsAt(items[i], "asset_refs"));
        var techniques := CollectTexts(ItemsAt(items[i], "attack_techniques"));
        r := r + [Finding(TextAt(items[i], "id"), TextAt(items[i], "type"), TextAt(items[i], "title"),
                          TextAt(items[i], "severity"),
                          TextAt(items[i], "status"), TextAt(items[i], "description"), refs, assets, techniques)];
      }
    }
    assert items[..|items|] == items;
  }

  /** Every finding comes from an object of the list. */
  lemma {:induction false} FindingsExact(items: seq<Json>, f: Finding)
    ensures f in FindingsOf(items) <==> exists i :: 0 <= i < |items| && items[i].Object? && FindingOf(items[i]) == f
  {
    if items != [] {
      var n := |items| - 1;
      FindingsExact(items[..n], f);
      assert forall i :: 0 <= i < n ==> items[..n][i] == items[i];
      assert f in FindingsOf(items) <==> f in FindingsOf(items[..n]) || (items[n].Object? && FindingOf(items[n]) == f);
    }
  }

  /** What a finding of an accepted output refers to. */
  lemma FindingRefsTrusted(root: Json, trusted: set<string>, f: Finding, ref: string)
    requires RefsOk(root, trusted) && f in FindingsOf(ItemsAt(root, "findings")) && ref in f.evidenceRefs
    ensures ref in trusted
  {
    hide RefsHere, RefsOk;
    var items := ItemsAt(root, "findings");
    FindingsExact(items, f);
    var i :| 0 <= i < |items| && items[i].Object? && FindingOf(items[i]) == f;
    RefsInside(root, Key("findings"), trusted);
    RefsInside(root.fields["findings"], Index(i), trusted);
    RefsUnfold(items[i], trusted);
    ListedRef(items[i], trusted, ref);
  }

  lemma ListedRef(v: Json, trusted: set<string>, ref: string)
    requires RefsHere(v, trusted) && ref in Texts(ItemsAt(v, "evidence_refs"))
    ensures ref in trusted
  {
    TextsExact(ItemsAt(v, "evidence_refs"), ref);
    ListAt(v, "evidence_refs");
  }

  // ---- The gate ----

  function StatusFor(text: string): Status {
    if text == "completed" then Succeeded else if text == "blocked_by_policy" then Failed else Partial
  }

  function ConstrainedStatus(raw: Status, payload: Status): Status {
    if raw == Failed then Failed
    else if raw == Partial then if payload == Failed then Failed else Partial
    else if payload == Failed then Failed
    else if payload == Partial then Partial
    else Succeeded
  }

  function TrustedIds(evidence: seq<EvidenceRef>): (ids: set<string>)
    ensures forall x :: x in ids <==> x != "" && exists e :: e in evidence && e.id == x
  {
    set i | 0 <= i < |evidence| && evidence[i].id != "" :: evidence[i].id
  }

  function SummaryText(root: Json): string {
    if !Blank(TextAt(root, "summary")) then TextAt(root, "summary")
    else if !Blank(TextAt(root, "executive_summary")) then TextAt(root, "executive_summary")
    else if !Blank(TextAt(root, "answer")) then TextAt(root, "answer")
    else "agent output validated"
  }

  function CodeText(c: Code): string {
    match c
    case EmptyOutput => "agent_output_empty"
    case Malformed => "agent_output_malformed"
    case ContractInvalid => "agent_output_contract_invalid"
    case EvidenceInvalid => "agent_output_evidence_invalid"
    case UntrustedClaims => "agent_output_untrusted_claims"
  }

  /** What a passed gate guarantees of an execution's output. */
  ghost predicate Trustworthy(lib: Library, agent: string, given: ExecutionResult, gated: ExecutionResult) {
    var raw, trusted := given.result.rawOutput, TrustedIds(given.result.evidence);
    && lib.decode(raw).Some? && agent in lib.contracts
    && var root := lib.decode(raw).value;
       && root.Object? && "protocol" in root.fields && Conforms(lib.dates, Record(lib.contracts[agent]), root)
       && TrustedClaims(root, trusted)
       && Integrity(root, trusted) == None
       && gated.result.findings == FindingsOf(ItemsAt(root, "findings"))
       && gated.result.evidence == given.result.evidence
       && (gated.status == Succeeded ==> given.status == Succeeded && HasText(root, "status", "completed"))
       && (gated.status == Partial ==> given.status != Failed && !HasText(root, "status", "blocked_by_policy"))
  }

  /** The summary an output gives itself: the first of three texts that is not blank. */
  ghost predicate Summarizes(root: Json, text: string) {
    if HasWords(root, "summary") then HasText(root, "summary", text)
    else if HasWords(root, "executive_summary") then HasText(root, "executive_summary", text)
    else if HasWords(root, "answer") then HasText(root, "answer", text)
    else text == "agent output validated"
  }

  ghost predicate HasWords(v: Json, k: string) { exists s: string :: HasText(v, k, s) && !Blank(s) }

  lemma TextIs(v: Json, k: string)
    ensures forall s: string :: HasText(v, k, s) ==> s == TextAt(v, k)
    ensures HasWords(v, k) <==> !Blank(TextAt(v, k))
    ensures TextAt(v, k) != "" ==> HasText(v, k, TextAt(v, k))
  {
    assert !Blank(TextAt(v, k)) ==> HasText(v, k, TextAt(v, k));
  }

  lemma SummaryIs(root: Json)
    ensures Summarizes(root, SummaryText(root))
  {
    hide HasWords, TextAt, HasText, Blank;
    TextIs(root, "summary");
    TextIs(root, "executive_summary");
    TextIs(root, "answer");
    EmptyIsBlank();
  }

  lemma EmptyIsBlank()
    ensures Blank("")
  {
  }

  /** Each cause of a refusal has its code. */
  predicate CodeFor(c: Code, text: string) {
    && (c == EmptyOutput ==> text == "agent_output_empty") && (c == Malformed ==> text == "agent_output_malformed")
    && (c == ContractInvalid ==> text == "agent_output_contract_invalid")
    && (c == EvidenceInvalid ==> text == "agent_output_evidence_invalid")
    && (c == UntrustedClaims ==> text == "agent_output_untrusted_claims")
  }

  /** The failure an output that did not pass is turned into. */
  ghost predicate Refused(given: ExecutionResult, c: Code, r: ExecutionResult) {
    && r.status == Failed && CodeFor(c, r.result.errorCode)
    && CutTo(Text("agent output failed validation"), 4096, r.result.summary)
    && r.result == given.result.(summary := r.result.summary, findings := [], errorCode := r.result.errorCode,
                                 errorMessage := r.result.errorMessage)
  }

  /** What an output that passed becomes: its status is the lower of the executor's and its own. */
  ghost predicate Passed(given: ExecutionResult, root: Json, r: ExecutionResult) {
    && (r.status == Failed <==> HasText(root, "status", "blocked_by_policy"))
    && (r.status == Succeeded <==> given.status == Succeeded && HasText(root, "status", "completed"))
    && (r.status == Failed || r.status == Succeeded || r.status == Partial)
    && (exists text :: Summarizes(root, text) && CutTo(Text(text), 4096, r.result.summary))
    && CutTo(given.result.errorMessage, 16384, r.result.errorMessage)
    && r.result == given.result.(summary := r.result.summary, errorMessage := r.result.errorMessage,
                                 findings := FindingsOf(ItemsAt(root, "findings")))
  }

  /** What the gate makes of an execution, up to the text of the validation error, which may depend on the order
      of the keys. */
  ghost predicate Gated(lib: Library, agent: string, given: ExecutionResult, r: ExecutionResult) {
    && BoundResult(r.result) == r.result && r.result.rawOutput == given.result.rawOutput
    && if given.status != Succeeded && given.status != Partial then r == given.(result := BoundResult(given.result))
       else
         match Verdict(lib, agent, given.result.rawOutput, TrustedIds(given.result.evidence))
         case Err(c) => Refused(given, c, r)
         case Ok(root) => Passed(given, root, r) && Trustworthy(lib, agent, given, r)
  }

  lemma GatedIsTrustworthy(lib: Library, agent: string, given: ExecutionResult, r: ExecutionResult)
    requires Gated(lib, agent, given, r) && (r.status == Succeeded || r.status == Partial)
    ensures Trustworthy(lib, agent, given, r) && BoundResult(r.result) == r.result
  {
    hide Verdict, BoundResult, Trustworthy;
  }

  method Gate(lib: Library, agent: string, given: ExecutionResult, message: Bytes) returns (r: ExecutionResult)
    ensures Gated(lib, agent, given, r)
    ensures r.status == Succeeded || r.status == Partial ==> Trustworthy(lib, agent, given, r)
  {
    hide Verdict, Bounded, Conforms, TrustedClaims, Integrity, Refused, Passed, ConstrainedStatus, StatusFor;
    var original := given.result;
    var summary := BoundedText(original.summary, MAX_SUMMARY_BYTES);
    var errorMessage := BoundedText(original.errorMessage, MAX_ERROR_MESSAGE_BYTES);
    original := original.(summary := summary, errorMessage := errorMessage);
    StaysBounded(original, given.result.summary, given.result.errorMessage);
    if given.status != Succeeded && given.status != Partial {
      return given.(result := original);
    }
    var trusted := TrustedIds(original.evidence);
    var verdict := ParseOutput(lib, agent, original.rawOutput, trusted);
    VerdictMeaning(lib, agent, original.rawOutput, trusted);
    if verdict.Err? {
      var text := BoundedText(Text("agent output failed validation"), MAX_SUMMARY_BYTES);
      var cause := BoundedText(message, MAX_ERROR_MESSAGE_BYTES);
      var failed :=
          original.(summary := text, findings := [], errorCode := CodeText(verdict.error), errorMessage := cause);
      StaysBounded(failed, Text("agent output failed validation"), message);
      RefusedIs(given, verdict.error, failed);
      return ExecutionResult(Failed, failed);
    }
    var root := verdict.value;
    var text := BoundedText(Text(SummaryText(root)), MAX_SUMMARY_BYTES);
    var found := CollectFindings(root);
    var parsed := original.(summary := text, findings := found);
    StaysBounded(parsed, Text(SummaryText(root)), given.result.errorMessage);
    PassedIs(given, root, parsed);
    return ExecutionResult(ConstrainedStatus(given.status, StatusFor(TextAt(root, "status"))), parsed);
  }

  lemma RefusedIs(given: ExecutionResult, c: Code, failed: RunResult)
    requires failed.summary == Bounded(Text("agent output failed validation"), MAX_SUMMARY_BYTES)
    requires failed == given.result.(summary := failed.summary, findings := [], errorCode := CodeText(c),
                                     errorMessage := failed.errorMessage)
    ensures Refused(given, c, ExecutionResult(Failed, failed))
  {
    hide Bounded, LongestValidPrefix, Text;
    BoundedCuts(failed.(summary := Text("agent output failed validation")));
  }

  lemma PassedIs(given: ExecutionResult, root: Json, parsed: RunResult)
    requires given.status == Succeeded || given.status == Partial
    requires parsed.summary == Bounded(Text(SummaryText(root)), MAX_SUMMARY_BYTES)
    requires parsed.errorMessage == Bounded(given.result.errorMessage, MAX_ERROR_MESSAGE_BYTES)
    requires parsed == given.result.(summary := parsed.summary, errorMessage := parsed.errorMessage,
                                     findings := FindingsOf(ItemsAt(root, "findings")))
    ensures var r := ExecutionResult(ConstrainedStatus(given.status, StatusFor(TextAt(root, "status"))), parsed);
      && Passed(given, root, r)
      && (r.status == Partial ==> !HasText(root, "status", "blocked_by_policy"))
      && (r.status == Succeeded ==> given.status == Succeeded && HasText(root, "status", "completed"))
  {
    hide Bounded, LongestValidPrefix, Text, Summarizes, HasText, TextAt;
    BoundedCuts(given.result.(summary := Text(SummaryText(root))));
    SummaryIs(root);
    TextIs(root, "status");
  }

  lemma VerdictMeaning(lib: Library, agent: string, raw: Bytes, trusted: set<string>)
    ensures Verdict(lib, agent, raw, trusted).Ok? ==>
              var root := Verdict(lib, agent, raw, trusted).value;
              && lib.decode(raw) == Some(root) && agent in lib.contracts && root.Object? && "protocol" in root.fields
              && Conforms(lib.dates, Record(lib.contracts[agent]), root)
              && TrustedClaims(root, trusted) && Integrity(root, trusted) == None
  {
    hide Conforms, TrustedClaims, Integrity;
  }

  /** Bounding twice is bounding once: SetResult leaves what the gate bounded alone. */
  lemma StaysBounded(r: RunResult, summary: Bytes, message: Bytes)
    requires r.summary == Bounded(summary, MAX_SUMMARY_BYTES)
    requires r.errorMessage == Bounded(message, MAX_ERROR_MESSAGE_BYTES)
    ensures BoundResult(r) == r
  {
    hide Bounded;
    BoundedIdempotent(summary, MAX_SUMMARY_BYTES);
    BoundedIdempotent(message, MAX_ERROR_MESSAGE_BYTES);
  }

  // ---- Findings against the evidence store ----

  /** A severe finding refers to something, and every finding to allowed ids only. */
  predicate FindingBacked(f: Finding, allowed: set<string>) {
    && (f.severity == "high" || f.severity == "critical" ==> f.evidenceRefs != [])
    && forall ref :: ref in f.evidenceRefs ==> ref != "" && ref in allowed
  }

  method ValidateResultEvidence(findings: seq<Finding>, allowed: set<string>) returns (ok: bool)
    ensures ok <==> forall i :: 0 <= i < |findings| ==> FindingBacked(findings[i], allowed)
  {
    for i := 0 to |findings|
      invariant forall k :: 0 <= k < i ==> FindingBacked(findings[k], allowed)
    {
      var f := findings[i];
      if Severe(f.severity) && f.evidenceRefs == [] {
        return false;
      }
      for j := 0 to |f.evidenceRefs|
        invariant forall k :: 0 <= k < j ==> f.evidenceRefs[k] != "" && f.evidenceRefs[k] in allowed
      {
        if f.evidenceRefs[j] == "" || f.evidenceRefs[j] !in allowed {
          assert f.evidenceRefs[j] in findings[i].evidenceRefs;
          return false;
        }
      }
    }
    return true;
  }

  function IdsOf(records: seq<EvidenceRef>): (ids: set<string>)
    ensures forall x :: x in ids <==> exists e :: e in records && e.id == x
  {
    set i | 0 <= i < |records| :: records[i].id
  }

  ghost predicate AllBacked(findings: seq<Finding>, allowed: set<string>) {
    forall i :: 0 <= i < |findings| ==> FindingBacked(findings[i], allowed)
  }

  /** The findings' check of a gated result against what the evidence store lists for the run. */
  ghost predicate Checked(gated: ExecutionResult, records: Result<seq<EvidenceRef>, Error>, r: ExecutionResult) {
    if gated.status == Failed || (records.Ok? && AllBacked(gated.result.findings, IdsOf(records.value))) then r == gated
    else
      && r.status == Failed
      && r.result == gated.result.(errorCode := "agent_output_evidence_invalid", errorMessage := r.result.errorMessage)
  }

  /** What the worker makes of an execution: what returned an error is left as it is, everything else is gated and
      checked. */
  ghost predicate Concludes(lib: Library, agent: string, given: ExecutionResult, err: ExecError,
                            records: Result<seq<EvidenceRef>, Error>, r: ExecutionResult) {
    if err != NoError then r == given
    else exists gated :: Gated(lib, agent, given, gated) && Checked(gated, records, r)
  }

  method Conclude(lib: Library, agent: string, given: ExecutionResult, err: ExecError,
                  records: Result<seq<EvidenceRef>, Error>,
                  gateMessage: Bytes, message: Bytes)
    returns (r: ExecutionResult)
    ensures Concludes(lib, agent, given, err, records, r)
  {
    hide Gated, FindingBacked, Trustworthy;
    if err != NoError {
      return given;
    }
    var gated := Gate(lib, agent, given, gateMessage);
    r := gated;
    if r.status != Failed {
      if records.Err? {
        r := ExecutionResult(Failed, r.result.(errorCode := CodeText(EvidenceInvalid), errorMessage := message));
      } else {
        var ok := ValidateResultEvidence(r.result.findings, IdsOf(records.value));
        if !ok {
          r := ExecutionResult(Failed, r.result.(errorCode := CodeText(EvidenceInvalid), errorMessage := message));
        }
      }
    }
    assert Gated(lib, agent, given, gated) && Checked(gated, records, r);
  }

  /** A conclusion is a gated result whose findings were all in the store. */
  lemma ConclusionPassed(lib: Library, agent: string, given: ExecutionResult,
                         records: Result<seq<EvidenceRef>, Error>, r: ExecutionResult)
    requires Concludes(lib, agent, given, NoError, records, r) && (r.status == Succeeded || r.status == Partial)
    ensures records.Ok? && Conclusion(lib, agent, given, records.value, r.result, r.status)
    ensures BoundResult(r.result) == r.result
  {
    hide Gated, FindingBacked, Trustworthy, BoundResult;
    var gated :| Gated(lib, agent, given, gated) && Checked(gated, records, r);
    GatedIsTrustworthy(lib, agent, given, gated);
    KeepsRawOutput(lib, agent, given, NoError, records, r);
    AllFindings(lib, agent, given, r, records.value);
  }

  /** Gate and evidence check leave the raw output alone. */
  lemma KeepsRawOutput(lib: Library, agent: string, given: ExecutionResult, err: ExecError,
                       records: Result<seq<EvidenceRef>, Error>,
                       r: ExecutionResult)
    requires Concludes(lib, agent, given, err, records, r)
    ensures r.result.rawOutput == given.result.rawOutput
  {
    hide BoundResult, Verdict, Trustworthy, AllBacked;
  }

  /** Whatever passes the gate can be stored. */
  lemma PassedEncodes(lib: Library, agent: string, given: ExecutionResult, records: Result<seq<EvidenceRef>, Error>,
                      r: ExecutionResult)
    requires Lawful(lib) && Concludes(lib, agent, given, NoError, records, r)
    requires (r.status == Succeeded || r.status == Partial)
    ensures Encodes(lib.isJson, r.result)
  {
    hide BoundResult, AllBacked, Conforms, TrustedClaims, Integrity;
    ConclusionPassed(lib, agent, given, records, r);
    KeepsRawOutput(lib, agent, given, NoError, records, r);
  }

  /** Output that is not JSON text is refused as malformed, and kept as it is. */
  lemma MalformedIsKept(lib: Library, agent: string, given: ExecutionResult, records: Result<seq<EvidenceRef>, Error>,
                        r: ExecutionResult)
    requires Concludes(lib, agent, given, NoError, records, r) && (given.status == Succeeded || given.status == Partial)
    requires !lib.blank(given.result.rawOutput) && lib.decode(given.result.rawOutput).None?
    ensures r.status == Failed && r.result.errorCode == "agent_output_malformed"
    ensures r.result.rawOutput == given.result.rawOutput
  {
    hide BoundResult, AllBacked, Trustworthy;
  }

  /** What the gate makes of such output. */
  lemma RefusedAs(lib: Library, agent: string, given: ExecutionResult) returns (r: ExecutionResult)
    requires given.status == Succeeded && !lib.blank(given.result.rawOutput) && lib.decode(given.result.rawOutput).None?
    ensures forall records :: Concludes(lib, agent, given, NoError, records, r)
  {
    hide Bounded, Trustworthy, AllBacked;
    var failed :=
        given.result.(summary := Bounded(Text("agent output failed validation"), MAX_SUMMARY_BYTES), findings := [],
                      errorCode := CodeText(Malformed),
                                errorMessage := Bounded([], MAX_ERROR_MESSAGE_BYTES));
    StaysBounded(failed, Text("agent output failed validation"), []);
    BoundedCuts(failed.(summary := Text("agent output failed validation")));
    r := ExecutionResult(Failed, failed);
    assert Gated(lib, agent, given, r);
    assert forall records :: Checked(r, records, r);
  }

  /** What holds of a stored conclusion and the output it keeps. */
  ghost predicate Conclusion(lib: Library, agent: string, given: ExecutionResult, records: seq<EvidenceRef>,
                             stored: RunResult, status: Status) {
    && stored.rawOutput == given.result.rawOutput
    && Trustworthy(lib, agent, given, ExecutionResult(status, stored))
    && (forall f :: f in stored.findings ==> FindingBacked(f, IdsOf(records)))
    && (forall f, ref :: f in stored.findings && ref in f.evidenceRefs ==> ref in TrustedIds(given.result.evidence))
  }

  /** No finding of high or critical severity stands without evidence. */
  predicate NoSevereGuess(findings: seq<Finding>) {
    forall f :: f in findings && (f.severity == "high" || f.severity == "critical") ==> f.evidenceRefs != []
  }

  lemma ConclusionIsNoGuess(lib: Library, agent: string, given: ExecutionResult, records: seq<EvidenceRef>,
                            stored: RunResult, status: Status)
    requires Conclusion(lib, agent, given, records, stored, status)
    ensures NoSevereGuess(stored.findings)
  {
    hide Trustworthy;
  }

  /** End to end, where the disk works: the end of an execution is stored if and only if its raw output is empty
      or JSON text, as is that of every output that passes, and the record keeps it as it is; a run stored as succeeded
      or partial keeps an output that conforms to its agent's contract, whose every evidence reference, at any depth,
      names evidence the executor vouches for, with no metrics or citations, whose findings are the stored ones and all
      in the run's evidence store, the severe ones with a reference, and with a status no better than the executor's
      and the output's own. */
  method EndRun(lib: Library, r: Run, executor: string, given: ExecutionResult, err: ExecError, errText: string,
                records: Result<seq<EvidenceRef>, Error>, gateMessage: Bytes, message: Bytes, now: int)
    returns (after: Result<Run, Error>, outcome: ExecutionResult)
    requires r.status == Running
    ensures Concludes(lib, r.terms.agentId, given, err, records, outcome)
    ensures after.Ok? <==> given.result.rawOutput == [] || lib.isJson(given.result.rawOutput)
    ensures Lawful(lib) && err == NoError && (outcome.status == Succeeded || outcome.status == Partial) ==> after.Ok?
    ensures after.Ok? ==> after.value.status.Terminal() && after.value.result.Some?
    ensures after.Ok? ==> after.value.result.value.rawOutput == given.result.rawOutput
    ensures after.Ok? && (after.value.status == Succeeded || after.value.status == Partial) ==>
      && err == NoError && records.Ok?
      && Conclusion(lib, r.terms.agentId, given, records.value, after.value.result.value, after.value.status)
      && NoSevereGuess(after.value.result.value.findings)
  {
    hide Conclusion, Concludes, BoundResult, FinalStatus, FinalResult, Mutate;
    outcome := Conclude(lib, r.terms.agentId, given, err, records, gateMessage, message);
    var m := Finish(executor, outcome, err, errText, now);
    after := Mutate(m, r);
    FinishStores(m, r);
    FinishKeepsRaw(m);
    KeepsRawOutput(lib, r.terms.agentId, given, err, records, outcome);
    if err == NoError && (outcome.status == Succeeded || outcome.status == Partial) {
      ConclusionPassed(lib, r.terms.agentId, given, records, outcome);
      ConclusionIsNoGuess(lib, r.terms.agentId, given, records.value, outcome.result, outcome.status);
      if Lawful(lib) {
        PassedEncodes(lib, r.terms.agentId, given, records, outcome);
      }
    }
    if after.Ok? && !Encodable(lib.isJson, after.value) {
      after := Err(IoError);
    }
  }

  lemma AllFindings(lib: Library, agent: string, given: ExecutionResult, outcome: ExecutionResult,
                    records: seq<EvidenceRef>)
    requires Trustworthy(lib, agent, given, outcome) && outcome.result.rawOutput == given.result.rawOutput
    requires AllBacked(outcome.result.findings, IdsOf(records))
    ensures Conclusion(lib, agent, given, records, outcome.result, outcome.status)
  {
    hide FindingBacked, Conforms, RefsOk, Integrity;
    var root := lib.decode(given.result.rawOutput).value;
    forall f, ref | f in outcome.result.findings && ref in f.evidenceRefs
      ensures ref in TrustedIds(given.result.evidence) {
      FindingRefsTrusted(root, TrustedIds(given.result.evidence), f, ref);
    }
  }
}
