/** Evidence records: the normal form they are stored in, and their binding to the artifacts of a run. */
module Evidence {
  import opened Prelude
  import opened Utf8
  import opened Domain
  import opened Strings

  const MAX_ID_BYTES := 128
  const MAX_SOURCE_BYTES := 2048
  const MAX_EXCERPT_BYTES := 65536
  const MAX_MAP_ENTRIES := 128
  const MAX_MAP_VALUE_BYTES := 4096
  const MAX_ARTIFACT_REFS := 128

  predicate IdentifierChar(c: char) {
    'a' <= c <= 'z' || 'A' <= c <= 'Z' || '0' <= c <= '9' || c == '_' || c == '-' || c == '.'
  }

  predicate ValidIdentifier(s: string) {
    s != "" && s != "." && s != ".." && forall i :: 0 <= i < |s| ==> IdentifierChar(s[i])
  }

  lemma {:induction false} AsciiLength(s: string)
    requires forall i :: 0 <= i < |s| ==> s[i] < '\U{80}'
    ensures ByteLen(s) == |s|
  {
    AsciiEncodes(seq(|s|, i requires 0 <= i < |s| => s[i] as int));
  }

  lemma {:induction false} AsciiEncodes(text: seq<int>)
    requires forall i :: 0 <= i < |text| ==> 0 <= text[i] < 0x80
    ensures |EncodeAll(text)| == |text|
  {
    if text != [] {
      AsciiEncodes(text[1..]);
    }
  }

  /** An identifier counts one byte a character and has no white space to trim. */
  lemma IdentifierShape(s: string)
    requires ValidIdentifier(s)
    ensures ByteLen(s) == |s| && Trimmed(s) && TrimSpace(s) == s
  {
    hide TrimSpace;
    AsciiLength(s);
    assert IdentifierChar(s[0]) && IdentifierChar(s[|s| - 1]);
    TrimFixed(s);
  }

  predicate MapAccepted(m: map<string, string>) {
    && |m| <= MAX_MAP_ENTRIES
    && forall k :: k in m ==> !Blank(k) && ByteLen(k) <= MAX_ID_BYTES && ByteLen(m[k]) <= MAX_MAP_VALUE_BYTES
  }

  predicate Named(s: string, limit: nat) { s != "" && ByteLen(s) <= limit }

  predicate IdsAccepted(ids: seq<string>) {
    && |ids| <= MAX_ARTIFACT_REFS
    && (forall i :: 0 <= i < |ids| ==> ValidIdentifier(ids[i]) && ByteLen(ids[i]) <= MAX_ID_BYTES)
    && (forall i, j :: 0 <= i < j < |ids| ==> ids[i] != ids[j])
  }

  predicate Accepted(e: EvidenceRef) {
    && ValidIdentifier(e.id) && ByteLen(e.id) <= MAX_ID_BYTES
    && Named(e.kind, 128) && Named(e.sourceUri, MAX_SOURCE_BYTES) && Hex64(e.sha256) && Named(e.tool, 128)
    && Named(e.toolVersion, 128)
    && e.collectedAt != 0 && ByteLen(e.excerpt) <= MAX_EXCERPT_BYTES
    && e.parameters.Some? && MapAccepted(e.parameters.value) && (e.metadata.Some? ==> MapAccepted(e.metadata.value))
    && IdsAccepted(e.artifactIds)
  }

  function TrimIds(ids: seq<string>): (t: seq<string>)
    ensures |t| == |ids| && forall i :: 0 <= i < |ids| ==> t[i] == TrimSpace(ids[i])
  {
    seq(|ids|, i requires 0 <= i < |ids| => TrimSpace(ids[i]))
  }

  function Trim(e: EvidenceRef): EvidenceRef {
    e.(id := TrimSpace(e.id), kind := TrimSpace(e.kind), sourceUri := TrimSpace(e.sourceUri), tool := TrimSpace(e.tool),
       toolVersion := TrimSpace(e.toolVersion), sha256 := ToLower(TrimSpace(e.sha256)),
           artifactIds := TrimIds(e.artifactIds))
  }

  function Normalize(e: EvidenceRef): Result<EvidenceRef, Error> {
    if Accepted(Trim(e)) then Ok(Trim(e)) else Err(InvalidRequest)
  }

  method ValidateStringMap(m: map<string, string>) returns (ok: bool)
    ensures ok == MapAccepted(m)
  {
    if |m| > MAX_MAP_ENTRIES {
      return false;
    }
    var todo := m.Keys;
    while todo != {}
      invariant todo <= m.Keys
      invariant forall k :: k in m && k !in todo ==>
          !Blank(k) && ByteLen(k) <= MAX_ID_BYTES && ByteLen(m[k]) <= MAX_MAP_VALUE_BYTES
    {
      var k :| k in todo;
      TrimEmpty(k);
      if TrimSpace(k) == "" || ByteLen(k) > MAX_ID_BYTES || ByteLen(m[k]) > MAX_MAP_VALUE_BYTES {
        return false;
      }
      todo := todo - {k};
    }
    return true;
  }

  method NormalizeIds(ids: array<string>) returns (ok: bool)
    requires ids.Length <= MAX_ARTIFACT_REFS
    modifies ids
    ensures ok == IdsAccepted(TrimIds(old(ids[..])))
    ensures ok ==> ids[..] == TrimIds(old(ids[..]))
  {
    hide TrimSpace, ByteLen, ValidIdentifier;
    ghost var given := ids[..];
    var seen: set<string> := {};
    var i := 0;
    while i < ids.Length
      invariant 0 <= i <= ids.Length
      invariant forall k :: 0 <= k < i ==>
          ids[k] == TrimSpace(given[k]) && ValidIdentifier(ids[k]) && ByteLen(ids[k]) <= MAX_ID_BYTES
      invariant forall k :: i <= k < ids.Length ==> ids[k] == given[k]
      invariant forall x :: x in seen <==> exists k :: 0 <= k < i && TrimSpace(given[k]) == x
      invariant forall j, k :: 0 <= j < k < i ==> TrimSpace(given[j]) != TrimSpace(given[k])
    {
      var id := TrimSpace(ids[i]);
      if !ValidIdentifier(id) || ByteLen(id) > MAX_ID_BYTES || id in seen {
        assert TrimIds(given)[i] == id;
        assert id in seen ==> exists k :: 0 <= k < i && TrimIds(given)[k] == id;
        return false;
      }
      seen := seen + {id};
      ids[i] := id;
      i := i + 1;
    }
    return true;
  }

  method NormalizeEvidence(given: EvidenceRef) returns (r: Result<EvidenceRef, Error>)
    ensures r == Normalize(given)
  {
    hide TrimSpace, ToLower, Hex64, ByteLen, ValidIdentifier, MapAccepted, IdsAccepted;
    var e := given.(id := TrimSpace(given.id), kind := TrimSpace(given.kind), sourceUri := TrimSpace(given.sourceUri),
                    tool := TrimSpace(given.tool), toolVersion := TrimSpace(given.toolVersion),
                        sha256 := ToLower(TrimSpace(given.sha256)));
    if !ValidIdentifier(e.id) || ByteLen(e.id) > MAX_ID_BYTES {
      return Err(InvalidRequest);
    }
    if e.kind == "" || ByteLen(e.kind) > 128 || e.sourceUri == "" || ByteLen(e.sourceUri) > MAX_SOURCE_BYTES {
      return Err(InvalidRequest);
    }
    if !Hex64(e.sha256) || e.tool == "" || ByteLen(e.tool) > 128 || e.toolVersion == "" ||
        ByteLen(e.toolVersion) > 128 {
      return Err(InvalidRequest);
    }
    if e.collectedAt == 0 || ByteLen(e.excerpt) > MAX_EXCERPT_BYTES || e.parameters.None? {
      return Err(InvalidRequest);
    }
    var parametersOk := ValidateStringMap(e.parameters.value);
    var metadataOk := true;
    if e.metadata.Some? {
      metadataOk := ValidateStringMap(e.metadata.value);
    }
    if !parametersOk || !metadataOk {
      return Err(InvalidRequest);
    }
    if |e.artifactIds| > MAX_ARTIFACT_REFS {
      TooManyIds(e.artifactIds);
      return Err(InvalidRequest);
    }
    var ids := new string[|e.artifactIds|](i requires 0 <= i < |e.artifactIds| => e.artifactIds[i]);
    assert ids[..] == given.artifactIds;
    var idsOk := NormalizeIds(ids);
    if !idsOk {
      return Err(InvalidRequest);
    }
    return Ok(e.(artifactIds := ids[..]));
  }

  lemma TooManyIds(ids: seq<string>)
    requires |ids| > MAX_ARTIFACT_REFS
    ensures !IdsAccepted(TrimIds(ids))
  {
  }

  /** What the store keeps is in normal form: normalising it again changes nothing. */
  lemma NormalizeTwice(e: EvidenceRef)
    requires Normalize(e).Ok?
    ensures Normalize(Normalize(e).value) == Normalize(e)
  {
    hide TrimSpace, ByteLen, MapAccepted, Hex64;
    var n := Trim(e);
    TrimFixed(n.id);
    TrimFixed(n.kind);
    TrimFixed(n.sourceUri);
    TrimFixed(n.tool);
    TrimFixed(n.toolVersion);
    LowerStays(TrimSpace(e.sha256));
    forall i | 0 <= i < |n.artifactIds| ensures TrimSpace(n.artifactIds[i]) == n.artifactIds[i] {
      TrimFixed(n.artifactIds[i]);
    }
    assert TrimIds(n.artifactIds) == n.artifactIds;
  }

  /** The same record without white space at the ends of its texts, and with its digest in lower case. */
  predicate Trims(e: EvidenceRef, n: EvidenceRef) {
    && n == e.(id := n.id, kind := n.kind, sourceUri := n.sourceUri, sha256 := n.sha256, tool := n.tool,
               toolVersion := n.toolVersion, artifactIds := n.artifactIds)
    && n.id == TrimSpace(e.id) && n.kind == TrimSpace(e.kind) && n.sourceUri == TrimSpace(e.sourceUri)
    && n.sha256 == ToLower(TrimSpace(e.sha256)) && n.tool == TrimSpace(e.tool)
    && n.toolVersion == TrimSpace(e.toolVersion) && |n.artifactIds| == |e.artifactIds|
    && forall i :: 0 <= i < |e.artifactIds| ==> n.artifactIds[i] == TrimSpace(e.artifactIds[i])
  }

  /** Letters, digits, underscores, hyphens and dots, but no path to another directory. */
  predicate PlainId(id: string) {
    && id !in {"", ".", ".."} && ByteLen(id) <= 128
    && forall i :: 0 <= i < |id| ==>
         || 'a' <= id[i] <= 'z' || 'A' <= id[i] <= 'Z' || '0' <= id[i] <= '9' || id[i] in {'_', '-', '.'}
  }

  predicate SmallEntries(m: map<string, string>) {
    |m| <= 128 && forall k :: k in m ==> !Blank(k) && ByteLen(k) <= 128 && ByteLen(m[k]) <= 4096
  }

  predicate WithinLimits(n: EvidenceRef) {
    && PlainId(n.id) && n.kind != "" && ByteLen(n.kind) <= 128 && n.sourceUri != "" && ByteLen(n.sourceUri) <= 2048
    && |n.sha256| == 64 && (forall i :: 0 <= i < 64 ==> '0' <= n.sha256[i] <= '9' || 'a' <= n.sha256[i] <= 'f')
    && n.tool != "" && ByteLen(n.tool) <= 128 && n.toolVersion != "" && ByteLen(n.toolVersion) <= 128
    && n.collectedAt != 0 && ByteLen(n.excerpt) <= 65536
    && (match n.parameters case Some(m) => SmallEntries(m) case None => false)
    && (match n.metadata case Some(m) => SmallEntries(m) case None => true)
    && |n.artifactIds| <= 128 && (forall i :: 0 <= i < |n.artifactIds| ==> PlainId(n.artifactIds[i]))
    && (forall i, j :: 0 <= i < j < |n.artifactIds| ==> n.artifactIds[i] != n.artifactIds[j])
  }

  /** A record has a normal form exactly if its trimmed parts are within their limits, and that is then its form. */
  lemma NormalForm(e: EvidenceRef, n: EvidenceRef)
    ensures Normalize(e) == Ok(n) <==> Trims(e, n) && WithinLimits(n)
  {
    hide TrimSpace, ByteLen, Blank;
    if Trims(e, n) {
      assert n.artifactIds == TrimIds(e.artifactIds);
      assert n == Trim(e);
    }
    forall s: string ensures PlainId(s) <==> ValidIdentifier(s) && ByteLen(s) <= 128 {
    }
    LowerDigest(TrimSpace(e.sha256));
  }

  lemma LowerDigest(s: string)
    ensures Hex64(ToLower(s)) ==> LowerHex(ToLower(s))
  {
  }

  lemma LowerStays(s: string)
    requires Trimmed(s)
    ensures ToLower(TrimSpace(ToLower(s))) == ToLower(s)
  {
    hide TrimSpace;
    TrimFixed(ToLower(s));
    assert ToLower(ToLower(s)) == ToLower(s);
  }

  // ---- The binding to artifacts ----

  predicate EqualFold(a: string, b: string) { ToLower(a) == ToLower(b) }

  predicate FromArtifact(e: EvidenceRef) { "artifact://" <= e.sourceUri }

  predicate Binds(e: EvidenceRef, a: ArtifactRef) {
    EqualFold(a.sha256, e.sha256) && (FromArtifact(e) ==> a.uri == e.sourceUri)
  }

  type ArtifactReader = string -> Result<ArtifactRef, Error>

  /** Every referenced artifact is registered, and one of them is what the record's digest, and for an
      artifact source also its URI, names. */
  predicate Bound(e: EvidenceRef, artifact: ArtifactReader) {
    && (forall i :: 0 <= i < |e.artifactIds| ==> artifact(e.artifactIds[i]).Ok?)
    && (e.artifactIds != [] ==> exists i :: 0 <= i < |e.artifactIds| && Binds(e, artifact(e.artifactIds[i]).value))
  }

  method ValidateEvidenceScope(e: EvidenceRef, run: Option<Run>, tenant: string, artifact: ArtifactReader)
    returns (r: Result<(), Error>)
    ensures r.Ok? <==> run.Some? && run.value.Tenant() == tenant && Bound(e, artifact)
    ensures run.None? || run.value.Tenant() != tenant ==> r == Err(NotFound)
    ensures r.Err? && run.Some? && run.value.Tenant() == tenant ==>
              r.error == InvalidRequest || exists i ::
                  0 <= i < |e.artifactIds| && artifact(e.artifactIds[i]) == Err(r.error)
  {
    if run.None? || run.value.Tenant() != tenant {
      return Err(NotFound);
    }
    if e.artifactIds == [] {
      return Ok(());
    }
    var hashMatches, boundMatch := false, false;
    for i := 0 to |e.artifactIds|
      invariant forall k :: 0 <= k < i ==> artifact(e.artifactIds[k]).Ok?
      invariant hashMatches <==> exists k :: 0 <= k < i && EqualFold(artifact(e.artifactIds[k]).value.sha256, e.sha256)
      invariant boundMatch <==> exists k :: 0 <= k < i && EqualFold(artifact(e.artifactIds[k]).value.sha256, e.sha256)
                                            && artifact(e.artifactIds[k]).value.uri == e.sourceUri
    {
      var found := artifact(e.artifactIds[i]);
      if found.Err? {
        return Err(if found.error == NotFound then InvalidRequest else found.error);
      }
      hashMatches := hashMatches || EqualFold(found.value.sha256, e.sha256);
      boundMatch := boundMatch || (found.value.uri == e.sourceUri && EqualFold(found.value.sha256, e.sha256));
    }
    if FromArtifact(e) && !boundMatch {
      return Err(InvalidRequest);
    }
    if !FromArtifact(e) && !hashMatches {
      return Err(InvalidRequest);
    }
    return Ok(());
  }
}
