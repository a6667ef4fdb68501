/** The two run stores: the file store, with its request index over the run files, and the
    memory store it must agree with. */
module Stores {
  import opened Prelude
  import opened Utf8
  import opened Domain
  import opened Runs
  import opened RunUpdates
  import opened Disk
  import opened RunFiles

  type RunMap = map<string, Run>

  datatype Filter = Filter(tenantId: string, agentId: string, status: Option<Status>, limit: int)

  predicate Matches(f: Filter, r: Run) {
    && (f.tenantId != "" ==> r.Tenant() == f.tenantId)
    && (f.agentId != "" ==> r.terms.agentId == f.agentId)
    && (f.status.Some? ==> r.status == f.status.value)
  }

  // ---- What a store promises, whatever keeps the records ----

  ghost predicate KeyTaken(runs: RunMap, key: string) {
    exists id :: id in runs && KeyOf(runs[id]) == key
  }

  /** Both stores hand out copies made by encoding and decoding; a record that cannot be encoded is answered with
      an error. */
  function Cloned(isJson: Bytes -> bool, r: Result<Run, Error>): Result<Run, Error> {
    match r
    case Ok(run) => if Encodable(isJson, run) then r else Err(IoError)
    case Err(_) => r
  }

  ghost predicate AllEncodable(isJson: Bytes -> bool, runs: RunMap) {
    forall id :: id in runs ==> Encodable(isJson, runs[id])
  }

  ghost function Created(isJson: Bytes -> bool, runs: RunMap, r: Run): (RunMap, Result<(), Error>) {
    if r.id in runs || KeyTaken(runs, KeyOf(r)) then (runs, Err(AlreadyExists))
    else if !Encodable(isJson, r) then (runs, Err(IoError))
    else (runs[r.id := r], Ok(()))
  }

  /** The file store keeps nothing it cannot encode. */
  ghost function Updated(isJson: Bytes -> bool, runs: RunMap, id: string, m: Mutation): (RunMap, Result<Run, Error>) {
    if id !in runs then (runs, Err(NotFound))
    else
      match Mutate(m, runs[id])
      case Err(e) => (runs, Err(e))
      case Ok(r) => if Encodable(isJson, r) then (runs[id := r], Ok(r)) else (runs, Err(IoError))
  }

  /** The memory store copies the record before the update and again for its answer, and keeps the updated one in
      between. */
  ghost function UpdatedInMemory(isJson: Bytes -> bool, runs: RunMap, id: string,
                                 m: Mutation): (RunMap, Result<Run, Error>) {
    if id !in runs then (runs, Err(NotFound))
    else if !Encodable(isJson, runs[id]) then (runs, Err(IoError))
    else
      match Mutate(m, runs[id])
      case Err(e) => (runs, Err(e))
      case Ok(r) => (runs[id := r], Cloned(isJson, Ok(r)))
  }

  ghost function Gotten(runs: RunMap, id: string): Result<Run, Error> {
    if id in runs then Ok(runs[id]) else Err(NotFound)
  }

  ghost predicate IsFound(runs: RunMap, key: string, r: Result<Run, Error>) {
    if KeyTaken(runs, key) then r.Ok? && r.value.id in runs && runs[r.value.id] == r.value && KeyOf(r.value) == key
    else r == Err(NotFound)
  }

  predicate NewestFirst(s: seq<Run>) {
    forall i, j :: 0 <= i < j < |s| ==> s[i].id != s[j].id && s[i].terms.createdAt >= s[j].terms.createdAt
  }

  /** Newest first, every matching run exactly once; equal creation times in any order. */
  ghost predicate FullListing(runs: RunMap, f: Filter, full: seq<Run>) {
    && (forall i :: 0 <= i < |full| ==> full[i].id in runs && runs[full[i].id] == full[i] && Matches(f, full[i]))
    && (forall id :: id in runs && Matches(f, runs[id]) ==> runs[id] in full)
    && NewestFirst(full)
  }

  function Limited(full: seq<Run>, limit: int): seq<Run> {
    if 0 < limit < |full| then full[..limit] else full
  }

  // ---- What callers are promised ----

  /** What a listing answers: runs of the tenant, the agent and the status asked for, each once and newest first; all
      of them unless a limit is reached, and then none that is newer than a listed one is left out. */
  ghost predicate Lists(runs: RunMap, f: Filter, s: seq<Run>) {
    && (forall r :: r in s ==>
          && r.id in runs && runs[r.id] == r
          && (f.tenantId == "" || r.terms.scope.tenantId == f.tenantId)
          && (f.agentId == "" || r.terms.agentId == f.agentId)
          && (f.status == None || f.status == Some(r.status)))
    && (forall id | id in runs
          && (f.tenantId == "" || runs[id].terms.scope.tenantId == f.tenantId)
          && (f.agentId == "" || runs[id].terms.agentId == f.agentId)
          && (f.status == None || f.status == Some(runs[id].status)) ::
          runs[id] in s ||
          (0 < f.limit && |s| == f.limit && forall r :: r in s ==> r.terms.createdAt >= runs[id].terms.createdAt))
    && (0 < f.limit ==> |s| <= f.limit)
    && (forall i, j :: 0 <= i < j < |s| ==> s[i].id != s[j].id && s[i].terms.createdAt >= s[j].terms.createdAt)
  }

  lemma CutLists(runs: RunMap, f: Filter, full: seq<Run>)
    requires FullListing(runs, f, full)
    ensures Lists(runs, f, Limited(full, f.limit))
  {
    var s := Limited(full, f.limit);
    assert s == full[..|s|];
    assert forall r :: r in s ==> r in full;
    forall id | id in runs && Matches(f, runs[id]) && runs[id] !in s
      ensures 0 < f.limit && |s| == f.limit
      ensures forall r :: r in s ==> r.terms.createdAt >= runs[id].terms.createdAt
    {
      var k :| 0 <= k < |full| && full[k] == runs[id];
      assert full[k] in full[..|s|] || |s| <= k;
    }
  }

  /** This run was asked for by this tenant under this request id. */
  predicate AskedFor(r: Run, tenant: string, request: string) {
    r.terms.scope.tenantId == tenant && r.terms.requestId == request
  }

  ghost predicate Asked(runs: RunMap, tenant: string, request: string) {
    exists id :: id in runs && AskedFor(runs[id], tenant, request)
  }

  /** No tenant's name holds the separator of the keys. */
  ghost predicate Separable(runs: RunMap, tenant: string) {
    '\0' !in tenant && forall id :: id in runs ==> '\0' !in runs[id].terms.scope.tenantId
  }

  /** What a lookup by request id answers. */
  ghost predicate FindsAsked(runs: RunMap, tenant: string, request: string, r: Result<Run, Error>) {
    && (Asked(runs, tenant, request) ==> r != Err(NotFound))
    && (Separable(runs, tenant) ==>
          && (r == Err(NotFound) <==> !Asked(runs, tenant, request))
          && match r
             case Ok(run) => run.id in runs && runs[run.id] == run && AskedFor(run, tenant, request)
             case Err(_) => true)
  }

  /** What a creation is refused for. */
  ghost predicate RefusesTaken(runs: RunMap, run: Run, r: Result<(), Error>) {
    && (run.id in runs || Asked(runs, run.terms.scope.tenantId, run.terms.requestId) ==> r == Err(AlreadyExists))
    && (Separable(runs, run.terms.scope.tenantId) && r == Err(AlreadyExists) ==>
          run.id in runs || Asked(runs, run.terms.scope.tenantId, run.terms.requestId))
  }

  /** A key is taken exactly if the request was made. */
  lemma KeysAreRequests(runs: RunMap, tenant: string, request: string)
    ensures Asked(runs, tenant, request) ==> KeyTaken(runs, RequestKey(tenant, request))
    ensures Separable(runs, tenant) ==> forall id :: id in runs && KeyOf(runs[id]) == RequestKey(tenant, request) ==>
      AskedFor(runs[id], tenant, request)
  {
    hide RequestKey;
    if Separable(runs, tenant) {
      forall id | id in runs && KeyOf(runs[id]) == RequestKey(tenant, request)
        ensures AskedFor(runs[id], tenant, request)
      {
        RequestKeyInjective(runs[id].terms.scope.tenantId, runs[id].terms.requestId, tenant, request);
      }
    }
  }

  lemma FoundAsAsked(isJson: Bytes -> bool, runs: RunMap, tenant: string, request: string, found: Result<Run, Error>)
    requires IsFound(runs, RequestKey(tenant, request), found)
    ensures FindsAsked(runs, tenant, request, Cloned(isJson, found))
  {
    hide RequestKey, KeyOf, AskedFor, Encodable;
    KeysAreRequests(runs, tenant, request);
  }

  lemma TakenRefused(isJson: Bytes -> bool, runs: RunMap, r: Run)
    ensures RefusesTaken(runs, r, Created(isJson, runs, r).1)
  {
    hide RequestKey, AskedFor, Encodable;
    KeysAreRequests(runs, r.terms.scope.tenantId, r.terms.requestId);
  }

  /** The request index is exactly the inverse of the runs. */
  ghost predicate Indexed(runs: RunMap, byRequest: map<string, string>) {
    && (forall id :: id in runs ==>
        runs[id].id == id && KeyOf(runs[id]) in byRequest && byRequest[KeyOf(runs[id])] == id)
    && (forall key :: key in byRequest ==> byRequest[key] in runs && KeyOf(runs[byRequest[key]]) == key)
  }

  ghost predicate Mirrors(fs: Fs, runs: RunMap) {
    forall id :: RunAt(fs, id) == if id in runs then Some(runs[id]) else None
  }

  /** Some run the listing selects cannot be copied. */
  ghost predicate Unlistable(isJson: Bytes -> bool, runs: RunMap, f: Filter) {
    exists id :: id in runs && Matches(f, runs[id]) && !Encodable(isJson, runs[id])
  }

  /** The selection and ordering common to both stores' List. */
  method Select(isJson: Bytes -> bool, runs: RunMap, f: Filter) returns (ok: bool, full: seq<Run>)
    requires forall id :: id in runs ==> runs[id].id == id
    ensures ok <==> !Unlistable(isJson, runs, f)
    ensures ok ==> FullListing(runs, f, full)
  {
    full := [];
    var rest := runs.Keys;
    while rest != {}
      invariant rest <= runs.Keys
      invariant forall r :: r in full ==> r.id in runs && r.id !in rest && runs[r.id] == r && Matches(f, r)
      invariant forall id :: id in runs && id !in rest && Matches(f, runs[id]) ==>
          runs[id] in full && Encodable(isJson, runs[id])
      invariant NewestFirst(full)
    {
      var id :| id in rest;
      rest := rest - {id};
      if Matches(f, runs[id]) {
        if !Encodable(isJson, runs[id]) {
          return false, [];
        }
        full := Insert(full, runs[id]);
      }
    }
    return true, full;
  }

  method Insert(s: seq<Run>, r: Run) returns (t: seq<Run>)
    requires NewestFirst(s) && forall i :: 0 <= i < |s| ==> s[i].id != r.id
    ensures NewestFirst(t) && forall x :: x in t <==> x in s || x == r
  {
    hide NewestFirst;
    var k := 0;
    while k < |s| && s[k].terms.createdAt >= r.terms.createdAt
      invariant 0 <= k <= |s|
      invariant forall i :: 0 <= i < k ==> s[i].terms.createdAt >= r.terms.createdAt
    {
      k := k + 1;
    }
    t := s[..k] + [r] + s[k..];
    InsertKeepsOrder(s, r, k);
    forall x ensures x in t <==> x in s || x == r {
      assert s == s[..k] + s[k..];
    }
  }

  lemma InsertKeepsOrder(s: seq<Run>, r: Run, k: nat)
    requires NewestFirst(s) && k <= |s| && forall i :: 0 <= i < |s| ==> s[i].id != r.id
    requires forall i :: 0 <= i < k ==> s[i].terms.createdAt >= r.terms.createdAt
    requires k < |s| ==> s[k].terms.createdAt < r.terms.createdAt
    ensures NewestFirst(s[..k] + [r] + s[k..])
  {
    var t := s[..k] + [r] + s[k..];
    assert forall i :: 0 <= i < |t| ==> t[i] == if i < k then s[i] else if i == k then r else s[i - 1];
    assert forall i :: k < i < |s| ==> s[i].terms.createdAt <= s[k].terms.createdAt;
  }

  /** Two listings of the same runs differ at most in the order of equal creation times. */
  lemma {:induction false} ListingsAgree(runs: RunMap, f: Filter, a: seq<Run>, b: seq<Run>, k: nat)
    requires FullListing(runs, f, a) && FullListing(runs, f, b) && |a| == |b| && k < |a|
    ensures a[k].terms.createdAt == b[k].terms.createdAt
  {
    if a[k].terms.createdAt > b[k].terms.createdAt {
      NewerRunsFit(runs, f, a, b, k);
    } else if a[k].terms.createdAt < b[k].terms.createdAt {
      NewerRunsFit(runs, f, b, a, k);
    }
  }

  function Ids(s: seq<Run>): set<string> {
    set i | 0 <= i < |s| :: s[i].id
  }

  /** The k+1 newest runs of one listing cannot all be among the first k of another. */
  lemma NewerRunsFit(runs: RunMap, f: Filter, a: seq<Run>, b: seq<Run>, k: nat)
    requires FullListing(runs, f, a) && FullListing(runs, f, b) && k < |a| && k < |b|
    ensures a[k].terms.createdAt <= b[k].terms.createdAt
  {
    if a[k].terms.createdAt > b[k].terms.createdAt {
      var first, few := a[..k + 1], b[..k];
      forall id | id in Ids(first) ensures id in Ids(few) {
        var i :| 0 <= i < |first| && first[i].id == id;
        NewerIsEarlier(runs, f, a, b, i, k);
      }
      CountIds(first);
      CountIds(few);
      SubsetSize(Ids(first), Ids(few));
    }
  }

  lemma NewerIsEarlier(runs: RunMap, f: Filter, a: seq<Run>, b: seq<Run>, i: nat, k: nat)
    requires FullListing(runs, f, a) && FullListing(runs, f, b) && i <= k < |a| && k < |b|
    requires a[k].terms.createdAt > b[k].terms.createdAt
    ensures a[i].id in Ids(b[..k])
  {
    assert a[i].terms.createdAt >= a[k].terms.createdAt;
    assert a[i].id in runs && runs[a[i].id] == a[i];
    var j :| 0 <= j < |b| && b[j] == a[i];
    assert j < k;
    assert b[..k][j].id == a[i].id;
  }

  lemma {:induction false} CountIds(s: seq<Run>)
    requires forall i, j :: 0 <= i < j < |s| ==> s[i].id != s[j].id
    ensures |Ids(s)| == |s|
  {
    if s != [] {
      var init, last := s[..|s| - 1], s[|s| - 1];
      CountIds(init);
      forall id ensures id in Ids(s) <==> id in Ids(init) + {last.id} {
        if id in Ids(s) {
          var i :| 0 <= i < |s| && s[i].id == id;
          assert i < |s| - 1 ==> init[i].id == id;
        }
        if id in Ids(init) {
          var i :| 0 <= i < |init| && init[i].id == id;
          assert s[i].id == id;
        }
        assert s[|s| - 1].id in Ids(s);
      }
      assert Ids(s) == Ids(init) + {last.id};
    }
  }

  lemma {:induction false} SubsetSize(a: set<string>, b: set<string>)
    requires a <= b
    ensures |a| <= |b|
  {
    if a != {} {
      var x :| x in a;
      SubsetSize(a - {x}, b - {x});
    }
  }

  function Find(byRequest: map<string, string>, key: string): Option<string> {
    if key in byRequest then Some(byRequest[key]) else None
  }

  lemma IndexedPut(runs: RunMap, byRequest: map<string, string>, r: Run)
    requires Indexed(runs, byRequest) && r.id in runs && KeyOf(runs[r.id]) == KeyOf(r)
    ensures Indexed(runs[r.id := r], byRequest)
  {
    hide KeyOf;
  }

  lemma IndexedAdd(runs: RunMap, byRequest: map<string, string>, r: Run)
    requires Indexed(runs, byRequest) && r.id !in runs && KeyOf(r) !in byRequest
    ensures Indexed(runs[r.id := r], byRequest[KeyOf(r) := r.id])
  {
    hide KeyOf;
  }

  lemma MirrorsPut(fs: Fs, runs: RunMap, r: Run, fault: Fault)
    requires Mirrors(fs, runs)
    ensures Mirrors(PutRun(fs, r.id, r, fault), if fault == FailEarly then runs else runs[r.id := r])
  {
  }

  lemma SameKey(a: Run, b: Run)
    requires a.terms == b.terms
    ensures KeyOf(a) == KeyOf(b)
  {
  }

  lemma MirrorsAt(fs: Fs, runs: RunMap, id: string)
    requires Mirrors(fs, runs)
    ensures RunAt(fs, id) == if id in runs then Some(runs[id]) else None
  {
  }

  lemma IndexedAt(runs: RunMap, byRequest: map<string, string>, id: string)
    requires Indexed(runs, byRequest) && id in runs
    ensures runs[id].id == id
  {
  }

  /** Maps and files agree on which ids and which keys are taken. */
  lemma SameKeys(fs: Fs, runs: RunMap, byRequest: map<string, string>, r: Run)
    requires Mirrors(fs, runs) && Indexed(runs, byRequest)
    ensures r.id in runs <==> RunAt(fs, r.id).Some?
    ensures KeyOf(r) in byRequest <==> KeyTaken(runs, KeyOf(r))
    ensures KeyTaken(runs, KeyOf(r)) <==> KeyUsed(fs, KeyOf(r))
  {
    hide KeyOf;
    assert forall id :: RunAt(fs, id) == if id in runs then Some(runs[id]) else None;
  }

  lemma WrittenIsSafe(fs: Fs, r: Run)
    ensures Safe(PutRun(fs, r.id, r, NoFault), RunName(r.id), RunFile(r))
  {
  }

  lemma SyncedIsSafe(fs: Fs, runs: RunMap, id: string)
    requires Mirrors(fs, runs) && id in runs
    ensures Safe(Sync(fs, RunsDir), RunName(id), RunFile(runs[id]))
  {
    assert RunAt(fs, id) == Some(runs[id]);
  }

  lemma MirrorsSync(fs: Fs, runs: RunMap)
    requires Mirrors(fs, runs)
    ensures Mirrors(Sync(fs, RunsDir), runs)
  {
    assert forall i :: RunAt(Sync(fs, RunsDir), i) == RunAt(fs, i);
  }

  /** Every version of every run that the disk may still hold was encoded. */
  ghost predicate Encoded(isJson: Bytes -> bool, fs: Fs) {
    forall id, r :: HasRun(fs, id, r) ==> Encodable(isJson, r)
  }

  lemma EncodedSync(isJson: Bytes -> bool, fs: Fs)
    requires Encoded(isJson, fs)
    ensures Encoded(isJson, Sync(fs, RunsDir))
  {
    hide Encodable;
    assert forall id, q :: HasRun(Sync(fs, RunsDir), id, q) ==> HasRun(fs, id, q);
  }

  lemma EncodedPut(isJson: Bytes -> bool, fs: Fs, r: Run, fault: Fault)
    requires Encoded(isJson, fs)
    ensures Encoded(isJson, PutRun(fs, r.id, r, WriteFault(isJson, r, fault)))
  {
    hide Encodable;
    var after := PutRun(fs, r.id, r, WriteFault(isJson, r, fault));
    assert forall id, q :: HasRun(after, id, q) && q != r ==> HasRun(fs, id, q);
    assert !Encodable(isJson, r) ==> after == fs;
  }

  /** No restart brings up a record that was not encoded. */
  lemma EncodedSurvives(isJson: Bytes -> bool, fs: Fs, after: Fs)
    requires Encoded(isJson, fs) && Restart(fs, after)
    ensures Encoded(isJson, after)
  {
    hide Encodable;
    forall id, r | HasRun(after, id, r) ensures Encodable(isJson, r) {
      LossPicksCandidates(fs, after, RunName(id), Some(RunFile(r)));
      assert HasRun(fs, id, r);
    }
  }

  lemma EncodedRuns(isJson: Bytes -> bool, fs: Fs, runs: RunMap)
    requires Encoded(isJson, fs) && forall id :: id in runs ==> RunAt(fs, id) == Some(runs[id])
    ensures AllEncodable(isJson, runs)
  {
    hide Encodable;
    forall id | id in runs ensures Encodable(isJson, runs[id]) {
      assert HasRun(fs, id, runs[id]);
    }
  }

  /** A record that cannot be encoded is not written, whatever the disk does. */
  function WriteFault(isJson: Bytes -> bool, r: Run, fault: Fault): Fault {
    if Encodable(isJson, r) then fault else FailEarly
  }

  function UpdateFault(isJson: Bytes -> bool, fs: Fs, id: string, m: Mutation, fault: Fault): Fault {
    match RunAt(fs, id)
    case Some(r) => (match Mutate(m, r) case Ok(after) => WriteFault(isJson, after, fault) case Err(_) => fault)
    case None => fault
  }

  class FileStore {
    const isJson: Bytes -> bool
    var fs: Fs
    var runs: RunMap
    var byRequest: map<string, string>

    ghost predicate Valid()
      reads this
    {
      StoreInv(fs) && Encoded(isJson, fs) && Mirrors(fs, runs) && AllEncodable(isJson, runs) && Indexed(runs, byRequest)
    }

    /** Opens a state directory; what an earlier process left is read back. */
    constructor (disk: Fs, isJson: Bytes -> bool)
      ensures fs == disk && runs == map[] && byRequest == map[] && this.isJson == isJson
    {
      this.isJson := isJson;
      fs, runs, byRequest := disk, map[], map[];
    }

    /** Reading back never meets two runs with one request key. */
    method Load() returns (ok: bool)
      requires StoreInv(fs) && Encoded(isJson, fs) && runs == map[] && byRequest == map[]
      modifies `runs, `byRequest
      ensures ok && Valid()
    {
      hide StoreInv, Encoded, Encodable, KeyOf, Candidate;
      var rest := fs.visible.Keys;
      while rest != {}
        invariant rest <= fs.visible.Keys
        invariant forall id :: id in runs ==> RunName(id) !in rest && RunAt(fs, id) == Some(runs[id])
        invariant forall id :: RunAt(fs, id).Some? && RunName(id) !in rest ==> id in runs
        invariant Indexed(runs, byRequest)
      {
        var n :| n in rest;
        rest := rest - {n};
        if n.RunName? {
          var run := ReadBack(fs, n);
          var key := KeyOf(run);
          KeyIsNew(fs, runs, byRequest, run);
          IndexedAdd(runs, byRequest, run);
          runs := runs[run.id := run];
          var previous := Find(byRequest, key);
          if previous != None && previous != Some(run.id) {
            return false;
          }
          byRequest := byRequest[key := run.id];
        }
      }
      EncodedRuns(isJson, fs, runs);
      return true;
    }

    static lemma KeyIsNew(fs: Fs, runs: RunMap, byRequest: map<string, string>, run: Run)
      requires StoreInv(fs) && Indexed(runs, byRequest) && RunAt(fs, run.id) == Some(run) && run.id !in runs
      requires forall id :: id in runs ==> RunAt(fs, id) == Some(runs[id])
      ensures KeyOf(run) !in byRequest
    {
      assert forall id :: id in runs ==> KeyOf(runs[id]) != KeyOf(run);
    }

    static method ReadBack(fs: Fs, n: Name) returns (run: Run)
      requires StoreInv(fs) && n.RunName? && n in fs.visible
      ensures run.id == n.run && RunAt(fs, n.run) == Some(run)
    {
      hide History;
      assert Candidate(fs, n, Some(fs.visible[n]));
      run := fs.visible[n].record;
    }

    method Persist(run: Run, fault: Fault) returns (published: bool, ok: bool)
      modifies `fs
      ensures fs == PutRun(old(fs), run.id, run, WriteFault(isJson, run, fault))
      ensures published <==> fault != FailEarly && Encodable(isJson, run)
      ensures ok <==> (fault == NoFault || fault == FailAudit) && Encodable(isJson, run)
    {
      if !Encodable(isJson, run) || fault == FailEarly {
        return false, false;
      }
      fs := Publish(fs, RunName(run.id), RunFile(run));
      if fault == FailSync {
        return true, false;
      }
      fs := Sync(fs, RunsDir);
      return true, true;
    }

    method Create(run: Run, fault: Fault) returns (r: Result<(), Error>)
      requires Valid() && History(run)
      modifies this
      ensures Valid()
      ensures (fs, r) == CreateRun(old(fs), run, WriteFault(isJson, run, fault))
      ensures fault == NoFault ==> (runs, r) == Created(isJson, old(runs), run) && RefusesTaken(old(runs), run, r)
    {
      hide RefusesTaken, StoreInv, History, Encoded, Encodable, Mirrors, Indexed, KeyOf, PutRun, KeyTaken, KeyUsed;
      CreateKeeps(fs, run, WriteFault(isJson, run, fault));
      SameKeys(fs, runs, byRequest, run);
      TakenRefused(isJson, runs, run);
      if run.id in runs {
        return Err(AlreadyExists);
      }
      var key := KeyOf(run);
      if key in byRequest {
        return Err(AlreadyExists);
      }
      IndexedAdd(runs, byRequest, run);
      MirrorsPut(fs, runs, run, WriteFault(isJson, run, fault));
      EncodedPut(isJson, fs, run, fault);
      var published, ok := Persist(run, fault);
      if published {
        runs := runs[run.id := run];
        byRequest := byRequest[key := run.id];
      }
      if !ok || fault == FailAudit {
        return Err(IoError);
      }
      return Ok(());
    }

    method Get(id: string, fault: Fault) returns (r: Result<Run, Error>)
      requires Valid()
      modifies `fs
      ensures Valid()
      ensures fs == if fault == NoFault then Sync(old(fs), RunsDir) else old(fs)
      ensures r == if fault == NoFault then Gotten(runs, id) else Err(IoError)
      ensures r.Ok? ==> r.value.id == id && Safe(fs, RunName(id), RunFile(r.value))
    {
      if fault != NoFault {
        return Err(IoError);
      }
      hide StoreInv, Mirrors, Safe, Encoded, Encodable;
      SyncKeeps(fs, RunsDir);
      MirrorsSync(fs, runs);
      EncodedSync(isJson, fs);
      if id in runs {
        SyncedIsSafe(fs, runs, id);
      }
      fs := Sync(fs, RunsDir);
      if id !in runs {
        return Err(NotFound);
      }
      return Cloned(isJson, Ok(runs[id]));
    }

    method FindByRequestID(tenant: string, request: string, fault: Fault) returns (r: Result<Run, Error>)
      requires Valid()
      modifies `fs
      ensures Valid()
      ensures fs == if fault == NoFault then Sync(old(fs), RunsDir) else old(fs)
      ensures fault != NoFault ==> r == Err(IoError)
      ensures fault == NoFault ==> IsFound(runs, RequestKey(tenant, request), r) && FindsAsked(runs, tenant, request, r)
      ensures r.Ok? ==> Safe(fs, RunName(r.value.id), RunFile(r.value))
    {
      if fault != NoFault {
        return Err(IoError);
      }
      hide StoreInv, Mirrors, Safe, Encoded, Encodable, FindsAsked;
      SyncKeeps(fs, RunsDir);
      MirrorsSync(fs, runs);
      EncodedSync(isJson, fs);
      var key := RequestKey(tenant, request);
      if key in byRequest {
        SyncedIsSafe(fs, runs, byRequest[key]);
      }
      FoundAsAsked(isJson, runs, tenant, request, if key in byRequest then Ok(runs[byRequest[key]]) else Err(NotFound));
      fs := Sync(fs, RunsDir);
      if key !in byRequest {
        return Err(NotFound);
      }
      return Cloned(isJson, Ok(runs[byRequest[key]]));
    }

    method Update(id: string, m: Mutation, fault: Fault) returns (r: Result<Run, Error>)
      requires Valid()
      modifies this
      ensures Valid()
      ensures (fs, r) == UpdateRun(old(fs), id, m, UpdateFault(isJson, old(fs), id, m, fault))
      ensures fault == NoFault ==> (runs, r) == Updated(isJson, old(runs), id, m)
      ensures r.Ok? ==> r.value.id == id && Safe(fs, RunName(id), RunFile(r.value))
    {
      hide StoreInv, Mutate, Mirrors, Indexed, KeyOf, Safe, Encoded, Encodable;
      UpdateKeeps(fs, id, m, UpdateFault(isJson, fs, id, m, fault));
      MirrorsAt(fs, runs, id);
      if id !in runs {
        return Err(NotFound);
      }
      var current := runs[id];
      var copy := new RunRecord(current);
      var refused := Apply(m, copy);
      if refused.Some? {
        return Err(refused.value);
      }
      var updated := copy.Value();
      IndexedAt(runs, byRequest, id);
      MutateFrame(m, current);
      MirrorsPut(fs, runs, updated, WriteFault(isJson, updated, fault));
      EncodedPut(isJson, fs, updated, fault);
      SameKey(current, updated);
      IndexedPut(runs, byRequest, updated);
      WrittenIsSafe(fs, updated);
      hide PutRun;
      var published, ok := Persist(updated, fault);
      if published {
        runs := runs[id := updated];
      }
      if !ok || fault == FailAudit {
        return Err(IoError);
      }
      return Cloned(isJson, Ok(updated));
    }

    method List(f: Filter, fault: Fault) returns (r: Result<seq<Run>, Error>, ghost full: seq<Run>)
      requires Valid()
      modifies `fs
      ensures Valid()
      ensures fs == if fault == NoFault then Sync(old(fs), RunsDir) else old(fs)
      ensures fault != NoFault ==> r == Err(IoError)
      ensures fault == NoFault ==> FullListing(runs, f, full) && r == Ok(Limited(full, f.limit))
      ensures fault == NoFault ==> r.Ok? && Lists(runs, f, r.value)
      ensures r.Ok? ==> forall i :: 0 <= i < |r.value| ==> Safe(fs, RunName(r.value[i].id), RunFile(r.value[i]))
    {
      full := [];
      if fault != NoFault {
        return Err(IoError), full;
      }
      hide StoreInv, Mirrors, Safe, Encoded, Encodable, Lists;
      SyncKeeps(fs, RunsDir);
      MirrorsSync(fs, runs);
      EncodedSync(isJson, fs);
      forall id | id in runs ensures Safe(Sync(fs, RunsDir), RunName(id), RunFile(runs[id])) {
        SyncedIsSafe(fs, runs, id);
      }
      fs := Sync(fs, RunsDir);
      var listed, result := Select(isJson, runs, f);
      full := result;
      CutLists(runs, f, full);
      if f.limit > 0 && |result| > f.limit {
        result := result[..f.limit];
      }
      assert forall i :: 0 <= i < |result| ==> result[i] == full[i];
      return Ok(result), full;
    }
  }

  class MemoryStore {
    const isJson: Bytes -> bool
    var runs: RunMap
    var byRequest: map<string, string>

    ghost predicate Valid()
      reads this
    {
      Indexed(runs, byRequest)
    }

    constructor (isJson: Bytes -> bool)
      ensures Valid() && runs == map[] && this.isJson == isJson
    {
      this.isJson := isJson;
      runs, byRequest := map[], map[];
    }

    method Create(run: Run) returns (r: Result<(), Error>)
      requires Valid()
      modifies this
      ensures Valid() && (runs, r) == Created(isJson, old(runs), run) && RefusesTaken(old(runs), run, r)
    {
      hide RefusesTaken;
      TakenRefused(isJson, runs, run);
      if run.id in runs {
        return Err(AlreadyExists);
      }
      var key := KeyOf(run);
      if key in byRequest {
        return Err(AlreadyExists);
      }
      if !Encodable(isJson, run) {
        return Err(IoError);
      }
      runs := runs[run.id := run];
      byRequest := byRequest[key := run.id];
      return Ok(());
    }

    method Get(id: string) returns (r: Result<Run, Error>)
      requires Valid()
      ensures r == Cloned(isJson, Gotten(runs, id))
    {
      if id !in runs {
        return Err(NotFound);
      }
      return Cloned(isJson, Ok(runs[id]));
    }

    method FindByRequestID(tenant: string, request: string)
      returns (r: Result<Run, Error>, ghost found: Result<Run, Error>)
      requires Valid()
      ensures IsFound(runs, RequestKey(tenant, request), found) && r == Cloned(isJson, found)
      ensures FindsAsked(runs, tenant, request, r)
    {
      hide FindsAsked;
      var key := RequestKey(tenant, request);
      FoundAsAsked(isJson, runs, tenant, request, if key in byRequest then Ok(runs[byRequest[key]]) else Err(NotFound));
      if key !in byRequest {
        return Err(NotFound), Err(NotFound);
      }
      found := Ok(runs[byRequest[key]]);
      r := Cloned(isJson, Ok(runs[byRequest[key]]));
    }

    method Update(id: string, m: Mutation) returns (r: Result<Run, Error>)
      requires Valid()
      modifies this
      ensures Valid() && (runs, r) == UpdatedInMemory(isJson, old(runs), id, m)
    {
      if id !in runs {
        return Err(NotFound);
      }
      if !Encodable(isJson, runs[id]) {
        return Err(IoError);
      }
      var copy := new RunRecord(runs[id]);
      var refused := Apply(m, copy);
      if refused.Some? {
        return Err(refused.value);
      }
      MutateFrame(m, runs[id]);
      var updated := copy.Value();
      runs := runs[id := updated];
      return Cloned(isJson, Ok(updated));
    }

    method List(f: Filter) returns (r: Result<seq<Run>, Error>, ghost full: seq<Run>)
      requires Valid()
      ensures if Unlistable(isJson, runs, f) then r == Err(IoError)
          else FullListing(runs, f, full) && r == Ok(Limited(full, f.limit))
      ensures r.Ok? ==> Lists(runs, f, r.value)
    {
      hide Lists;
      var listed, result := Select(isJson, runs, f);
      full := result;
      if !listed {
        return Err(IoError), full;
      }
      CutLists(runs, f, full);
      if f.limit > 0 && |result| > f.limit {
        result := result[..f.limit];
      }
      return Ok(result), full;
    }
  }

  // ---- Where the stores part ----

  /** Without a fault the two updates leave the same records and answer alike if and only if the record the update
      leaves can be encoded; the caller can tell beforehand: it is the end of an execution whose raw output is neither
      empty nor JSON text that cannot. */
  lemma UpdatesAgree(isJson: Bytes -> bool, runs: RunMap, id: string, m: Mutation)
    requires AllEncodable(isJson, runs)
    ensures Updated(isJson, runs, id, m) == UpdatedInMemory(isJson, runs, id, m) <==>
              id !in runs || Mutate(m, runs[id]).Err? || LeavesText(isJson, m, runs[id])
  {
    hide Mutate, LeavesText, Encodable;
    if id in runs && Mutate(m, runs[id]).Ok? {
      EncodesExactly(isJson, m, runs[id]);
      assert runs[id := Mutate(m, runs[id]).value][id] == Mutate(m, runs[id]).value;
    }
  }

  /** After such an end the file store still shows the run running; the memory store holds the end, and answers
      every read of it with an error. */
  lemma BadEndParts(isJson: Bytes -> bool, runs: RunMap, id: string, r: Run, m: Mutation)
    requires AllEncodable(isJson, runs) && Gotten(runs, id) == Ok(r) && r.status == Running && m.Finish?
    requires !Encodes(isJson, m.outcome.result)
    ensures Updated(isJson, runs, id, m) == (runs, Err(IoError))
    ensures UpdatedInMemory(isJson, runs, id, m).1 == Err(IoError)
    ensures UpdatedInMemory(isJson, runs, id, m).0 != runs
    ensures Cloned(isJson, Gotten(UpdatedInMemory(isJson, runs, id, m).0, id)) == Err(IoError)
  {
    hide Encodes, Encodable, Mutate, FinalStatus, FinalResult, BoundResult;
    FinishStores(m, r);
    EncodesExactly(isJson, m, r);
    assert runs[id := Mutate(m, r).value][id] == Mutate(m, r).value;
  }

  // ---- The stores agree ----

  datatype Call =
    | CreateCall(run: Run)
    | GetCall(id: string)
    | FindCall(tenant: string, request: string)
    | UpdateCall(id: string, m: Mutation)
    | ListCall(filter: Filter)

  datatype Answer = Done(r: Result<(), Error>) | One(run: Result<Run, Error>) | Many(runs: Result<seq<Run>, Error>)

  /** What a call answers over these records: for a listing any cut of a full one. */
  ghost predicate Answers(isJson: Bytes -> bool, runs: RunMap, call: Call, x: Answer) {
    match call
    case CreateCall(run) => x == Done(Created(isJson, runs, run).1)
    case GetCall(id) => x == One(Gotten(runs, id))
    case FindCall(tenant, request) => x.One? && IsFound(runs, RequestKey(tenant, request), x.run)
    case UpdateCall(id, m) => x == One(Updated(isJson, runs, id, m).1)
    case ListCall(f) => exists full :: FullListing(runs, f, full) && x == Many(Ok(Limited(full, f.limit)))
  }

  /** The records a call leaves. */
  ghost function After(isJson: Bytes -> bool, runs: RunMap, call: Call): RunMap {
    match call
    case CreateCall(run) => Created(isJson, runs, run).0
    case UpdateCall(id, m) => Updated(isJson, runs, id, m).0
    case _ => runs
  }

  /** Position by position of one age, and the same runs but for those as old as the last. */
  ghost predicate SameListing(x: seq<Run>, y: seq<Run>) {
    && |x| == |y| && (forall i :: 0 <= i < |x| ==> x[i].terms.createdAt == y[i].terms.createdAt)
    && (forall r :: r in x && r !in y ==> AsOldAsLast(x, r)) && (forall r :: r in y && r !in x ==> AsOldAsLast(y, r))
  }

  predicate AsOldAsLast(s: seq<Run>, r: Run) {
    s != [] && r.terms.createdAt == s[|s| - 1].terms.createdAt
  }

  /** The same answer, up to the order of equal creation times. */
  ghost predicate SameAnswer(a: Answer, b: Answer) {
    a == b ||
    match (a, b)
    case (Many(Ok(x)), Many(Ok(y))) => SameListing(x, y)
    case _ => false
  }

  /** The call brings no raw output but JSON text. */
  predicate BringsText(isJson: Bytes -> bool, call: Call) {
    match call
    case UpdateCall(_, Finish(_, outcome, _, _, _)) => Encodes(isJson, outcome.result)
    case _ => true
  }

  /** The two stores hold the same records. */
  ghost predicate Agree(file: FileStore, mem: MemoryStore)
    reads file, mem
  {
    file.Valid() && mem.Valid() && file.runs == mem.runs && file.isJson == mem.isJson
  }

  lemma ListingSize(runs: RunMap, f: Filter, a: seq<Run>, b: seq<Run>)
    requires FullListing(runs, f, a) && FullListing(runs, f, b)
    ensures |a| <= |b|
  {
    forall id | id in Ids(a) ensures id in Ids(b) {
      var i :| 0 <= i < |a| && a[i].id == id;
      assert runs[a[i].id] in b;
      var j :| 0 <= j < |b| && b[j] == a[i];
    }
    CountIds(a);
    CountIds(b);
    SubsetSize(Ids(a), Ids(b));
  }

  method AnswerOne(call: Call, file: FileStore, mem: MemoryStore) returns (x: Answer, y: Answer)
    requires Agree(file, mem) && BringsText(file.isJson, call)
    requires call.CreateCall? ==> History(call.run)
    modifies file, mem
    ensures Answers(mem.isJson, old(mem.runs), call, x) && Answers(mem.isJson, old(mem.runs), call, y)
    ensures SameAnswer(x, y) && Agree(file, mem) && mem.runs == After(mem.isJson, old(mem.runs), call)
  {
    hide StoreInv, Mutate, History, Mirrors, FullListing, Settled, Safe, Encoded, Encodable, Encodes, IsFound,
         SameAnswer, Indexed;
    ghost var runs, byRequest := mem.runs, mem.byRequest;
    match call {
      case CreateCall(run) =>
        var p := file.Create(run, NoFault);
        var q := mem.Create(run);
        x, y := Done(p), Done(q);
      case GetCall(id) =>
        ReadsClone(file.isJson, file.runs, id);
        var p := file.Get(id, NoFault);
        var q := mem.Get(id);
        x, y := One(p), One(q);
      case FindCall(tenant, request) =>
        var p := file.FindByRequestID(tenant, request, NoFault);
        var q, found := mem.FindByRequestID(tenant, request);
        FoundIsUnique(mem.runs, mem.byRequest, RequestKey(tenant, request), p, found);
        FoundClones(file.isJson, mem.runs, RequestKey(tenant, request), found);
        x, y := One(p), One(q);
      case UpdateCall(id, m) =>
        UpdatesAgree(file.isJson, file.runs, id, m);
        var p := file.Update(id, m, NoFault);
        var q := mem.Update(id, m);
        x, y := One(p), One(q);
      case ListCall(filter) =>
        NothingUnlistable(file.isJson, file.runs, filter);
        var p, fullP := file.List(filter, NoFault);
        var q, fullQ := mem.List(filter);
        x, y := Many(p), Many(q);
    }
    AnswersAgree(mem.isJson, runs, byRequest, call, x, y);
  }

  lemma ReadsClone(isJson: Bytes -> bool, runs: RunMap, id: string)
    requires AllEncodable(isJson, runs)
    ensures Cloned(isJson, Gotten(runs, id)) == Gotten(runs, id)
  {
    hide Encodable;
  }

  lemma FoundClones(isJson: Bytes -> bool, runs: RunMap, key: string, r: Result<Run, Error>)
    requires AllEncodable(isJson, runs) && IsFound(runs, key, r)
    ensures Cloned(isJson, r) == r
  {
    hide Encodable;
  }

  lemma NothingUnlistable(isJson: Bytes -> bool, runs: RunMap, f: Filter)
    requires AllEncodable(isJson, runs)
    ensures !Unlistable(isJson, runs, f)
  {
    hide Encodable, Matches;
  }

  /** Any two answers to one call over one set of records are the same. */
  lemma AnswersAgree(isJson: Bytes -> bool, runs: RunMap, byRequest: map<string, string>, call: Call, x: Answer,
                     y: Answer)
    requires Indexed(runs, byRequest) && Answers(isJson, runs, call, x) && Answers(isJson, runs, call, y)
    ensures SameAnswer(x, y)
  {
    hide FullListing, IsFound, Indexed, SameListing, Created, Updated;
    match call
    case FindCall(tenant, request) =>
      FoundIsUnique(runs, byRequest, RequestKey(tenant, request), x.run, y.run);
    case ListCall(f) =>
      var p :| FullListing(runs, f, p) && x == Many(Ok(Limited(p, f.limit)));
      var q :| FullListing(runs, f, q) && y == Many(Ok(Limited(q, f.limit)));
      SameListings(runs, f, p, q);
    case _ =>
  }

  /** Two full listings of the same runs, cut at the same limit. */
  lemma SameListings(runs: RunMap, f: Filter, a: seq<Run>, b: seq<Run>)
    requires FullListing(runs, f, a) && FullListing(runs, f, b)
    ensures SameListing(Limited(a, f.limit), Limited(b, f.limit))
  {
    hide FullListing;
    ListingSize(runs, f, a, b);
    ListingSize(runs, f, b, a);
    forall k | 0 <= k < |a| ensures a[k].terms.createdAt == b[k].terms.createdAt {
      ListingsAgree(runs, f, a, b, k);
    }
    var x, y := Limited(a, f.limit), Limited(b, f.limit);
    forall i | 0 <= i < |x| ensures x[i] in y || AsOldAsLast(x, x[i]) {
      CutRun(runs, f, a, b, i);
    }
    forall i | 0 <= i < |y| ensures y[i] in x || AsOldAsLast(y, y[i]) {
      CutRun(runs, f, b, a, i);
    }
  }

  /** A run that one cut has and the other lacks is as old as the last of the cut. */
  lemma CutRun(runs: RunMap, f: Filter, a: seq<Run>, b: seq<Run>, i: nat)
    requires FullListing(runs, f, a) && FullListing(runs, f, b) && |a| == |b| && i < |Limited(a, f.limit)|
    requires forall k :: 0 <= k < |a| ==> a[k].terms.createdAt == b[k].terms.createdAt
    ensures var x := Limited(a, f.limit); x[i] in Limited(b, f.limit) || AsOldAsLast(x, x[i])
  {
    hide FullListing;
    var x, y := Limited(a, f.limit), Limited(b, f.limit);
    var last := |x| - 1;
    var j := IndexIn(runs, f, a, b, i);
    if j < |y| {
      assert y[j] == b[j];
    } else {
      Older(runs, f, a, i, last);
      Older(runs, f, b, last, j);
    }
  }

  lemma Older(runs: RunMap, f: Filter, a: seq<Run>, i: nat, j: nat)
    requires FullListing(runs, f, a) && i <= j < |a|
    ensures a[i].terms.createdAt >= a[j].terms.createdAt
  {
  }

  lemma IndexIn(runs: RunMap, f: Filter, a: seq<Run>, b: seq<Run>, i: nat) returns (j: nat)
    requires FullListing(runs, f, a) && FullListing(runs, f, b) && i < |a|
    ensures j < |b| && b[j] == a[i]
  {
    hide Matches;
    assert runs[a[i].id] == a[i];
    j :| 0 <= j < |b| && b[j] == a[i];
  }

  /** Without faults both stores answer every sequence of calls that bring no raw output but JSON text as the records
      demand that the calls before left, and so alike. */
  method AnswerBoth(calls: seq<Call>, file: FileStore, mem: MemoryStore)
    returns (a: seq<Answer>, b: seq<Answer>, ghost held: seq<RunMap>)
    requires Agree(file, mem)
    requires forall i :: 0 <= i < |calls| ==>
        BringsText(file.isJson, calls[i]) && (calls[i].CreateCall? ==> History(calls[i].run))
    modifies file, mem
    ensures |a| == |b| == |calls| && |held| == |calls| + 1 && held[0] == old(mem.runs) && held[|calls|] == mem.runs
    ensures forall i :: 0 <= i < |calls| ==>
        && held[i + 1] == After(mem.isJson, held[i], calls[i]) && SameAnswer(a[i], b[i])
        && Answers(mem.isJson, held[i], calls[i], a[i]) && Answers(mem.isJson, held[i], calls[i], b[i])
    ensures Agree(file, mem)
  {
    hide Agree, BringsText, History, SameAnswer, Answers, After;
    a, b, held := [], [], [mem.runs];
    for i := 0 to |calls|
      invariant |a| == |b| == i && |held| == i + 1 && held[0] == old(mem.runs) && held[i] == mem.runs
      invariant forall k :: 0 <= k < i ==>
          && held[k + 1] == After(mem.isJson, held[k], calls[k]) && SameAnswer(a[k], b[k])
          && Answers(mem.isJson, held[k], calls[k], a[k]) && Answers(mem.isJson, held[k], calls[k], b[k])
      invariant Agree(file, mem)
    {
      var x, y := AnswerOne(calls[i], file, mem);
      a, b, held := a + [x], b + [y], held + [mem.runs];
    }
  }

  lemma FoundIsUnique(runs: RunMap, byRequest: map<string, string>, key: string, p: Result<Run, Error>,
                      q: Result<Run, Error>)
    requires Indexed(runs, byRequest) && IsFound(runs, key, p) && IsFound(runs, key, q)
    ensures p == q
  {
  }
}
