/** The run files on disk: what each store operation publishes and syncs, and what
    survives failed syncs and restarts. */
module RunFiles {
  import opened Prelude
  import opened Domain
  import opened Runs
  import opened RunUpdates
  import opened Disk

  /** Where a store write goes wrong: before the rename, in the directory sync after it,
      in the audit append after that, or nowhere. */
  datatype Fault = NoFault | FailEarly | FailSync | FailAudit

  /** The key of the request index: tenant, NUL, request id. */
  function RequestKey(tenant: string, request: string): string {
    tenant + ['\0'] + request
  }

  function KeyOf(r: Run): string {
    RequestKey(r.Tenant(), r.terms.requestId)
  }

  /** Tenant ids without NUL make the key unambiguous. */
  lemma RequestKeyInjective(t1: string, r1: string, t2: string, r2: string)
    requires '\0' !in t1 && '\0' !in t2
    requires RequestKey(t1, r1) == RequestKey(t2, r2)
    ensures t1 == t2 && r1 == r2
  {
    var k := RequestKey(t1, r1);
    assert k[|t1|] == '\0' && k[|t2|] == '\0';
    assert forall i :: 0 <= i < |t1| ==> k[i] == t1[i] && k[i] != '\0';
    assert forall i :: 0 <= i < |t2| ==> k[i] == t2[i] && k[i] != '\0';
    assert t1 == k[..|t1|] && t2 == k[..|t2|] && r1 == k[|t1| + 1..] && r2 == k[|t2| + 1..];
  }

  function RunAt(fs: Fs, id: string): Option<Run> {
    match Lookup(fs, RunName(id))
    case Some(RunFile(r)) => Some(r)
    case _ => None
  }

  ghost predicate HasRun(fs: Fs, id: string, r: Run) {
    Candidate(fs, RunName(id), Some(RunFile(r)))
  }

  function PutRun(fs: Fs, id: string, r: Run, fault: Fault): Fs {
    match fault
    case FailEarly => fs
    case FailSync => Publish(fs, RunName(id), RunFile(r))
    case _ => Sync(Publish(fs, RunName(id), RunFile(r)), RunsDir)
  }

  /** The effect of an update on the disk, and its answer. */
  function UpdateRun(fs: Fs, id: string, m: Mutation, fault: Fault): (Fs, Result<Run, Error>) {
    if RunAt(fs, id).None? then (fs, Err(NotFound))
    else
      match Mutate(m, RunAt(fs, id).value)
      case Err(e) => (fs, Err(e))
      case Ok(r) => (PutRun(fs, id, r, fault), if fault.NoFault? then Ok(r) else Err(IoError))
  }

  ghost predicate KeyUsed(fs: Fs, key: string) {
    exists id :: RunAt(fs, id).Some? && KeyOf(RunAt(fs, id).value) == key
  }

  ghost function CreateRun(fs: Fs, r: Run, fault: Fault): (Fs, Result<(), Error>) {
    if RunAt(fs, r.id).Some? || KeyUsed(fs, KeyOf(r)) then (fs, Err(AlreadyExists))
    else (PutRun(fs, r.id, r, fault), if fault.NoFault? then Ok(()) else Err(IoError))
  }

  /** What holds of the run files in every reachable disk state. All values a file may still
      revert to are versions of one run; no two runs answer to one request key. */
  ghost predicate StoreInv(fs: Fs) {
    && (forall id, node :: Candidate(fs, RunName(id), Some(node)) ==>
          && node.RunFile? && node.record.id == id && History(node.record)
          && RunAt(fs, id).Some? && RunAt(fs, id).value.terms == node.record.terms)
    && (forall a, b ::
          RunAt(fs, a).Some? && RunAt(fs, b).Some? && KeyOf(RunAt(fs, a).value) == KeyOf(RunAt(fs, b).value) ==> a == b)
  }

  lemma PutKeeps(fs: Fs, id: string, r: Run, fault: Fault)
    requires StoreInv(fs) && r.id == id && History(r)
    requires RunAt(fs, id).Some? ==> RunAt(fs, id).value.terms == r.terms
    requires RunAt(fs, id).None? ==> !KeyUsed(fs, KeyOf(r))
    ensures StoreInv(PutRun(fs, id, r, fault))
  {
    hide History;
    var after := PutRun(fs, id, r, fault);
    if fault != FailEarly {
      assert RunAt(after, id) == Some(r);
      assert forall a :: a != id ==> RunAt(after, a) == RunAt(fs, a);
      forall a, node | Candidate(after, RunName(a), Some(node))
        ensures node.RunFile? && node.record.id == a && History(node.record)
        ensures RunAt(after, a).Some? && RunAt(after, a).value.terms == node.record.terms
      {
        assert a != id || node != RunFile(r) ==> Candidate(fs, RunName(a), Some(node));
      }
    }
  }

  lemma UpdateKeeps(fs: Fs, id: string, m: Mutation, fault: Fault)
    requires StoreInv(fs)
    ensures StoreInv(UpdateRun(fs, id, m, fault).0)
  {
    if RunAt(fs, id).Some? && Mutate(m, RunAt(fs, id).value).Ok? {
      var r := RunAt(fs, id).value;
      assert Candidate(fs, RunName(id), Some(RunFile(r)));
      MutateHistory(m, r);
      MutateFrame(m, r);
      PutKeeps(fs, id, Mutate(m, r).value, fault);
    }
  }

  lemma CreateKeeps(fs: Fs, r: Run, fault: Fault)
    requires StoreInv(fs) && History(r)
    ensures StoreInv(CreateRun(fs, r, fault).0)
  {
    if RunAt(fs, r.id).None? && !KeyUsed(fs, KeyOf(r)) {
      PutKeeps(fs, r.id, r, fault);
    }
  }

  /** Run files are as they were, or some of their old values are forgotten: what syncs and all work on other
      files do. */
  ghost predicate RunsUntouched(fs: Fs, after: Fs) {
    && (forall id :: Lookup(after, RunName(id)) == Lookup(fs, RunName(id)))
    && (forall id, v :: Candidate(after, RunName(id), v) ==> Candidate(fs, RunName(id), v))
  }

  lemma SyncUntouched(fs: Fs, d: Dir)
    ensures RunsUntouched(fs, Sync(fs, d)) && RunsUntouched(fs, fs)
  {
  }

  lemma UntouchedKeeps(fs: Fs, after: Fs)
    requires StoreInv(fs) && RunsUntouched(fs, after)
    ensures StoreInv(after)
  {
    hide Candidate, History;
    assert forall id :: RunAt(after, id) == RunAt(fs, id);
  }

  lemma SyncKeeps(fs: Fs, d: Dir)
    requires StoreInv(fs)
    ensures StoreInv(Sync(fs, d))
  {
    SyncUntouched(fs, d);
    UntouchedKeeps(fs, Sync(fs, d));
  }

  lemma RestartKeeps(fs: Fs, after: Fs)
    requires StoreInv(fs) && Restart(fs, after)
    ensures StoreInv(after)
  {
    if PowerLoss(fs, after) {
      forall id, node | Candidate(after, RunName(id), Some(node))
        ensures Candidate(fs, RunName(id), Some(node)) && RunAt(after, id) == Some(node.record)
      {
        LossPicksCandidates(fs, after, RunName(id), Some(node));
        assert node.RunFile?;
      }
      forall id | RunAt(after, id).Some? ensures KeyOf(RunAt(after, id).value) == KeyOf(RunAt(fs, id).value) {
        assert Candidate(after, RunName(id), Some(RunFile(RunAt(after, id).value)));
      }
    }
  }

  // ---- Durable reads ----

  /** One step of the run directory: an operation with any fault, a sync, or a restart. */
  datatype StoreStep =
    | CreateStep(run: Run, fault: Fault)
    | UpdateStep(id: string, m: Mutation, fault: Fault)
    | SyncStep
    | RestartStep

  ghost predicate StoreNext(fs: Fs, step: StoreStep, after: Fs) {
    match step
    case CreateStep(run, fault) => History(run) && after == CreateRun(fs, run, fault).0
    case UpdateStep(id, m, fault) => after == UpdateRun(fs, id, m, fault).0
    case SyncStep => after == Sync(fs, RunsDir)
    case RestartStep => Restart(fs, after)
  }

  /** `b` is `a` or a later version of the same run. */
  ghost predicate LaterVersion(a: Run, b: Run) {
    a.id == b.id && a.terms == b.terms && a.events <= b.events
  }

  /** Whatever happens to the disk, the run is at least as far as `r`. */
  ghost predicate NeverBefore(fs: Fs, r: Run) {
    && RunAt(fs, r.id).Some?
    && forall v :: Candidate(fs, RunName(r.id), v) ==> v.Some? && v.value.RunFile? && LaterVersion(r, v.value.record)
  }

  lemma SettledNeverBefore(fs: Fs, r: Run)
    requires Safe(fs, RunName(r.id), RunFile(r))
    ensures NeverBefore(fs, r)
  {
    assert Candidate(fs, RunName(r.id), Lookup(fs, RunName(r.id)));
  }

  lemma StepNeverBefore(fs: Fs, step: StoreStep, after: Fs, r: Run)
    requires StoreInv(fs) && NeverBefore(fs, r) && StoreNext(fs, step, after)
    ensures StoreInv(after) && NeverBefore(after, r)
  {
    match step
    case CreateStep(run, fault) =>
      CreateKeeps(fs, run, fault);
      assert RunAt(fs, r.id).Some?;
      assert forall v :: Candidate(after, RunName(r.id), v) ==> Candidate(fs, RunName(r.id), v);
    case UpdateStep(id, m, fault) =>
      UpdateKeeps(fs, id, m, fault);
      if RunAt(fs, id).Some? && Mutate(m, RunAt(fs, id).value).Ok? {
        UpdateNeverBefore(fs, id, m, fault, r);
      }
    case SyncStep =>
      SyncKeeps(fs, RunsDir);
      assert forall v :: Candidate(after, RunName(r.id), v) ==> Candidate(fs, RunName(r.id), v);
    case RestartStep =>
      RestartKeeps(fs, after);
      assert !Candidate(fs, RunName(r.id), None);
      assert RunAt(after, r.id).Some? by {
        assert Above(RunName(r.id)) == {};
        assert RunName(r.id) in after.visible;
        assert Candidate(after, RunName(r.id), Some(after.visible[RunName(r.id)]));
      }
  }

  lemma UpdateNeverBefore(fs: Fs, id: string, m: Mutation, fault: Fault, r: Run)
    requires StoreInv(fs) && NeverBefore(fs, r) && RunAt(fs, id).Some? && Mutate(m, RunAt(fs, id).value).Ok?
    ensures NeverBefore(UpdateRun(fs, id, m, fault).0, r)
  {
    var current := RunAt(fs, id).value;
    var next, after := Mutate(m, current).value, UpdateRun(fs, id, m, fault).0;
    assert Candidate(fs, RunName(id), Some(RunFile(current)));
    MutateHistory(m, current);
    MutateFrame(m, current);
    forall v | Candidate(after, RunName(r.id), v)
      ensures v.Some? && v.value.RunFile? && LaterVersion(r, v.value.record) {
      if !Candidate(fs, RunName(r.id), v) {
        assert r.id == id && v == Some(RunFile(next));
        assert LaterVersion(r, current) && current.events <= next.events;
      }
    }
    assert RunAt(after, r.id).Some?;
  }

  ghost predicate StoreTrace(states: seq<Fs>, steps: seq<StoreStep>) {
    && |states| == |steps| + 1
    && forall i :: 0 <= i < |steps| ==> StoreNext(states[i], steps[i], states[i + 1])
  }

  /** A version that was once durable, as every successful read and update makes the version it
      returns, is never rolled back: whatever operations, failed syncs and restarts follow, the
      run stays visible at that version or a later one. */
  lemma {:induction false} DurableReads(states: seq<Fs>, steps: seq<StoreStep>, i: nat, j: nat, r: Run)
    requires StoreTrace(states, steps) && i <= j < |states|
    requires StoreInv(states[i]) && Safe(states[i], RunName(r.id), RunFile(r))
    ensures StoreInv(states[j]) && NeverBefore(states[j], r)
    decreases j - i
  {
    if i == j {
      SettledNeverBefore(states[i], r);
    } else {
      DurableReads(states, steps, i, j - 1, r);
      assert StoreNext(states[j - 1], steps[j - 1], states[j - 1 + 1]);
      StepNeverBefore(states[j - 1], steps[j - 1], states[j], r);
    }
  }

  /** From an empty disk every reachable state satisfies the invariant: in particular at most one
      run answers to a request key, and every run file, durable or not, has a faithful event log. */
  lemma {:induction false} ReachableStores(states: seq<Fs>, steps: seq<StoreStep>, j: nat)
    requires StoreTrace(states, steps) && j < |states| && states[0] == EMPTY
    ensures StoreInv(states[j])
  {
    if j > 0 {
      ReachableStores(states, steps, j - 1);
      var fs, step, after := states[j - 1], steps[j - 1], states[j];
      assert StoreNext(fs, step, states[j - 1 + 1]);
      match step
      case CreateStep(run, fault) => CreateKeeps(fs, run, fault);
      case UpdateStep(id, m, fault) => UpdateKeeps(fs, id, m, fault);
      case SyncStep => SyncKeeps(fs, RunsDir);
      case RestartStep => RestartKeeps(fs, after);
    }
  }
}
