/** CreateRun as a step system: many callers look up the request id, store a run, and look again if they lost the race,
    over a store whose writes may fail and whose process may stop. */
module CreationSystem {
  import opened Prelude
  import opened Utf8
  import opened Domain
  import opened Runs
  import opened RunUpdates
  import opened Disk
  import opened RunFiles
  import opened Strings
  import Evidence
  import C = Creation

  datatype Config = Config(lib: C.Library, unrestricted: bool, limit: int)

  /** A request that passed the preflight. */
  datatype Caller = Caller(agent: C.Agent, p: C.Prepared)

  datatype Phase = Looking(c: Caller) | Storing(c: Caller, run: Run) | LookingAgain(c: Caller)

  /** A caller that was answered with a run. */
  datatype Answer = Answer(c: Caller, run: Run)

  datatype State = State(fs: Fs, callers: map<nat, Phase>, answers: set<Answer>)

  /** `found` is the run of the request id, if the store has one; `broken` when the sync of the lookup fails. */
  datatype Step =
    | Call(t: nat, agent: C.Agent, q: C.Request)
    | Find(t: nat, found: Option<string>, id: string, now: int, broken: bool)
    | Store(t: nat, fault: Fault)
    | FindAgain(t: nat, found: Option<string>, broken: bool)
    | Elsewhere(step: StoreStep)

  const INIT := State(EMPTY, map[], {})

  function KeyFor(c: Caller): string {
    RequestKey(c.p.request.scope.tenantId, c.p.request.requestId)
  }

  /** What the request index answers. */
  ghost predicate Finds(fs: Fs, key: string, found: Option<string>) {
    match found
    case None => !KeyUsed(fs, key)
    case Some(id) => (match RunAt(fs, id) case Some(r) => KeyOf(r) == key case None => false)
  }

  function Leave(s: State, t: nat): State { s.(callers := s.callers - {t}) }

  function Reply(s: State, t: nat, c: Caller, r: Result<Run, Error>): State {
    match r
    case Ok(run) => Leave(s, t).(answers := s.answers + {Answer(c, run)})
    case Err(_) => Leave(s, t)
  }

  function PhaseAt(s: State, t: nat): Option<Phase> {
    if t in s.callers then Some(s.callers[t]) else None
  }

  ghost predicate Next(cfg: Config, s: State, step: Step, after: State) {
    match step
    case Call(t, agent, q) =>
      && t !in s.callers
      && var r := C.Prepare(cfg.lib, agent, cfg.unrestricted, cfg.limit, q);
         after == if r.Ok? then s.(callers := s.callers[t := Looking(Caller(agent, r.value))]) else s
    case Find(t, found, id, now, broken) =>
      && t in s.callers && s.callers[t].Looking?
      && var c, synced := s.callers[t].c, s.(fs := Sync(s.fs, RunsDir));
         if broken then after == Leave(s, t)
         else
           && Finds(s.fs, KeyFor(c), found)
           && after == if found.Some? then Reply(synced, t, c, C.Repeat(RunAt(s.fs, found.value).value, c.agent, c.p))
                       else synced.(callers := s.callers[t := Storing(c, C.RunFor(id, c.agent, c.p, now))])
    case Store(t, fault) =>
      && t in s.callers && s.callers[t].Storing?
      && var c, run := s.callers[t].c, s.callers[t].run;
         var (fs, r) := CreateRun(s.fs, run, fault);
         if r == Err(AlreadyExists) then after == s.(callers := s.callers[t := LookingAgain(c)])
         else after == Reply(s.(fs := fs), t, c, if r.Ok? then Ok(run) else Err(IoError))
    case FindAgain(t, found, broken) =>
      && t in s.callers && s.callers[t].LookingAgain?
      && var c, synced := s.callers[t].c, s.(fs := Sync(s.fs, RunsDir));
         if broken then after == Leave(s, t)
         else
           && Finds(s.fs, KeyFor(c), found)
           && after == if found.Some? then
               Reply(synced, t, c, C.RepeatAfterRace(RunAt(s.fs, found.value).value, c.p)) else Leave(synced, t)
    case Elsewhere(x) =>
      !x.CreateStep? && StoreNext(s.fs, x, after.fs) &&
          after == s.(fs := after.fs, callers := if x.RestartStep? then map[] else s.callers)
  }

  // ---- What every reachable state satisfies ----

  ghost predicate Admitted(cfg: Config, c: Caller) {
    exists q :: C.Prepare(cfg.lib, c.agent, cfg.unrestricted, cfg.limit, q) == Ok(c.p)
  }

  ghost predicate Manuals(cfg: Config, fs: Fs) {
    forall id, r :: HasRun(fs, id, r) && r.Manual() ==> C.ValidCreation(cfg.lib, r)
  }

  ghost predicate PhaseOk(cfg: Config, ph: Phase) {
    Admitted(cfg, ph.c) &&
    match ph
    case Storing(c, run) => RunOfCaller(c, run)
    case _ => true
  }

  /** The record CreateRun builds for this caller. */
  ghost predicate RunOfCaller(c: Caller, run: Run) {
    exists id, now :: run == C.RunFor(id, c.agent, c.p, now)
  }

  /** The run answers this caller: it has the caller's request id, and for a manual one the caller's creation key. */
  predicate Fits(c: Caller, r: Run) {
    KeyOf(r) == KeyFor(c) && C.CompareCreation(r, c.p.request.executionMode, c.p.fingerprint).None?
  }

  /** The answered run is there for good. */
  ghost predicate AnswerOk(cfg: Config, fs: Fs, a: Answer) {
    Admitted(cfg, a.c) && Fits(a.c, a.run) && NeverBefore(fs, a.run) &&
        (a.run.Manual() ==> C.ValidCreation(cfg.lib, a.run))
  }

  ghost predicate Inv(cfg: Config, s: State) {
    && StoreInv(s.fs) && Manuals(cfg, s.fs)
    && (forall t, ph :: PhaseAt(s, t) == Some(ph) ==> PhaseOk(cfg, ph))
    && (forall a :: a in s.answers ==> AnswerOk(cfg, s.fs, a))
  }

  /** The store's part of a step. */
  function StorePart(s: State, step: Step): StoreStep {
    match step
    case Store(t, fault) =>
        (match PhaseAt(s, t) case Some(Storing(_, run)) => CreateStep(run, fault) case _ => SyncStep)
    case Elsewhere(x) => x
    case _ => SyncStep
  }

  /** What a create stores is a caller's record. */
  ghost predicate Stored(cfg: Config, x: StoreStep) {
    match x
    case CreateStep(run, _) => exists c: Caller :: Admitted(cfg, c) && RunOfCaller(c, run)
    case _ => true
  }

  lemma StoreMoves(cfg: Config, s: State, step: Step, after: State)
    requires Inv(cfg, s) && Next(cfg, s, step, after)
    ensures after.fs == s.fs || StoreNext(s.fs, StorePart(s, step), after.fs)
    ensures Stored(cfg, StorePart(s, step))
  {
    hide StoreInv, Manuals, AnswerOk, C.Prepare, C.RunFor, C.Repeat, C.RepeatAfterRace, Finds, UpdateRun,
         CreateRun, Restart, History, Admitted;
    if step.Store? {
      var ph := s.callers[step.t];
      assert PhaseAt(s, step.t) == Some(ph) && PhaseOk(cfg, ph);
      CreatedIsGood(cfg, ph.c, ph.run);
      RefusedChangesNothing(s.fs, ph.run, step.fault);
    }
  }

  lemma RefusedChangesNothing(fs: Fs, run: Run, fault: Fault)
    ensures CreateRun(fs, run, fault).1 == Err(AlreadyExists) ==> CreateRun(fs, run, fault).0 == fs
    ensures CreateRun(fs, run, fault).1.Ok? ==>
              RunAt(CreateRun(fs, run, fault).0, run.id) == Some(run) &&
                  Settled(CreateRun(fs, run, fault).0, RunName(run.id), RunFile(run))
  {
    hide KeyUsed;
  }

  /** What a caller stores is a good record for its request. */
  lemma CreatedIsGood(cfg: Config, c: Caller, run: Run)
    requires Admitted(cfg, c) && RunOfCaller(c, run)
    ensures History(run) && KeyOf(run) == KeyFor(c) && (run.Manual() ==> C.ValidCreation(cfg.lib, run)) && Fits(c, run)
  {
    hide C.Prepare, History, C.ValidCreation;
    var q :| C.Prepare(cfg.lib, c.agent, cfg.unrestricted, cfg.limit, q) == Ok(c.p);
    var id, now :| run == C.RunFor(id, c.agent, c.p, now);
    C.CreatedRunIsGood(cfg.lib, c.agent, cfg.unrestricted, cfg.limit, q, id, now);
    PreparedFingerprint(cfg, c);
  }

  /** Manual requests carry the fingerprint of their creation key, others none. */
  lemma PreparedFingerprint(cfg: Config, c: Caller)
    requires Admitted(cfg, c)
    ensures c.p.request.executionMode == "manual" ==>
              c.p.request.manifest.Some? &&
                  c.p.fingerprint == C.Fingerprint(cfg.lib, C.RequestKey(c.agent.id, c.p.request)) &&
                      c.p.fingerprint != ""
    ensures c.p.request.executionMode != "manual" ==> c.p.fingerprint == ""
  {
    hide TrimSpace, C.Refusal, C.MetadataAccepted;
    var q :| C.Prepare(cfg.lib, c.agent, cfg.unrestricted, cfg.limit, q) == Ok(c.p);
    var trimmed := q.(executionMode := TrimSpace(q.executionMode));
    C.ManualKeeps(cfg.lib, c.agent, C.Evaluate(cfg.lib, c.agent, cfg.unrestricted, trimmed).value.0, cfg.limit);
  }

  // ---- One step ----

  ghost predicate StoresValid(cfg: Config, x: StoreStep) {
    match x
    case CreateStep(run, _) => run.Manual() ==> C.ValidCreation(cfg.lib, run)
    case _ => true
  }

  lemma StoreKeepsManuals(cfg: Config, fs: Fs, step: StoreStep, after: Fs)
    requires StoreInv(fs) && Manuals(cfg, fs) && StoreNext(fs, step, after)
    requires StoresValid(cfg, step)
    ensures Manuals(cfg, after)
  {
    hide StoreInv, UpdateRun, CreateRun, Restart, History, C.ValidCreation;
    forall id, r | HasRun(after, id, r) && r.Manual() ensures C.ValidCreation(cfg.lib, r) {
      if !HasRun(fs, id, r) {
        NewVersion(cfg, fs, step, after, id, r);
      }
    }
  }

  lemma NewVersion(cfg: Config, fs: Fs, step: StoreStep, after: Fs, id: string, r: Run)
    requires StoreInv(fs) && Manuals(cfg, fs) && StoreNext(fs, step, after) && HasRun(after, id, r)
    requires !HasRun(fs, id, r) && r.Manual()
    requires StoresValid(cfg, step)
    ensures C.ValidCreation(cfg.lib, r)
  {
    hide StoreInv, History, C.ValidCreation, Mutate, KeyUsed;
    match step
    case CreateStep(run, fault) =>
    case UpdateStep(x, m, fault) =>
      var current := RunAt(fs, x).value;
      assert HasRun(fs, x, current);
      C.FingerprintSurvives(cfg.lib, m, current);
      MutateFrame(m, current);
    case SyncStep =>
    case RestartStep =>
      LossPicksCandidates(fs, after, RunName(id), Some(RunFile(r)));
  }

  lemma AnswerKept(cfg: Config, s: State, step: Step, after: State, a: Answer)
    requires Inv(cfg, s) && Next(cfg, s, step, after) && AnswerOk(cfg, s.fs, a)
    ensures AnswerOk(cfg, after.fs, a)
  {
    hide StoreInv, Manuals, Next, NeverBefore, StoreNext, Admitted, Fits, C.ValidCreation;
    StoreMoves(cfg, s, step, after);
    if after.fs != s.fs {
      StepNeverBefore(s.fs, StorePart(s, step), after.fs, a.run);
    }
  }

  /** A run found by its request id after the sync is there for good. */
  lemma FoundForGood(fs: Fs, id: string, r: Run)
    requires StoreInv(fs) && RunAt(fs, id) == Some(r)
    ensures NeverBefore(Sync(fs, RunsDir), r) && HasRun(fs, id, r)
  {
    hide History;
    assert Candidate(fs, RunName(id), Some(RunFile(r)));
    assert RunAt(Sync(fs, RunsDir), id) == RunAt(fs, id);
  }

  lemma SettledForGood(fs: Fs, r: Run)
    requires RunAt(fs, r.id) == Some(r) && Settled(fs, RunName(r.id), RunFile(r))
    ensures NeverBefore(fs, r)
  {
  }

  lemma NewAnswer(cfg: Config, s: State, step: Step, after: State, a: Answer)
    requires Inv(cfg, s) && Next(cfg, s, step, after) && a in after.answers && a !in s.answers
    ensures AnswerOk(cfg, after.fs, a)
  {
    hide StoreInv, NeverBefore, C.Prepare, C.RunFor, UpdateRun, CreateRun, Restart, History, Admitted,
         C.ValidCreation, C.CompareCreation, KeyUsed;
    var ph := s.callers[step.t];
    assert PhaseAt(s, step.t) == Some(ph) && PhaseOk(cfg, ph);
    if step.Store? {
      CreatedIsGood(cfg, ph.c, ph.run);
      RefusedChangesNothing(s.fs, ph.run, step.fault);
      SettledForGood(after.fs, ph.run);
    } else {
      FoundForGood(s.fs, step.found.value, RunAt(s.fs, step.found.value).value);
    }
  }

  lemma PhasesKept(cfg: Config, s: State, step: Step, after: State)
    requires Inv(cfg, s) && Next(cfg, s, step, after)
    ensures forall t, ph :: PhaseAt(after, t) == Some(ph) ==> PhaseOk(cfg, ph)
  {
    hide StoreInv, Manuals, AnswerOk, C.Prepare, C.RunFor, C.Repeat, C.RepeatAfterRace, Finds, UpdateRun,
         CreateRun, Restart, History, StoreNext, RunOfCaller;
    forall t, ph | PhaseAt(after, t) == Some(ph) ensures PhaseOk(cfg, ph) {
      assert t in s.callers ==> PhaseAt(s, t) == Some(s.callers[t]);
      if step.Find? {
        BuiltForCaller(s.callers[step.t].c, step.id, step.now);
      }
    }
  }

  lemma BuiltForCaller(c: Caller, id: string, now: int)
    ensures RunOfCaller(c, C.RunFor(id, c.agent, c.p, now))
  {
    hide C.RunFor;
  }

  lemma NextKeeps(cfg: Config, s: State, step: Step, after: State)
    requires Inv(cfg, s) && Next(cfg, s, step, after)
    ensures Inv(cfg, after)
  {
    hide StoreInv, Manuals, AnswerOk, PhaseOk, Next, StoreNext, Admitted, C.ValidCreation;
    PhasesKept(cfg, s, step, after);
    forall a | a in after.answers ensures AnswerOk(cfg, after.fs, a) {
      if a in s.answers {
        AnswerKept(cfg, s, step, after, a);
      } else {
        NewAnswer(cfg, s, step, after, a);
      }
    }
    StoreMoves(cfg, s, step, after);
    if after.fs != s.fs {
      StoreStepKeeps(s.fs, StorePart(s, step), after.fs);
      var x := StorePart(s, step);
      if x.CreateStep? {
        var c: Caller :| Admitted(cfg, c) && RunOfCaller(c, x.run);
        CreatedIsGood(cfg, c, x.run);
      }
      StoreKeepsManuals(cfg, s.fs, StorePart(s, step), after.fs);
    }
  }

  lemma StoreStepKeeps(fs: Fs, step: StoreStep, after: Fs)
    requires StoreInv(fs) && StoreNext(fs, step, after)
    ensures StoreInv(after)
  {
    hide StoreInv, History;
    match step
    case CreateStep(run, fault) => CreateKeeps(fs, run, fault);
    case UpdateStep(id, m, fault) => UpdateKeeps(fs, id, m, fault);
    case SyncStep => SyncKeeps(fs, RunsDir);
    case RestartStep => RestartKeeps(fs, after);
  }

  // ---- Every run of the system ----

  ghost predicate Trace(cfg: Config, states: seq<State>, steps: seq<Step>) {
    && |states| == |steps| + 1 && states[0] == INIT
    && forall i :: 0 <= i < |steps| ==> Next(cfg, states[i], steps[i], states[i + 1])
  }

  lemma Shorter(cfg: Config, states: seq<State>, steps: seq<Step>)
    requires Trace(cfg, states, steps) && steps != []
    ensures Trace(cfg, states[..|steps|], steps[..|steps| - 1])
    ensures Next(cfg, states[|steps| - 1], steps[|steps| - 1], states[|steps|])
  {
    hide Next;
    var n := |steps| - 1;
    forall i | 0 <= i < n ensures Next(cfg, states[..n + 1][i], steps[..n][i], states[..n + 1][i + 1]) {
      assert Next(cfg, states[i], steps[i], states[i + 1]);
    }
    assert Next(cfg, states[n], steps[n], states[n + 1]);
  }

  lemma {:induction false} Reachable(cfg: Config, states: seq<State>, steps: seq<Step>)
    requires Trace(cfg, states, steps)
    ensures forall s :: s in states ==> Inv(cfg, s)
    decreases |steps|
  {
    hide Inv, Next;
    if steps == [] {
      NothingYet(cfg);
    } else {
      var n := |steps|;
      Shorter(cfg, states, steps);
      Reachable(cfg, states[..n], steps[..n - 1]);
      assert states[n - 1] in states[..n];
      NextKeeps(cfg, states[n - 1], steps[n - 1], states[n]);
      assert states == states[..n] + [states[n]];
    }
  }

  lemma NothingYet(cfg: Config)
    ensures Inv(cfg, INIT)
  {
  }

  lemma StepAnswers(cfg: Config, s: State, step: Step, after: State)
    requires Next(cfg, s, step, after)
    ensures s.answers <= after.answers
  {
    hide C.Prepare, C.RunFor, C.Repeat, C.RepeatAfterRace, Finds, UpdateRun, CreateRun, Restart, History, StoreNext;
  }

  lemma {:induction false} AnswersGrow(cfg: Config, states: seq<State>, steps: seq<Step>, i: nat, j: nat)
    requires Trace(cfg, states, steps) && i <= j < |states|
    ensures states[i].answers <= states[j].answers
    decreases j - i
  {
    hide Next;
    if i < j {
      AnswersGrow(cfg, states, steps, i, j - 1);
      assert Next(cfg, states[j - 1], steps[j - 1], states[j - 1 + 1]);
      StepAnswers(cfg, states[j - 1], steps[j - 1], states[j]);
    }
  }

  ghost predicate NoCollisions(lib: C.Library) {
    forall a, b :: lib.seal(a) == lib.seal(b) ==> a == b
  }

  /** The two callers ask for the same of the same agent in every field, the request id aside. */
  predicate SameWish(c: Caller, d: Caller) {
    var p, q := c.p.request, d.p.request;
    && c.agent.id == d.agent.id && p.mode == q.mode && p.caseId == q.caseId && p.manifest == q.manifest
    && p.scope == q.scope && p.output == q.output && p.metadata == q.metadata
    && p.policy.networkAccess == q.policy.networkAccess && p.policy.activeValidation == q.policy.activeValidation
    && p.policy.maxRequests == q.policy.maxRequests && p.policy.maxDuration == q.policy.maxDuration
  }

  predicate ManualCaller(c: Caller) { c.p.request.executionMode == "manual" }

  /** A manual run fits a manual caller exactly if it asks for the same. */
  lemma FitsExactly(cfg: Config, c: Caller, r: Run)
    requires NoCollisions(cfg.lib) && Admitted(cfg, c) && ManualCaller(c)
    requires (r.Manual() ==> C.ValidCreation(cfg.lib, r))
    ensures C.CompareCreation(r, c.p.request.executionMode, c.p.fingerprint).None? <==>
        r.Manual() && C.AsRequested(c.agent.id, c.p.request, r)
  {
    PreparedFingerprint(cfg, c);
    if r.Manual() && r.terms.creationFingerprint == c.p.fingerprint {
      C.FingerprintInjective(cfg.lib, C.RunKey(r), C.RequestKey(c.agent.id, c.p.request));
    }
  }

  /** The run under a request id that was ever answered is one and the same from then on. */
  lemma OneHolder(fs: Fs, a: Run, id: string, r: Run)
    requires StoreInv(fs) && NeverBefore(fs, a) && RunAt(fs, id) == Some(r) && KeyOf(r) == KeyOf(a)
    ensures id == a.id && r.terms == a.terms
  {
    assert Candidate(fs, RunName(a.id), Lookup(fs, RunName(a.id)));
  }

  /** Any two callers answered for one tenant and request id got the same run, whatever interleaving, failed
      writes and restarts lie between them; and two manual ones asked for the same. */
  lemma OneRunPerRequest(cfg: Config, states: seq<State>, steps: seq<Step>, i: nat, j: nat, a: Answer, b: Answer)
    requires Trace(cfg, states, steps) && i <= j < |states| && a in states[i].answers && b in states[j].answers
    requires KeyFor(a.c) == KeyFor(b.c)
    ensures a.run.id == b.run.id && a.run.terms == b.run.terms
    ensures ManualCaller(a.c) && ManualCaller(b.c) && NoCollisions(cfg.lib) ==> SameWish(a.c, b.c)
  {
    hide Next, Manuals, PhaseOk, Admitted, C.ValidCreation, C.CompareCreation, StoreInv, NoCollisions;
    AnswersGrow(cfg, states, steps, i, j);
    Reachable(cfg, states, steps);
    assert states[j] in states;
    var fs := states[j].fs;
    assert AnswerOk(cfg, fs, a) && AnswerOk(cfg, fs, b);
    var held := VersionTerms(fs, b.run);
    OneHolder(fs, a.run, b.run.id, held);
    if ManualCaller(a.c) && ManualCaller(b.c) && NoCollisions(cfg.lib) {
      SameTermsSameKey(cfg, a.c, a.run, b.c, b.run);
    }
  }

  lemma VersionTerms(fs: Fs, r: Run) returns (held: Run)
    requires NeverBefore(fs, r)
    ensures RunAt(fs, r.id) == Some(held) && held.terms == r.terms
  {
    assert Candidate(fs, RunName(r.id), Lookup(fs, RunName(r.id)));
    held := RunAt(fs, r.id).value;
  }

  lemma SameTermsSameKey(cfg: Config, c: Caller, r: Run, d: Caller, q: Run)
    requires Admitted(cfg, c) && Admitted(cfg, d) && ManualCaller(c) && ManualCaller(d) && NoCollisions(cfg.lib)
    requires Fits(c, r) && Fits(d, q) && r.terms == q.terms
    ensures SameWish(c, d)
  {
    PreparedFingerprint(cfg, c);
    PreparedFingerprint(cfg, d);
    C.FingerprintInjective(cfg.lib, C.RequestKey(c.agent.id, c.p.request), C.RequestKey(d.agent.id, d.p.request));
  }

  /** A lookup of this caller that works. */
  predicate LooksUp(s: State, step: Step, c: Caller) {
    match step
    case Find(t, _, _, _, broken) => !broken && PhaseAt(s, t) == Some(Looking(c))
    case FindAgain(t, _, broken) => !broken && PhaseAt(s, t) == Some(LookingAgain(c))
    case _ => false
  }

  ghost predicate Answered(s: State, c: Caller, id: string) {
    exists r :: Answer(c, r) in s.answers && r.id == id
  }

  /** What a lookup answers depends on the run found alone: a fitting one is handed out. */
  lemma LookupAnswers(cfg: Config, s: State, step: Step, after: State, c: Caller, a: Answer)
    requires Inv(cfg, s) && Next(cfg, s, step, after) && LooksUp(s, step, c) && a in s.answers
    requires KeyFor(c) == KeyFor(a.c)
    requires ManualCaller(c) && NoCollisions(cfg.lib)
    ensures Admitted(cfg, c)
    ensures if C.CompareCreation(a.run, c.p.request.executionMode, c.p.fingerprint).None? then
        Answered(after, c, a.run.id) else after.answers == s.answers
  {
    hide StoreInv, Manuals, NeverBefore, C.Prepare, C.RunFor, UpdateRun, CreateRun, Restart, History, Admitted,
         C.ValidCreation, NoCollisions;
    assert PhaseOk(cfg, s.callers[step.t]) && AnswerOk(cfg, s.fs, a);
    var held := VersionTerms(s.fs, a.run);
    assert KeyUsed(s.fs, KeyFor(c));
    var x := step.found.value;
    var r := RunAt(s.fs, x).value;
    OneHolder(s.fs, a.run, x, r);
    FoundForGood(s.fs, x, r);
    FoundIsGood(cfg, s.fs, x, r);
    FitsExactly(cfg, c, r);
    assert C.CompareCreation(r, c.p.request.executionMode, c.p.fingerprint).None? ==> Answer(c, r) in after.answers;
  }

  lemma FoundIsGood(cfg: Config, fs: Fs, id: string, r: Run)
    requires StoreInv(fs) && Manuals(cfg, fs) && HasRun(fs, id, r)
    ensures r.id == id && (r.Manual() ==> C.ValidCreation(cfg.lib, r))
  {
    hide History, C.ValidCreation;
  }

  /** Once somebody was answered with a run under a request id, a manual caller with the same tenant and request
      id that looks it up is answered with that run if and only if the run was answered to a manual request for the
      same. */
  lemma SameRunForSameWish(cfg: Config, states: seq<State>, steps: seq<Step>, i: nat, k: nat, c: Caller, a: Answer,
                           after: State)
    requires NoCollisions(cfg.lib) && Trace(cfg, states, steps) && i <= k < |steps| && after == states[k + 1]
    requires a in states[i].answers && LooksUp(states[k], steps[k], c) && ManualCaller(c) && KeyFor(c) == KeyFor(a.c)
    ensures Answered(after, c, a.run.id) <==> ManualCaller(a.c) && SameWish(c, a.c)
  {
    hide Next, StoreInv, Manuals, PhaseOk, Admitted, C.ValidCreation, C.CompareCreation, NoCollisions, SameWish,
         LooksUp;
    AnswersGrow(cfg, states, steps, i, k);
    Reachable(cfg, states, steps);
    var s := states[k];
    assert s in states && Next(cfg, states[k], steps[k], states[k + 1]);
    assert AnswerOk(cfg, s.fs, a);
    LookupAnswers(cfg, s, steps[k], after, c, a);
    ComparesWishes(cfg, c, a);
    if Answered(after, c, a.run.id) && C.CompareCreation(a.run, c.p.request.executionMode, c.p.fingerprint).Some? {
      var r :| Answer(c, r) in s.answers && r.id == a.run.id;
      SameAnswerCompares(cfg, s, a, Answer(c, r));
    }
  }

  /** An answered run fits a manual caller exactly if it was answered to a manual caller with the same wish. */
  lemma ComparesWishes(cfg: Config, c: Caller, a: Answer)
    requires NoCollisions(cfg.lib) && Admitted(cfg, c) && Admitted(cfg, a.c) && ManualCaller(c) && Fits(a.c, a.run)
    ensures C.CompareCreation(a.run, c.p.request.executionMode, c.p.fingerprint).None? <==>
        ManualCaller(a.c) && SameWish(c, a.c)
  {
    PreparedFingerprint(cfg, c);
    PreparedFingerprint(cfg, a.c);
    if ManualCaller(a.c) && c.p.fingerprint == a.c.p.fingerprint {
      C.FingerprintInjective(cfg.lib, C.RequestKey(c.agent.id, c.p.request), C.RequestKey(a.c.agent.id, a.c.p.request));
    }
  }

  /** Two answers with one run compare alike. */
  lemma SameAnswerCompares(cfg: Config, s: State, a: Answer, b: Answer)
    requires StoreInv(s.fs) && AnswerOk(cfg, s.fs, a) && AnswerOk(cfg, s.fs, b) && a.run.id == b.run.id
    ensures C.CompareCreation(a.run, b.c.p.request.executionMode, b.c.p.fingerprint).None?
  {
    hide StoreInv, Admitted, C.ValidCreation;
    var held := VersionTerms(s.fs, a.run);
    var same := VersionTerms(s.fs, b.run);
  }

  /** A caller that comes too late with its own run is sent to look again. */
  lemma LoserLooksAgain(cfg: Config, s: State, t: nat, c: Caller, run: Run, fault: Fault, after: State, a: Answer)
    requires Inv(cfg, s) && Next(cfg, s, Store(t, fault), after) && a in s.answers
    requires PhaseAt(s, t) == Some(Storing(c, run)) && KeyFor(c) == KeyFor(a.c)
    ensures after == s.(callers := s.callers[t := LookingAgain(c)])
  {
    hide StoreInv, Manuals, NeverBefore, C.RunFor, History, Admitted, C.ValidCreation, C.CompareCreation;
    assert PhaseOk(cfg, s.callers[t]) && AnswerOk(cfg, s.fs, a);
    var held := VersionTerms(s.fs, a.run);
    CreatedIsGood(cfg, c, run);
    assert KeyUsed(s.fs, KeyOf(run));
  }

  // ---- The race ----

  const WINNER: nat := 0
  const LOSER: nat := 1

  /** The states of the race: both callers look, neither finds; the first stores, the second loses and looks again. */
  function RaceStates(a: Caller, b: Caller, run: Run, other: Run, fs: Fs): seq<State> {
    [INIT,
     State(EMPTY, map[WINNER := Looking(a)], {}),
     State(EMPTY, map[WINNER := Looking(a), LOSER := Looking(b)], {}),
     State(EMPTY, map[WINNER := Storing(a, run), LOSER := Looking(b)], {}),
     State(EMPTY, map[WINNER := Storing(a, run), LOSER := Storing(b, other)], {}),
     State(fs, map[LOSER := Storing(b, other)], {Answer(a, run)}),
     State(fs, map[LOSER := LookingAgain(b)], {Answer(a, run)}),
     State(Sync(fs, RunsDir), map[], {Answer(a, run), Answer(b, run)})]
  }

  function RaceSteps(first: C.Agent, second: C.Agent, q: C.Request, r: C.Request): seq<Step> {
    [Call(WINNER, first, q), Call(LOSER, second, r), Find(WINNER, None, "first", 1, false),
     Find(LOSER, None, "second", 1, false),
     Store(WINNER, NoFault), Store(LOSER, NoFault), FindAgain(LOSER, Some("first"), false)]
  }

  function Preflight(cfg: Config, agent: C.Agent, q: C.Request): Option<Caller> {
    match C.Prepare(cfg.lib, agent, cfg.unrestricted, cfg.limit, q)
    case Ok(p) => Some(Caller(agent, p))
    case Err(_) => None
  }

  lemma RaceRunsOn(cfg: Config, first: C.Agent, second: C.Agent, q: C.Request, r: C.Request, a: Caller, b: Caller,
                   run: Run, other: Run, fs: Fs)
    requires Preflight(cfg, first, q) == Some(a) && Preflight(cfg, second, r) == Some(b)
    requires run == C.RunFor("first", a.agent, a.p, 1) && other == C.RunFor("second", b.agent, b.p, 1)
    requires KeyFor(a) == KeyFor(b)
    requires Sync(EMPTY, RunsDir) == EMPTY && !KeyUsed(EMPTY, KeyFor(a))
    requires CreateRun(EMPTY, run, NoFault) == (fs, Ok(())) && CreateRun(fs, other, NoFault) == (fs, Err(AlreadyExists))
    requires RunAt(fs, "first") == Some(run) && KeyOf(run) == KeyFor(b) && C.RepeatAfterRace(run, b.p) == Ok(run)
    ensures Trace(cfg, RaceStates(a, b, run, other, fs), RaceSteps(first, second, q, r))
  {
    hide C.Prepare, C.RunFor, KeyUsed, Sync, KeyFor, CreateRun, C.RepeatAfterRace, RunAt;
  }

  function Last(states: seq<State>): State {
    if states == [] then INIT else states[|states| - 1]
  }

  /** Two automatic requests for one request id, of different agents: both look, neither finds; one stores, the
      other loses the race, looks again and is answered with the run of the other agent, which it would have been
      refused had it looked later. */
  lemma RaceHandsOutOtherAgent(cfg: Config, first: C.Agent, second: C.Agent, q: C.Request, r: C.Request, a: Caller,
                               b: Caller)
    returns (states: seq<State>, run: Run)
    requires first.id != second.id && Preflight(cfg, first, q) == Some(a) && Preflight(cfg, second, r) == Some(b)
    requires KeyFor(a) == KeyFor(b) && !ManualCaller(a) && !ManualCaller(b)
    ensures Trace(cfg, states, RaceSteps(first, second, q, r)) && Answer(b, run) in Last(states).answers
    ensures run.terms.agentId == first.id && C.Repeat(run, second, b.p) == Err(Conflict)
  {
    hide Next, C.Prepare, C.RunFor, PutRun, CreateRun, KeyUsed, C.CompareCreation, C.Repeat, C.RepeatAfterRace,
         Sync, Trace;
    run := C.RunFor("first", a.agent, a.p, 1);
    var other := C.RunFor("second", b.agent, b.p, 1);
    var fs := PutRun(EMPTY, "first", run, NoFault);
    RaceRuns(a, b, run, other, fs);
    RaceRunsOn(cfg, first, second, q, r, a, b, run, other, fs);
    states := RaceStates(a, b, run, other, fs);
  }

  lemma RaceRuns(a: Caller, b: Caller, run: Run, other: Run, fs: Fs)
    requires KeyFor(a) == KeyFor(b) && !ManualCaller(a) && !ManualCaller(b) && a.agent.id != b.agent.id
    requires run == C.RunFor("first", a.agent, a.p, 1) && other == C.RunFor("second", b.agent, b.p, 1)
    requires fs == PutRun(EMPTY, "first", run, NoFault)
    ensures Sync(EMPTY, RunsDir) == EMPTY && !KeyUsed(EMPTY, KeyFor(a))
    ensures CreateRun(EMPTY, run, NoFault) == (fs, Ok(())) && CreateRun(fs, other, NoFault) == (fs, Err(AlreadyExists))
    ensures RunAt(fs, "first") == Some(run) && KeyOf(run) == KeyFor(b) && run.terms.agentId == a.agent.id
    ensures C.RepeatAfterRace(run, b.p) == Ok(run) && C.Repeat(run, b.agent, b.p) == Err(Conflict)
  {
    assert Sync(EMPTY, RunsDir).past == {};
    assert RunAt(fs, "first") == Some(run);
    assert KeyOf(run) == KeyFor(a) && KeyOf(other) == KeyFor(b);
    assert KeyUsed(fs, KeyOf(other));
    assert forall id :: RunAt(EMPTY, id).None?;
  }

  const REQUEST :=
      C.Request("request", "", "mode", "automatic", None, [], Scope("tenant", "", [], [], [], None),
                Policy("", false, "", 0, ""),
                             Output("", []), map[])

  function AnAgent(id: string): C.Agent { C.Agent(id, {"mode"}, {}, {"json"}, {}) }

  /** Such requests exist: one request, accepted for two agents. */
  lemma RaceIsPossible(cfg: Config, id: string) returns (c: Caller)
    ensures Preflight(cfg, AnAgent(id), REQUEST) == Some(c) && KeyFor(c) == RequestKey("tenant", "request")
    ensures !ManualCaller(c)
  {
    hide TrimSpace, Text;
    TrimFixed("request");
    TrimFixed("");
    TrimFixed("mode");
    TrimFixed("automatic");
    TrimFixed("tenant");
    Evidence.AsciiLength("request");
    Evidence.AsciiLength("tenant");
    assert C.TrimRequest(REQUEST) == REQUEST;
    c := Preflight(cfg, AnAgent(id), REQUEST).value;
  }

  lemma RaceHappens(cfg: Config) returns (states: seq<State>, steps: seq<Step>, b: Caller, run: Run)
    ensures Trace(cfg, states, steps) && Answer(b, run) in Last(states).answers
    ensures run.terms.agentId != b.agent.id && C.Repeat(run, b.agent, b.p) == Err(Conflict)
  {
    hide Next, C.Prepare, C.Repeat, RequestKey, Trace, Last;
    var a := RaceIsPossible(cfg, "first");
    b := RaceIsPossible(cfg, "second");
    steps := RaceSteps(AnAgent("first"), AnAgent("second"), REQUEST, REQUEST);
    states, run := RaceHandsOutOtherAgent(cfg, AnAgent("first"), AnAgent("second"), REQUEST, REQUEST, a, b);
  }
}
