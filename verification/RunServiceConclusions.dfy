/** The run service with the output gate in place: what a run concludes passed the gate. */
module RunServiceConclusions {
  import opened Prelude
  import opened Utf8
  import opened Domain
  import opened Runs
  import opened RunUpdates
  import opened RunFiles
  import opened RunService
  import opened RunServiceTheorems
  import opened RunServiceHistory
  import opened RunServiceWitnesses
  import Gate

  /** The worker concludes as the gate with this library does. */
  ghost predicate GatedBy(cfg: Config, lib: Gate.Library) {
    forall agent, j :: cfg.concludes(agent, j) ==> Gate.Concludes(lib, agent, j.given, j.err, j.records, j.result)
  }

  /** A run stored as succeeded or partial, in any version a power loss may bring back, keeps the very output that its
      own executor returned in one execution of it, and that output passed the gate of the run's agent, with all its
      findings backed by the evidence listing of that execution. */
  lemma ConclusionsAreEarned(cfg: Config, lib: Gate.Library, states: seq<State>, steps: seq<Step>, n: nat,
                             id: string, r: Run)
    returns (a: Account, records: seq<EvidenceRef>, result: RunResult)
    requires GatedBy(cfg, lib) && Trace(cfg, states, steps) && n < |states| && HasRun(states[n].fs, id, r)
    requires Good(r.status)
    ensures Executed(states, steps, id, a) && a.written < n && a.given.err == NoError && a.records == Ok(records)
    ensures r.result == Some(result) && a.result == ExecutionResult(r.status, result)
    ensures Gate.Conclusion(lib, r.terms.agentId, a.given.result, records, result, r.status)
    ensures forall f :: f in result.findings && (f.severity == "high" || f.severity == "critical") ==>
      f.evidenceRefs != []
  {
    hide Trace, Gate.Conclusion, Gate.Concludes, BoundResult, Executed;
    a := ExecutionBehind(cfg, states, steps, n, id, r);
    Gate.ConclusionPassed(lib, r.terms.agentId, a.given.result, a.records, a.result);
    records, result := a.records.value, a.result.result;
    Gate.ConclusionIsNoGuess(lib, r.terms.agentId, a.given.result, records, result, r.status);
  }

  // ---- Output that cannot be stored ----

  /** An executor succeeds with a message that is no JSON text. The gate refuses it as malformed and keeps it, so
      that no disk is at fault when the failure cannot be stored: the run is left running, registered for no worker,
      and the failure the gate found is not on disk. */
  lemma PlainTextStrays(lib: Gate.Library, given: ExecutionResult, records: Result<seq<EvidenceRef>, Error>,
                        result: ExecutionResult)
    returns (cfg: Config, h: Story, last: State)
    requires given.status == Succeeded && Gate.Concludes(lib, "agent", given, NoError, records, result)
    requires given.result.rawOutput != [] && !lib.isJson(given.result.rawOutput)
    requires !lib.blank(given.result.rawOutput) && lib.decode(given.result.rawOutput).None?
    ensures GatedBy(cfg, lib) && Leads(cfg, h, last) && Faultless(h) && Stray(last, "run")
    ensures result.status == Failed && result.result.errorCode == "agent_output_malformed"
  {
    hide Gate.Concludes, Leads, Faultless, Stray;
    var judge: Judge := (agent, j: Judgement) => Gate.Concludes(lib, agent, j.given, j.err, j.records, j.result);
    Gate.MalformedIsKept(lib, "agent", given, records, result);
    h, last := StrayWithoutFault(judge, lib.isJson, given, records, result);
    cfg := Small(judge, lib.isJson);
  }

  const REFUSAL := Text("I cannot do that")

  /** Such a conclusion exists, for a message as plain as this one. */
  lemma RefusalStrays(lib: Gate.Library) returns (cfg: Config, h: Story, last: State)
    requires !lib.isJson(REFUSAL) && !lib.blank(REFUSAL) && lib.decode(REFUSAL).None?
    ensures GatedBy(cfg, lib) && Leads(cfg, h, last) && Faultless(h) && Stray(last, "run")
  {
    hide Gate.Concludes, Leads, Faultless, Stray, GatedBy;
    var given := ExecutionResult(Succeeded, NO_RESULT.(rawOutput := REFUSAL));
    var result := Gate.RefusedAs(lib, "agent", given);
    assert REFUSAL[0] == 73;
    cfg, h, last := PlainTextStrays(lib, given, Ok([]), result);
  }
}
